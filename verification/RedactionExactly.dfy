/** Exactly what redaction takes out (src/journal.rs redact_string,
    redact_value, is_sensitive_key): which part of a text, which object keys,
    and what is left at every place of a value. */
module RedactionExactly {
  import opened Text
  import opened Json
  import opened Redaction

  // ---------------------------------------------------------------------------
  // Text.

  /** No marker starts in the first `n` characters. */
  ghost predicate NoMarkerBefore(s: string, n: nat)
    requires n <= |s|
  {
    forall d :: 0 <= d < n ==> !AtMarker(s[d..], MARKERS)
  }

  ghost predicate IsWord(word: string, rest: string) {
    word != "" && (forall c :: c in word ==> !IsWhitespace(c)) && (rest == "" || IsWhitespace(rest[0]))
  }

  /** The text has its first marker at the start of `word`, which ends where
      `rest` begins. */
  ghost predicate FirstMarker(s: string, before: string, word: string, rest: string) {
    s == before + (word + rest) && IsWord(word, rest) && AtMarker(word + rest, MARKERS) && NoMarkerBefore(s, |before|)
  }

  /** From the first marker to the end of its word the text becomes the
      replacement; what is before is kept, and what follows is redacted as it
      would be alone. With marker-free text kept, this is all redaction does. */
  lemma FirstMarkerReplaced(s: string, before: string, word: string, rest: string)
    requires FirstMarker(s, before, word, rest)
    ensures Scan(s, MARKERS) == before + (REDACTED + Scan(rest, MARKERS))
  {
    ScanCopies(s, MARKERS, |before|);
    assert s[..|before|] == before && s[|before|..] == word + rest;
    assert (word + rest)[0] in word;
    ScanReplaces(word + rest, MARKERS);
    SkipReplacement(word, rest);
  }

  /** Every text is marker-free or has a first marker. */
  lemma MarkerFreeOrFirst(s: string)
    ensures MarkerFree(s) <==> !exists before, word, rest :: FirstMarker(s, before, word, rest)
  {
    if MarkerFree(s) {
      forall before, word, rest ensures !FirstMarker(s, before, word, rest) {
        if s == before + (word + rest) { assert s[|before|..] == word + rest; }
      }
    } else {
      var before, word, rest := FindFirst(s, 0);
    }
  }

  lemma {:induction false} FindFirst(s: string, n: nat) returns (before: string, word: string, rest: string)
    requires n <= |s| && NoMarkerBefore(s, n) && !MarkerFree(s)
    ensures FirstMarker(s, before, word, rest)
    decreases |s| - n
  {
    if AtMarker(s[n..], MARKERS) {
      before := s[..n];
      word, rest := SplitWord(s[n..]);
      MarkedWord(word, rest);
    } else {
      NotEnd(s, n);
      before, word, rest := FindFirst(s, n + 1);
    }
  }

  lemma MarkedWord(word: string, rest: string)
    requires AtMarker(word + rest, MARKERS) && (rest == "" || IsWhitespace(rest[0]))
    ensures word != ""
  {
    assert word == "" ==> word + rest == rest;
    MarkersArePlain();
  }

  lemma NotEnd(s: string, n: nat)
    requires n <= |s| && NoMarkerBefore(s, n) && !AtMarker(s[n..], MARKERS) && !MarkerFree(s)
    ensures n < |s|
  {
    var m, i :| m in MARKERS && 0 <= i <= |s| && m <= s[i..];
    assert AtMarker(s[i..], MARKERS);
    assert i > n;
  }

  lemma {:induction false} SplitWord(s: string) returns (word: string, rest: string)
    ensures s == word + rest && (forall c :: c in word ==> !IsWhitespace(c)) && (rest == "" || IsWhitespace(rest[0]))
  {
    if s == "" || IsWhitespace(s[0]) {
      word, rest := "", s;
    } else {
      word, rest := SplitWord(s[1..]);
      word := [s[0]] + word;
    }
  }

  // ---------------------------------------------------------------------------
  // Keys.

  const WORDS: seq<string> := ["token", "secret", "password", "authorization"]
  const NAMES: seq<string> := ["key", "api_key", "apikey", "access_key"]

  /** The same letter, perhaps in the other case. */
  predicate SameLetter(a: char, b: char) {
    || a == b
    || ('A' <= a <= 'Z' && b as int == a as int - 'A' as int + 'a' as int)
    || ('A' <= b <= 'Z' && a as int == b as int - 'A' as int + 'a' as int)
  }

  ghost predicate SameLetters(a: string, b: string) {
    |a| == |b| && forall i :: 0 <= i < |a| ==> SameLetter(a[i], b[i])
  }

  ghost predicate HasWord(key: string) {
    exists before, word, after :: word in WORDS && key == before + (word + after)
  }

  lemma LowerOf(a: string)
    ensures SameLetters(a, Lower(a))
  {
  }

  lemma SameLower(a: string, b: string)
    requires SameLetters(a, b)
    ensures Lower(a) == Lower(b)
  {
  }

  lemma WordsAreLower(word: string)
    requires word in WORDS || word in NAMES
    ensures Lower(word) == word
  {
    forall i | 0 <= i < |word| ensures LowerChar(word[i]) == word[i] {
      assert 'a' <= word[i] <= 'z' || word[i] == '_';
    }
  }

  lemma LowerParts(a: string, b: string, c: string)
    ensures Lower(a + (b + c)) == Lower(a) + (Lower(b) + Lower(c))
  {
  }

  lemma Occurs(s: string, word: string)
    ensures Contains(s, word) <==> exists before, after :: s == before + (word + after)
  {
    if Contains(s, word) {
      var i :| 0 <= i <= |s| && OccursAt(s, word, i);
      assert s == s[..i] + (word + s[i + |word|..]);
    }
    if exists before, after :: s == before + (word + after) {
      var before, after :| s == before + (word + after);
      assert OccursAt(s, word, |before|);
    }
  }

  lemma WordOccurs(s: string)
    ensures HasWord(s) <==> Contains(s, "token") || Contains(s, "secret") || Contains(s, "password") || Contains(s, "authorization")
  {
    forall i | 0 <= i < 4 ensures Contains(s, WORDS[i]) <==> exists before, after :: s == before + (WORDS[i] + after) {
      Occurs(s, WORDS[i]);
    }
    if Contains(s, "token") { assert WORDS[0] in WORDS; }
    if Contains(s, "secret") { assert WORDS[1] in WORDS; }
    if Contains(s, "password") { assert WORDS[2] in WORDS; }
    if Contains(s, "authorization") { assert WORDS[3] in WORDS; }
  }

  /** A key is sensitive exactly if, in some way of writing its letters large or
      small, it contains a listed word or is a listed name. */
  lemma SensitiveExactly(key: string)
    ensures SensitiveKey(key) <==> exists variant :: SameLetters(key, variant) && (HasWord(variant) || variant in NAMES)
  {
    LowerOf(key);
    WordOccurs(Lower(key));
    forall variant | SameLetters(key, variant) && (HasWord(variant) || variant in NAMES) ensures SensitiveKey(key) {
      SameLower(key, variant);
      if variant in NAMES { WordsAreLower(variant); } else { WordInLower(variant); }
    }
  }

  lemma WordInLower(variant: string)
    requires HasWord(variant)
    ensures HasWord(Lower(variant))
  {
    var before, word, after :| word in WORDS && variant == before + (word + after);
    WordsAreLower(word);
    LowerParts(before, word, after);
  }

  // ---------------------------------------------------------------------------
  // Values.

  datatype Step = Field(key: string) | Item(index: nat)

  function Walk(v: Json, step: Step): Option<Json> {
    match step
    case Field(key) => v.Get(key)
    case Item(i) => if v.Arr? && i < |v.items| then Some(v.items[i]) else None
  }

  /** What is found along a path of keys and indices. */
  function At(v: Json, path: seq<Step>): Option<Json>
    decreases |path|
  {
    if path == [] then Some(v)
    else
      var next := Walk(v, path[0]);
      if next.None? then None else At(next.value, path[1..])
  }

  predicate Hides(step: Step) {
    step.Field? && SensitiveKey(step.key)
  }

  /** What redaction leaves of one value reached without a sensitive key. */
  predicate Left(before: Json, after: Json) {
    match before
    case Str(s) => after == Str(Scan(s, MARKERS))
    case Arr(items) => after.Arr? && |after.items| == |items|
    case Obj(fields) => after.Obj? && after.fields.Keys == fields.Keys
    case _ => after == before
  }

  /** Redaction moves nothing: a path that passes no sensitive key leads to a
      value exactly if it did before, with its text redacted and all else kept;
      and a path ending in its first sensitive key leads to the replacement. */
  lemma {:induction false} RedactedAt(v: Json, path: seq<Step>)
    requires forall i :: 0 <= i < |path| - 1 ==> !Hides(path[i])
    ensures At(RedactValue(v), path).Some? <==> At(v, path).Some?
    ensures At(v, path).Some? ==>
              if path != [] && Hides(path[|path| - 1]) then At(RedactValue(v), path) == Some(Str(REDACTED))
              else Left(At(v, path).value, At(RedactValue(v), path).value)
    decreases |path|
  {
    if path != [] {
      var next := Walk(v, path[0]);
      if next.Some? && !Hides(path[0]) {
        forall i | 0 <= i < |path[1..]| - 1 ensures !Hides(path[1..][i]) { assert path[1..][i] == path[i + 1]; }
        RedactedAt(next.value, path[1..]);
      }
    }
  }
}
