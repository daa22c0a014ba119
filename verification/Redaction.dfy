/** Redaction of text before it becomes durable (src/journal.rs redact_string,
    redact_value). The loop rewrites the text marker by marker, and the text can
    grow; the specification is a single left-to-right pass. */
module Redaction {
  import opened Text
  import opened Json

  const MARKERS: seq<string> := ["sk-", "ghp_", "github_pat_", "xoxb-", "Bearer "]

  // ---------------------------------------------------------------------------
  // The single pass.

  /** One of the markers starts here. */
  predicate AtMarker(s: string, markers: seq<string>) {
    exists m :: m in markers && m <= s
  }

  /** The rest of the text from the first whitespace on. */
  function SkipWord(s: string): (rest: string)
    ensures |rest| <= |s|
    ensures s != "" && !IsWhitespace(s[0]) ==> |rest| < |s|
    ensures rest == s[|s| - |rest|..]
  {
    if s == "" || IsWhitespace(s[0]) then s else SkipWord(s[1..])
  }

  /** Copies the text; where a marker starts, the rest of that word becomes
      `[REDACTED]` and the scan goes on after it. */
  function Scan(s: string, markers: seq<string>): string
    decreases |s|
  {
    if s == "" then ""
    else if AtMarker(s, markers) && !IsWhitespace(s[0]) then REDACTED + Scan(SkipWord(s), markers)
    else [s[0]] + Scan(s[1..], markers)
  }

  ghost predicate MarkerFree(s: string) {
    forall m, i :: m in MARKERS && 0 <= i <= |s| ==> !(m <= s[i..])
  }

  // ---------------------------------------------------------------------------
  // What makes the five markers independent of each other and of the
  // replacement text.

  /** Starts with neither whitespace nor a character of the replacement, and
      does not contain its opening bracket. */
  ghost predicate Plain(m: string) {
    m != "" && !IsWhitespace(m[0]) && m[0] !in REDACTED && '[' !in m
  }

  /** `other` cannot start strictly inside an occurrence of `m`. */
  ghost predicate NoOverlap(m: string, other: string) {
    forall d :: 1 <= d < |m| ==> !(m[d..] <= other) && !(other <= m[d..])
  }

  lemma MarkersArePlain()
    ensures forall m :: m in MARKERS ==> Plain(m)
  {
  }

  lemma MarkerIsPlain(k: nat)
    requires k < |MARKERS|
    ensures Plain(MARKERS[k])
  {
    MarkersArePlain();
  }

  lemma MarkersNeverOverlap(i: nat, j: nat)
    requires i < |MARKERS| && j < |MARKERS|
    ensures NoOverlap(MARKERS[i], MARKERS[j])
  {
    var m, other := MARKERS[i], MARKERS[j];
    forall d | 1 <= d < |m| ensures !(m[d..] <= other) && !(other <= m[d..]) {
      assert m[d..][0] == m[d];
      if d + 1 < |m| { assert m[d..][1] == m[d + 1]; }
    }
  }

  // ---------------------------------------------------------------------------
  // Adding one marker to the pass is running a second pass for it.

  /** What the second pass sees of a marker-free prefix is what the first saw. */
  lemma {:induction false} ScanKeepsPrefix(s: string, markers: seq<string>, p: string)
    requires '[' !in p && p <= Scan(s, markers)
    ensures p <= s
    decreases |p|
  {
    if p != "" {
      ScanHead(s, markers);
      assert p[0] in p && p[0] == Scan(s, markers)[0];
      ScanKeepsPrefix(s[1..], markers, p[1..]);
      assert p == [p[0]] + p[1..] && s == [s[0]] + s[1..];
    }
  }

  lemma ScanHead(s: string, markers: seq<string>)
    ensures Scan(s, markers) == "" || Scan(s, markers)[0] == '[' || (s != "" && Scan(s, markers) == [s[0]] + Scan(s[1..], markers))
  {
  }

  /** The scan copies a stretch in which no marker starts. */
  lemma {:induction false} ScanCopies(s: string, markers: seq<string>, n: nat)
    requires n <= |s|
    requires forall d :: 0 <= d < n ==> !AtMarker(s[d..], markers)
    ensures Scan(s, markers) == s[..n] + Scan(s[n..], markers)
  {
    if n == 0 {
      assert s[..0] + Scan(s[0..], markers) == Scan(s[0..], markers) && s[0..] == s;
    } else {
      assert !AtMarker(s[0..], markers) && s[0..] == s;
      forall d | 0 <= d < n - 1 ensures !AtMarker(s[1..][d..], markers) {
        assert s[1..][d..] == s[d + 1..];
      }
      ScanCopies(s[1..], markers, n - 1);
      PrependToCopy(s, n, Scan(s[n..], markers));
    }
  }

  lemma PrependToCopy(s: string, n: nat, t: string)
    requires 0 < n <= |s|
    ensures s[1..][n - 1..] == s[n..]
    ensures [s[0]] + (s[1..][..n - 1] + t) == s[..n] + t
  {
  }

  /** No marker starts inside text that avoids its first character. */
  lemma {:induction false} ScanSkips(r: string, t: string, m: string)
    requires m != "" && m[0] !in r
    ensures Scan(r + t, [m]) == r + Scan(t, [m])
  {
    if r == "" {
      assert r + t == t;
    } else {
      assert (r + t)[1..] == r[1..] + t;
      ScanSkips(r[1..], t, m);
      assert !AtMarker(r + t, [m]) by { assert (r + t)[0] == r[0]; }
      PrependToCopy(r, |r|, Scan(t, [m]));
      assert r[1..][..|r| - 1] == r[1..] && r[..|r|] == r;
    }
  }

  /** The end of a word is the same before and after a pass. */
  lemma {:induction false} ScanKeepsWordEnd(s: string, markers: seq<string>)
    ensures SkipWord(Scan(s, markers)) == Scan(SkipWord(s), markers)
    decreases |s|
  {
    if s == "" {
    } else if IsWhitespace(s[0]) {
      assert Scan(s, markers) == [s[0]] + Scan(s[1..], markers);
    } else if AtMarker(s, markers) {
      var rest := SkipWord(s);
      SkipWordStops(s);
      var t := Scan(rest, markers);
      assert t == "" || IsWhitespace(t[0]);
      SkipReplacement(REDACTED, t);
    } else {
      ScanKeepsWordEnd(s[1..], markers);
      var t := Scan(s[1..], markers);
      assert ([s[0]] + t)[1..] == t;
    }
  }

  lemma SkipWordStops(s: string)
    ensures SkipWord(s) == "" || IsWhitespace(SkipWord(s)[0])
  {
  }

  lemma {:induction false} SkipReplacement(r: string, t: string)
    requires forall c :: c in r ==> !IsWhitespace(c)
    requires t == "" || IsWhitespace(t[0])
    ensures SkipWord(r + t) == t
  {
    if r == "" {
      assert r + t == t;
    } else {
      assert (r + t)[1..] == r[1..] + t;
      SkipReplacement(r[1..], t);
    }
  }

  /** A second pass for `m` after a pass for `markers` is one pass for both. */
  lemma {:induction false} PassesCompose(s: string, markers: seq<string>, m: string)
    requires Plain(m) && forall other :: other in markers ==> Plain(other) && NoOverlap(m, other)
    ensures Scan(Scan(s, markers), [m]) == Scan(s, markers + [m])
    decreases |s|
  {
    var t := Scan(s, markers);
    if s == "" {
    } else if AtMarker(s, markers) && !IsWhitespace(s[0]) {
      var rest := SkipWord(s);
      ScanSkips(REDACTED, Scan(rest, markers), m);
      PassesCompose(rest, markers, m);
      AtMarkerEither(s, markers, m);
    } else if m <= s {
      MarkerSurvives(s, markers, m);
      ScanKeepsWordEnd(s, markers);
      PassesCompose(SkipWord(s), markers, m);
      AtMarkerEither(s, markers, m);
      assert m <= t && t[0] == m[0];
      AtMarkerEither(t, [], m);
    } else {
      AtMarkerEither(s, markers, m);
      AtMarkerEither(t, [], m);
      assert [] + [m] == [m];
      if m <= t { ScanKeepsPrefix(s, markers, m); assert false; }
      PassesCompose(s[1..], markers, m);
      assert t[1..] == Scan(s[1..], markers);
    }
  }

  lemma AtMarkerEither(s: string, markers: seq<string>, m: string)
    ensures AtMarker(s, markers + [m]) <==> AtMarker(s, markers) || m <= s
  {
    if AtMarker(s, markers) {
      var x :| x in markers && x <= s;
      assert x in markers + [m];
    }
    assert m in markers + [m];
  }

  /** A marker the first pass did not reach is still there for the second. */
  lemma MarkerSurvives(s: string, markers: seq<string>, m: string)
    requires Plain(m) && m <= s && !AtMarker(s, markers)
    requires forall other :: other in markers ==> Plain(other) && NoOverlap(m, other)
    ensures m <= Scan(s, markers)
  {
    forall d | 0 <= d < |m| ensures !AtMarker(s[d..], markers) {
      if d == 0 {
        assert s[0..] == s;
      } else {
        forall other | other in markers ensures !(other <= s[d..]) {
          assert m[d..] <= s[d..];
        }
      }
    }
    ScanCopies(s, markers, |m|);
    assert s[..|m|] == m;
  }

  // ---------------------------------------------------------------------------
  // The rewriting loop.

  /** Rust's `str::find` with a string pattern. */
  function Find(s: string, p: string): (r: Option<nat>)
    ensures r.Some? ==> r.value <= |s| && p <= s[r.value..]
    ensures r.Some? ==> forall i :: 0 <= i < r.value ==> !(p <= s[i..])
    ensures r.None? ==> forall i :: 0 <= i <= |s| ==> !(p <= s[i..])
  {
    if p <= s then Some(0)
    else if s == "" then None
    else
      var rest := Find(s[1..], p);
      assert forall i :: 0 < i <= |s| ==> s[i..] == s[1..][i - 1..];
      if rest.None? then None else Some(rest.value + 1)
  }

  /** The first whitespace at or after `start`, or the end of the text. */
  function WordEnd(s: string, start: nat): (end: nat)
    requires start <= |s|
    ensures start <= end <= |s|
    ensures SkipWord(s[start..]) == s[end..]
    ensures start < |s| && !IsWhitespace(s[start]) ==> start < end
    decreases |s| - start
  {
    if start == |s| || IsWhitespace(s[start]) then start
    else
      assert s[start..][1..] == s[start + 1..];
      WordEnd(s, start + 1)
  }

  /** How much text is left from the first occurrence on. Replacing it may
      lengthen the text, but never this. */
  function Ahead(s: string, m: string): nat {
    match Find(s, m)
    case None => 0
    case Some(start) => |s| - start + 1
  }

  method RedactString(text: string) returns (out: string)
    ensures out == Scan(text, MARKERS)
  {
    out := text;
    ScanNothing(text);
    for k := 0 to |MARKERS|
      invariant out == Scan(text, MARKERS[..k])
    {
      MarkerIsPlain(k);
      out := RedactMarker(out, MARKERS[k]);
      ComposeNext(text, k);
    }
    assert MARKERS[..|MARKERS|] == MARKERS;
  }

  /** Replaces the first occurrence until there is none. */
  method RedactMarker(text: string, marker: string) returns (out: string)
    requires Plain(marker)
    ensures out == Scan(text, [marker])
  {
    out := text;
    var found := Find(out, marker);
    while found.Some?
      invariant found == Find(out, marker)
      invariant Scan(out, [marker]) == Scan(text, [marker])
      decreases Ahead(out, marker)
    {
      var start := found.value;
      var end := WordEnd(out, start);
      ReplaceFirst(out, marker, start, end);
      out := out[..start] + REDACTED + out[end..];
      found := Find(out, marker);
    }
    NothingToScan(out, marker);
  }

  lemma {:induction false} ScanNothing(s: string)
    ensures Scan(s, []) == s
  {
    if s != "" { ScanNothing(s[1..]); }
  }

  lemma {:induction false} NothingToScan(s: string, m: string)
    requires Find(s, m).None?
    ensures Scan(s, [m]) == s
    decreases |s|
  {
    if s != "" {
      assert s[0..] == s;
      assert Find(s[1..], m).None?;
      NothingToScan(s[1..], m);
    }
  }

  lemma ComposeNext(text: string, k: nat)
    requires k < |MARKERS|
    ensures Scan(Scan(text, MARKERS[..k]), [MARKERS[k]]) == Scan(text, MARKERS[..k + 1])
  {
    MarkersArePlain();
    forall other | other in MARKERS[..k] ensures Plain(other) && NoOverlap(MARKERS[k], other) {
      var j :| 0 <= j < k && MARKERS[j] == other;
      MarkersNeverOverlap(k, j);
    }
    PassesCompose(text, MARKERS[..k], MARKERS[k]);
    assert MARKERS[..k + 1] == MARKERS[..k] + [MARKERS[k]];
  }

  /** One round of the loop leaves the outcome of the pass unchanged and moves
      the first occurrence closer to the end. */
  lemma ReplaceFirst(s: string, m: string, start: nat, end: nat)
    requires Plain(m) && Find(s, m) == Some(start) && end == WordEnd(s, start)
    ensures Scan(s[..start] + REDACTED + s[end..], [m]) == Scan(s, [m])
    ensures Ahead(s[..start] + REDACTED + s[end..], m) < Ahead(s, m)
  {
    var t := s[end..];
    ScanToFirst(s, m, start);
    ScanPastReplacement(s, m, start, t);
    assert s[start..][0] == m[0];
    NoneInReplacement(s, m, start, t);
  }

  lemma ScanToFirst(s: string, m: string, start: nat)
    requires Plain(m) && Find(s, m) == Some(start)
    ensures Scan(s, [m]) == s[..start] + (REDACTED + Scan(SkipWord(s[start..]), [m]))
  {
    forall d | 0 <= d < start ensures !AtMarker(s[d..], [m]) { }
    ScanCopies(s, [m], start);
    assert m in [m] && AtMarker(s[start..], [m]);
    assert s[start..][0] == m[0];
  }

  lemma ScanPastReplacement(s: string, m: string, start: nat, t: string)
    requires Plain(m) && Find(s, m) == Some(start)
    ensures Scan(s[..start] + REDACTED + t, [m]) == s[..start] + (REDACTED + Scan(t, [m]))
  {
    var u := s[..start] + REDACTED + t;
    forall d | 0 <= d < start ensures !AtMarker(u[d..], [m]) { NoEarlierOccurrence(s, m, start, d, t); }
    ScanCopies(u, [m], start);
    TakeDrop(s[..start], REDACTED, t);
    ScanSkips(REDACTED, t, m);
  }

  lemma TakeDrop(a: string, b: string, c: string)
    ensures (a + b + c)[..|a|] == a && (a + b + c)[|a|..] == b + c
  {
  }

  lemma NoEarlierOccurrence(s: string, m: string, start: nat, d: nat, t: string)
    requires Plain(m) && Find(s, m) == Some(start) && d < start
    ensures !(m <= (s[..start] + REDACTED + t)[d..])
  {
    var u := s[..start] + REDACTED + t;
    assert u[start] == '[' && u[..start] == s[..start];
    if m <= u[d..] { OccursInCopy(u, s, start, d, m); }
  }

  /** An occurrence cannot reach across the opening bracket. */
  lemma OccursInCopy(u: string, s: string, start: nat, d: nat, m: string)
    requires start < |u| && u[start] == '[' && start <= |s| && u[..start] == s[..start]
    requires d < start && '[' !in m && m <= u[d..]
    ensures m <= s[d..]
  {
    forall x | d <= x < d + |m| ensures u[x] != '[' { assert u[x] == u[d..][x - d] == m[x - d]; }
    assert d + |m| <= start;
    forall k | 0 <= k < |m| ensures s[d..][k] == m[k] {
      assert s[d + k] == s[..start][d + k] == u[..start][d + k] == u[d + k] == u[d..][k] == m[k];
    }
    assert s[d..][..|m|] == m;
  }

  lemma NoneInReplacement(s: string, m: string, start: nat, t: string)
    requires Plain(m) && Find(s, m) == Some(start)
    requires |t| < |s| - start
    ensures Ahead(s[..start] + REDACTED + t, m) < Ahead(s, m)
  {
    var u := s[..start] + REDACTED + t;
    match Find(u, m)
    case None =>
    case Some(i) =>
      assert u[start..start + |REDACTED|] == REDACTED;
      if i < start { NoEarlierOccurrence(s, m, start, i, t); }
  }

  // ---------------------------------------------------------------------------
  // What the redacted text is like.

  /** The whitespace of a text, in order. */
  function Blanks(s: string): string {
    if s == "" then "" else (if IsWhitespace(s[0]) then [s[0]] else []) + Blanks(s[1..])
  }

  lemma {:induction false} ScanIsMarkerFree(s: string, markers: seq<string>, i: nat, m: string)
    requires m in markers && Plain(m) && i <= |Scan(s, markers)|
    ensures !(m <= Scan(s, markers)[i..])
    decreases |s|
  {
    var t := Scan(s, markers);
    if s == "" {
    } else if AtMarker(s, markers) && !IsWhitespace(s[0]) {
      var rest := Scan(SkipWord(s), markers);
      if i < |REDACTED| {
        assert t[i..][0] == REDACTED[i];
      } else {
        assert t[i..] == rest[i - |REDACTED|..];
        ScanIsMarkerFree(SkipWord(s), markers, i - |REDACTED|, m);
      }
    } else if i == 0 {
      assert t[0..] == t;
      if m <= t { ScanKeepsPrefix(s, markers, m); }
    } else {
      assert t[i..] == Scan(s[1..], markers)[i - 1..];
      ScanIsMarkerFree(s[1..], markers, i - 1, m);
    }
  }

  lemma {:induction false} ScanOfMarkerFree(s: string)
    requires MarkerFree(s)
    ensures Scan(s, MARKERS) == s
  {
    if s != "" {
      assert s[0..] == s;
      assert forall i :: 0 <= i <= |s| - 1 ==> s[1..][i..] == s[i + 1..];
      ScanOfMarkerFree(s[1..]);
    }
  }

  /** Redacted text holds no marker, redaction changes exactly the texts that
      hold one, redacting twice is redacting once, and words stay apart. */
  lemma RedactedText(s: string)
    ensures MarkerFree(Scan(s, MARKERS))
    ensures Scan(s, MARKERS) == s <==> MarkerFree(s)
    ensures Scan(Scan(s, MARKERS), MARKERS) == Scan(s, MARKERS)
    ensures Blanks(Scan(s, MARKERS)) == Blanks(s)
  {
    forall m, i | m in MARKERS && 0 <= i <= |Scan(s, MARKERS)| ensures !(m <= Scan(s, MARKERS)[i..]) {
      MarkersArePlain();
      ScanIsMarkerFree(s, MARKERS, i, m);
    }
    ScanOfMarkerFree(Scan(s, MARKERS));
    if MarkerFree(s) { ScanOfMarkerFree(s); }
    ScanKeepsBlanks(s);
  }

  lemma {:induction false} ScanKeepsBlanks(s: string)
    ensures Blanks(Scan(s, MARKERS)) == Blanks(s)
    decreases |s|
  {
    if s != "" {
      if AtMarker(s, MARKERS) && !IsWhitespace(s[0]) {
        ScanKeepsBlanks(SkipWord(s));
        SkipKeepsBlanks(s);
        ReplacementHasNoBlanks(Scan(SkipWord(s), MARKERS));
      } else {
        ScanKeepsBlanks(s[1..]);
      }
    }
  }

  lemma {:induction false} SkipKeepsBlanks(s: string)
    ensures Blanks(SkipWord(s)) == Blanks(s)
  {
    if s != "" && !IsWhitespace(s[0]) { SkipKeepsBlanks(s[1..]); }
  }

  lemma ReplacementHasNoBlanks(t: string)
    ensures Blanks(REDACTED + t) == Blanks(t)
  {
    NoBlanks(REDACTED, t);
  }

  lemma {:induction false} NoBlanks(r: string, t: string)
    requires forall c :: c in r ==> !IsWhitespace(c)
    ensures Blanks(r + t) == Blanks(t)
  {
    if r == "" {
      assert r + t == t;
    } else {
      assert (r + t)[1..] == r[1..] + t;
      NoBlanks(r[1..], t);
    }
  }

  lemma BearerMarks(credential: string)
    ensures AtMarker("Bearer " + credential, MARKERS)
  {
    assert MARKERS[4] == "Bearer " && MARKERS[4] in MARKERS;
    assert MARKERS[4] <= "Bearer " + credential;
  }

  lemma ScanReplaces(s: string, markers: seq<string>)
    requires AtMarker(s, markers) && s != "" && !IsWhitespace(s[0])
    ensures Scan(s, markers) == REDACTED + Scan(SkipWord(s), markers)
  {
  }

  lemma BearerWord(credential: string)
    ensures Scan("Bearer " + credential, MARKERS) == REDACTED + Scan(" " + credential, MARKERS)
  {
    var s := "Bearer " + credential;
    BearerMarks(credential);
    assert s == "Bearer" + (" " + credential);
    SkipReplacement("Bearer", " " + credential);
    ScanReplaces(s, MARKERS);
  }

  lemma BlankIsCopied(s: string, markers: seq<string>)
    ensures Scan(" " + s, markers) == " " + Scan(s, markers)
  {
    assert (" " + s)[1..] == s;
  }

  lemma BearerText(credential: string, scanned: string)
    requires scanned == Scan(credential, MARKERS)
    ensures Scan("Bearer " + credential, MARKERS) == "[REDACTED] " + scanned
  {
    BearerWord(credential);
    BlankIsCopied(credential, MARKERS);
    assert REDACTED + (" " + scanned) == "[REDACTED] " + scanned;
  }

  lemma KeptExactly(credential: string, out: string)
    requires out == "[REDACTED] " + Scan(credential, MARKERS)
    ensures out == "[REDACTED] " + credential <==> MarkerFree(credential)
  {
    RedactedText(credential);
    SameAfter("[REDACTED] ", Scan(credential, MARKERS), credential);
  }

  /** `redact_string` cuts a bearer marker at its own space: the credential
      after it is redacted only as it would be alone, so it is kept unchanged
      exactly if it holds no marker of its own. */
  lemma BearerCredentialIsKept(credential: string)
    ensures Scan("Bearer " + credential, MARKERS) == "[REDACTED] " + Scan(credential, MARKERS)
    ensures Scan("Bearer " + credential, MARKERS) == "[REDACTED] " + credential <==> MarkerFree(credential)
  {
    BearerText(credential, Scan(credential, MARKERS));
    KeptExactly(credential, Scan("Bearer " + credential, MARKERS));
  }

  lemma SameAfter(head: string, a: string, b: string)
    ensures head + a == head + b <==> a == b
  {
    if head + a == head + b { assert a == (head + a)[|head|..] == (head + b)[|head|..] == b; }
  }

  /** Every marker contains a hyphen, a capital B, or the letter g. */
  lemma NoMarkerIn(s: string)
    requires '-' !in s && 'B' !in s && 'g' !in s
    ensures MarkerFree(s)
  {
    forall m, i | m in MARKERS && 0 <= i <= |s| ensures !(m <= s[i..]) {
      assert '-' in m || 'B' in m || 'g' in m by {
        assert "sk-"[2] == '-' && "xoxb-"[4] == '-' && "ghp_"[0] == 'g' && "github_pat_"[0] == 'g' && "Bearer "[0] == 'B';
      }
      if m <= s[i..] { LettersOfPart(m, s, i); }
    }
  }

  lemma LettersOfPart(m: string, s: string, i: nat)
    requires i <= |s| && m <= s[i..]
    ensures forall c :: c in m ==> c in s
  {
    forall c | c in m ensures c in s {
      var k :| 0 <= k < |m| && m[k] == c;
      assert s[i + k] == c;
    }
  }

  // ---------------------------------------------------------------------------
  // JSON values.

  predicate SensitiveKey(key: string) {
    var k := Lower(key);
    || Contains(k, "token") || Contains(k, "secret") || Contains(k, "password") || Contains(k, "authorization")
    || k in ["key", "api_key", "apikey", "access_key"]
  }

  /** `redact_value`: sensitive keys lose their whole value, strings are
      redacted, and everything else is kept. */
  function RedactValue(v: Json): Json {
    match v
    case Obj(fields) =>
      Obj(map k | k in fields :: if SensitiveKey(k) then Str(REDACTED) else RedactValue(fields[k]))
    case Arr(items) => Arr(seq(|items|, i requires 0 <= i < |items| => RedactValue(items[i])))
    case Str(s) => Str(Scan(s, MARKERS))
    case _ => v
  }

  /** Nothing a redacted value may still hold. */
  ghost predicate Safe(v: Json) {
    match v
    case Obj(fields) => forall k :: k in fields ==> if SensitiveKey(k) then fields[k] == Str(REDACTED) else Safe(fields[k])
    case Arr(items) => forall i :: 0 <= i < |items| ==> Safe(items[i])
    case Str(s) => MarkerFree(s)
    case _ => true
  }

  lemma {:induction false} RedactSafe(v: Json)
    requires Safe(v)
    ensures RedactValue(v) == v
  {
    match v
    case Obj(fields) =>
      forall k | k in fields && !SensitiveKey(k) ensures RedactValue(fields[k]) == fields[k] { RedactSafe(fields[k]); }
    case Arr(items) =>
      forall i | 0 <= i < |items| ensures RedactValue(items[i]) == items[i] { RedactSafe(items[i]); }
    case Str(s) => RedactedText(s);
    case _ =>
  }

  lemma {:induction false} RedactMakesSafe(v: Json)
    ensures Safe(RedactValue(v))
  {
    match v
    case Obj(fields) =>
      forall k | k in fields && !SensitiveKey(k) ensures Safe(RedactValue(fields[k])) { RedactMakesSafe(fields[k]); }
    case Arr(items) =>
      forall i | 0 <= i < |items| ensures Safe(RedactValue(items[i])) { RedactMakesSafe(items[i]); }
    case Str(s) => RedactedText(s);
    case _ =>
  }

  /** A redacted value is safe at every depth; exactly the safe values are left
      alone; redacting is idempotent. */
  lemma RedactedValue(v: Json)
    ensures Safe(RedactValue(v))
    ensures RedactValue(v) == v <==> Safe(v)
    ensures RedactValue(RedactValue(v)) == RedactValue(v)
  {
    RedactMakesSafe(v);
    RedactSafe(RedactValue(v));
    if Safe(v) { RedactSafe(v); }
  }
}
