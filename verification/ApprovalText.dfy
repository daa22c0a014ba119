/** Text shown to the approval authority (src/client.rs sanitize_approval_text,
    approval_text_is_reviewable): credential-like words are replaced, control
    characters dropped, long text cut. Only text this leaves unchanged may be
    allowed. */
module ApprovalText {
  import opened Text

  const ELLIPSIS: char := '\U{2026}'

  // ---------------------------------------------------------------------------
  // Words.

  function WordLen(s: string): (n: nat)
    ensures n <= |s|
    ensures forall i :: 0 <= i < n ==> !IsWhitespace(s[i])
    ensures n < |s| ==> IsWhitespace(s[n])
  {
    if s == "" || IsWhitespace(s[0]) then 0 else 1 + WordLen(s[1..])
  }

  /** Rust's `split_whitespace`. */
  function Words(s: string): seq<string>
    decreases |s|
  {
    if s == "" then []
    else if IsWhitespace(s[0]) then Words(s[1..])
    else [s[..WordLen(s)]] + Words(s[WordLen(s)..])
  }

  /** Rust's `join(" ")`. */
  function Join(words: seq<string>): string {
    if words == [] then ""
    else if |words| == 1 then words[0]
    else words[0] + " " + Join(words[1..])
  }

  ghost predicate Unbroken(w: string) {
    forall c :: c in w ==> !IsWhitespace(c)
  }

  // ---------------------------------------------------------------------------
  // Sanitising.

  predicate HasSensitivePart(lower: string) {
    || Contains(lower, "token") || Contains(lower, "secret") || Contains(lower, "password")
    || Contains(lower, "authorization") || Contains(lower, "canary")
  }

  predicate HasSensitivePrefix(lower: string) {
    || StartsWith(lower, "sk-") || StartsWith(lower, "ghp_") || StartsWith(lower, "github_pat_") || StartsWith(lower, "xoxb-")
  }

  predicate Sensitive(lower: string) {
    HasSensitivePart(lower) || HasSensitivePrefix(lower)
  }

  predicate AnnouncesCredential(lower: string) {
    lower == "bearer" || EndsWith(lower, "bearer:")
  }

  function WithoutControl(s: string): (r: string)
    ensures |r| <= |s|
  {
    if s == "" then ""
    else if IsControl(s[0]) then WithoutControl(s[1..])
    else [s[0]] + WithoutControl(s[1..])
  }

  /** Word `i` is sensitive itself, or follows a word announcing a credential. */
  predicate Flagged(words: seq<string>, i: nat)
    requires i < |words|
  {
    Sensitive(Lower(words[i])) || (i > 0 && AnnouncesCredential(Lower(words[i - 1])))
  }

  function CleanWord(words: seq<string>, i: nat): string
    requires i < |words|
  {
    if Flagged(words, i) then REDACTED else WithoutControl(words[i])
  }

  function CleanWords(words: seq<string>): (clean: seq<string>)
    ensures |clean| == |words|
  {
    seq(|words|, i requires 0 <= i < |words| => CleanWord(words, i))
  }

  function Bounded(s: string, limit: nat): string {
    if |s| > limit then s[..if limit == 0 then 0 else limit - 1] + [ELLIPSIS] else s
  }

  function Sanitized(value: string, limit: nat): string {
    Bounded(Join(CleanWords(Words(value))), limit)
  }

  predicate Reviewable(value: string, limit: nat) {
    |value| <= limit && Sanitized(value, limit) == value
  }

  method SanitizeApprovalText(value: string, limit: nat) returns (bounded: string)
    ensures bounded == Sanitized(value, limit)
  {
    var output: seq<string> := [];
    var redactNext := false;
    var words := Words(value);
    for k := 0 to |words|
      invariant |output| == k
      invariant forall i :: 0 <= i < k ==> output[i] == CleanWord(words, i)
      invariant redactNext <==> k > 0 && AnnouncesCredential(Lower(words[k - 1]))
    {
      var lower := Lower(words[k]);
      var sensitive := redactNext || Sensitive(lower);
      redactNext := AnnouncesCredential(lower);
      output := output + [if sensitive then REDACTED else WithoutControl(words[k])];
    }
    assert output == CleanWords(words);
    bounded := Join(output);
    if |bounded| > limit {
      bounded := bounded[..if limit == 0 then 0 else limit - 1];
      bounded := bounded + [ELLIPSIS];
    }
  }

  // ---------------------------------------------------------------------------
  // Which text is reviewable.

  ghost predicate NoControl(s: string) {
    forall c :: c in s ==> !IsControl(c)
  }

  /** Flagged words among the first `n` are literally the replacement. */
  ghost predicate FlagsShown(words: seq<string>, n: nat)
    requires n <= |words|
  {
    forall i :: 0 <= i < n && Flagged(words, i) ==> words[i] == REDACTED
  }

  /** Single-spaced, free of control characters, with every flagged word already
      the replacement text. */
  ghost predicate Clean(value: string) {
    var words := Words(value);
    value == Join(words) && NoControl(value) && FlagsShown(words, |words|)
  }

  /** `w` is what cutting `full` short may leave of it. */
  ghost predicate CutOf(w: string, full: string) {
    w != "" && |w| < |full| && w == full[..|w| - 1] + [ELLIPSIS]
  }

  /** Clean but for the last word, a flagged one that reads like a cut
      replacement. */
  ghost predicate CleanButCut(value: string) {
    var words := Words(value);
    && words != [] && value == Join(words) && NoControl(value)
    && FlagsShown(words, |words| - 1)
    && Flagged(words, |words| - 1) && CutOf(words[|words| - 1], REDACTED)
  }

  lemma {:induction false} WordsUnbroken(s: string)
    ensures forall w :: w in Words(s) ==> w != "" && Unbroken(w)
    decreases |s|
  {
    if s != "" {
      if IsWhitespace(s[0]) { WordsUnbroken(s[1..]); } else { WordsUnbroken(s[WordLen(s)..]); }
    }
  }

  lemma {:induction false} WithoutControlProps(s: string)
    ensures NoControl(WithoutControl(s))
    ensures Unbroken(s) ==> Unbroken(WithoutControl(s))
    ensures WithoutControl(s) == s <==> NoControl(s)
  {
    if s != "" {
      WithoutControlProps(s[1..]);
      assert s == [s[0]] + s[1..];
    }
  }

  lemma CleanWordProps(words: seq<string>, i: nat)
    requires i < |words| && Unbroken(words[i])
    ensures Unbroken(CleanWord(words, i)) && NoControl(CleanWord(words, i))
    ensures !Flagged(words, i) ==> |CleanWord(words, i)| <= |words[i]|
    ensures !Flagged(words, i) ==> (CleanWord(words, i) == words[i] <==> NoControl(words[i]))
  {
    WithoutControlProps(words[i]);
  }

  lemma {:induction false} WordLenOf(w: string, rest: string)
    requires Unbroken(w) && (rest == "" || IsWhitespace(rest[0]))
    ensures WordLen(w + rest) == |w|
  {
    if w != "" {
      assert w[0] in w;
      assert (w + rest)[1..] == w[1..] + rest;
      WordLenOf(w[1..], rest);
    } else {
      assert w + rest == rest;
    }
  }

  /** A word, a space, and more text. */
  lemma WordsOfTwo(w: string, rest: string)
    requires Unbroken(w)
    ensures Words(w + " " + rest) == (if w == "" then [] else [w]) + Words(rest)
  {
    var s := w + " " + rest;
    if w == "" {
      assert s[1..] == rest;
    } else {
      assert s[0] == w[0] && w[0] in w;
      assert s == w + (" " + rest);
      WordLenOf(w, " " + rest);
      assert s[..|w|] == w && s[|w|..] == " " + rest;
      assert (" " + rest)[1..] == rest;
    }
  }

  lemma WordsOfOne(w: string)
    requires Unbroken(w)
    ensures Words(w) == if w == "" then [] else [w]
  {
    if w != "" {
      assert w[0] in w;
      WordLenOf(w, "");
      assert w + "" == w && w[..|w|] == w && w[|w|..] == "";
    }
  }

  lemma {:induction false} WordsOfJoin(words: seq<string>)
    requires forall w :: w in words ==> Unbroken(w)
    ensures |Words(Join(words))| <= |words|
    ensures |Words(Join(words))| == |words| ==> Words(Join(words)) == words
  {
    if words != [] {
      assert words[0] in words;
      if |words| == 1 {
        WordsOfOne(words[0]);
      } else {
        forall w | w in words[1..] ensures w in words { }
        WordsOfJoin(words[1..]);
        WordsOfTwo(words[0], Join(words[1..]));
        Prepend(words, Words(Join(words[1..])));
      }
    }
  }

  lemma Prepend(words: seq<string>, rest: seq<string>)
    requires words != [] && |rest| <= |words| - 1 && (|rest| == |words| - 1 ==> rest == words[1..])
    ensures var all := (if words[0] == "" then [] else [words[0]]) + rest;
            |all| <= |words| && (|all| == |words| ==> all == words)
  {
    assert words == [words[0]] + words[1..];
  }

  /** `value` is the joined text cut after `n` characters. */
  ghost predicate IsCut(value: string, joined: string, n: nat) {
    n + 1 < |joined| && value == joined[..n] + [ELLIPSIS]
  }

  /** Cutting joined text either loses words or cuts the last one. */
  lemma {:induction false} WordsOfCut(words: seq<string>, value: string, n: nat)
    requires forall w :: w in words ==> Unbroken(w)
    requires IsCut(value, Join(words), n)
    ensures |Words(value)| <= |words|
    ensures |Words(value)| == |words| ==> Words(value)[..|words| - 1] == words[..|words| - 1]
    ensures |Words(value)| == |words| ==> CutOf(Words(value)[|words| - 1], words[|words| - 1])
    ensures |Words(value)| == |words| ==> value == Join(Words(value))
  {
    assert words[0] in words;
    if |words| > 1 && |words[0]| < n {
      forall w | w in words[1..] ensures w in words { }
      var rest := value[|words[0]| + 1..];
      CutLater(words, value, n);
      WordsOfCut(words[1..], rest, n - |words[0]| - 1);
      WordsOfTwo(words[0], rest);
      if |Words(value)| == |words| { LongerCut(words, Words(rest), value); }
    }
  }

  lemma CutLater(words: seq<string>, value: string, n: nat)
    requires |words| > 1 && |words[0]| < n && IsCut(value, Join(words), n)
    ensures |words[0]| + 1 <= |value|
    ensures value == words[0] + " " + value[|words[0]| + 1..]
    ensures IsCut(value[|words[0]| + 1..], Join(words[1..]), n - |words[0]| - 1)
  {
  }

  lemma LongerCut(words: seq<string>, rest: seq<string>, value: string)
    requires |words| > 1 && words[0] != "" && |rest| == |words| - 1
    requires Words(value) == [words[0]] + rest && value == words[0] + " " + Join(rest)
    requires rest[..|rest| - 1] == words[1..][..|rest| - 1]
    requires CutOf(rest[|rest| - 1], words[1..][|rest| - 1])
    ensures Words(value)[..|words| - 1] == words[..|words| - 1]
    ensures CutOf(Words(value)[|words| - 1], words[|words| - 1])
    ensures value == Join(Words(value))
  {
    assert Words(value)[1..] == rest;
    assert words[..|words| - 1] == [words[0]] + words[1..][..|rest| - 1];
    assert words[1..][|rest| - 1] == words[|words| - 1];
  }

  lemma CleanWordsUnbroken(value: string)
    ensures forall w :: w in CleanWords(Words(value)) ==> Unbroken(w) && NoControl(w)
  {
    var words := Words(value);
    WordsUnbroken(value);
    forall w | w in CleanWords(words) ensures Unbroken(w) && NoControl(w) {
      var i :| 0 <= i < |words| && CleanWords(words)[i] == w;
      assert words[i] in words;
      CleanWordProps(words, i);
    }
  }

  lemma {:induction false} JoinNoControl(words: seq<string>)
    ensures NoControl(Join(words)) <==> forall w :: w in words ==> NoControl(w)
  {
    if |words| == 1 {
    } else if words != [] {
      JoinNoControl(words[1..]);
      assert words == [words[0]] + words[1..];
      assert words[0] in words;
      assert ' ' !in "" && !IsControl(' ');
      forall w | w in words[1..] ensures w in words { }
      SpacedNoControl(words[0], Join(words[1..]));
    }
  }

  lemma SpacedNoControl(a: string, b: string)
    ensures NoControl(a + " " + b) <==> NoControl(a) && NoControl(b)
  {
    var s := a + " " + b;
    forall c ensures c in s <==> c in a || c == ' ' || c in b {
      if c == ' ' { assert s[|a|] == ' '; }
    }
  }

  /** The words come through unchanged exactly if the text is clean. */
  lemma CleanWordsUnchanged(value: string)
    requires value == Join(Words(value))
    ensures CleanWords(Words(value)) == Words(value) <==> NoControl(value) && FlagsShown(Words(value), |Words(value)|)
  {
    var words := Words(value);
    WordsUnbroken(value);
    JoinNoControl(words);
    forall i | 0 <= i < |words| ensures CleanWord(words, i) == words[i] <==> (if Flagged(words, i) then words[i] == REDACTED else NoControl(words[i])) {
      assert words[i] in words;
      CleanWordProps(words, i);
    }
    ReplacementIsClean();
  }

  lemma ReplacementIsClean()
    ensures NoControl(REDACTED)
  {
  }

  lemma UncutIsClean(value: string)
    requires value == Join(CleanWords(Words(value)))
    ensures Clean(value)
  {
    CleanWordsUnbroken(value);
    WordsOfJoin(CleanWords(Words(value)));
    CleanWordsUnchanged(value);
  }

  lemma CutWordsAgree(value: string)
    requires value != "" && IsCut(value, Join(CleanWords(Words(value))), |value| - 1)
    ensures Words(value) != [] && value == Join(Words(value))
    ensures CutOf(Words(value)[|Words(value)| - 1], CleanWord(Words(value), |Words(value)| - 1))
    ensures forall i :: 0 <= i < |Words(value)| - 1 ==> Words(value)[i] == CleanWord(Words(value), i)
  {
    var words, clean := Words(value), CleanWords(Words(value));
    CleanWordsUnbroken(value);
    WordsOfCut(clean, value, |value| - 1);
    forall i | 0 <= i < |words| - 1 ensures words[i] == clean[i] {
      assert words[i] == words[..|words| - 1][i] && clean[i] == clean[..|words| - 1][i];
    }
  }

  lemma CutIsCleanButCut(value: string)
    requires value != "" && IsCut(value, Join(CleanWords(Words(value))), |value| - 1)
    ensures CleanButCut(value)
  {
    var words := Words(value);
    var last := |words| - 1;
    CutWordsAgree(value);
    CutHasNoControl(value);
    WordsUnbroken(value);
    assert words[last] in words;
  }

  lemma CutHasNoControl(value: string)
    requires value != "" && IsCut(value, Join(CleanWords(Words(value))), |value| - 1)
    ensures NoControl(value)
  {
    CleanWordsUnbroken(value);
    JoinNoControl(CleanWords(Words(value)));
  }

  lemma ShownWordsUnchanged(value: string, n: nat)
    requires NoControl(value) && value == Join(Words(value)) && n <= |Words(value)| && FlagsShown(Words(value), n)
    ensures forall i :: 0 <= i < n ==> CleanWord(Words(value), i) == Words(value)[i]
  {
    var words := Words(value);
    WordsUnbroken(value);
    JoinNoControl(words);
    forall i | 0 <= i < n ensures CleanWord(words, i) == words[i] {
      assert words[i] in words;
      CleanWordProps(words, i);
    }
  }

  lemma OnlyLastReplaced(value: string, words: seq<string>, clean: seq<string>)
    requires CleanButCut(value) && words == Words(value) && clean == CleanWords(words)
    ensures clean == words[..|words| - 1] + [REDACTED]
  {
    ShownWordsUnchanged(value, |words| - 1);
    LastReplaced(words);
  }

  lemma CleanButCutIsReviewable(value: string)
    requires CleanButCut(value)
    ensures value != "" && IsCut(value, Join(CleanWords(Words(value))), |value| - 1)
  {
    OnlyLastReplaced(value, Words(value), CleanWords(Words(value)));
    CutJoin(value, Words(value), CleanWords(Words(value)), REDACTED);
  }

  lemma LastReplaced(words: seq<string>)
    requires words != [] && Flagged(words, |words| - 1)
    requires forall i :: 0 <= i < |words| - 1 ==> CleanWord(words, i) == words[i]
    ensures CleanWords(words) == words[..|words| - 1] + [REDACTED]
  {
  }

  lemma CutJoin(value: string, words: seq<string>, clean: seq<string>, full: string)
    requires words != [] && clean == words[..|words| - 1] + [full]
    requires value == Join(words) && CutOf(words[|words| - 1], full)
    ensures value != "" && IsCut(value, Join(clean), |value| - 1)
  {
    var shown, cut := words[..|words| - 1], words[|words| - 1];
    assert words == shown + [cut];
    JoinLast(shown, cut);
    JoinLast(shown, full);
  }

  lemma {:induction false} JoinLast(words: seq<string>, w: string)
    ensures Join(words + [w]) == if words == [] then w else Join(words) + " " + w
  {
    if words != [] {
      assert (words + [w])[1..] == words[1..] + [w];
      JoinLast(words[1..], w);
    }
  }

  /** A text may be allowed exactly if it is clean and within the limit; or it
      has exactly `limit` characters and is clean but for a last, flagged word
      that reads like a cut replacement. Below the limit only clean text passes. */
  lemma ReviewableText(value: string, limit: nat)
    ensures Reviewable(value, limit) <==> (|value| <= limit && Clean(value)) || (|value| == limit && CleanButCut(value))
  {
    var joined := Join(CleanWords(Words(value)));
    if Reviewable(value, limit) {
      if |joined| <= limit {
        UncutIsClean(value);
      } else if value != "" {
        CutIsCleanButCut(value);
      }
    }
    if Clean(value) { CleanWordsUnchanged(value); }
    if |value| == limit && CleanButCut(value) { CleanButCutIsReviewable(value); }
  }

  // ---------------------------------------------------------------------------
  // The second case does occur, at every limit a whole credential phrase fits in.

  /** One of these letters is in every sensitive part or prefix. */
  const TELLING := "kspunx"

  lemma LacksLetter(lower: string, part: string, k: nat)
    requires k < |part| && part[k] !in lower
    ensures !Contains(lower, part) && !StartsWith(lower, part)
  {
    forall i | 0 <= i <= |lower| ensures !OccursAt(lower, part, i) {
      if i + |part| <= |lower| { assert lower[i..i + |part|][k] == lower[i + k]; }
    }
  }

  lemma NotSensitive(lower: string)
    requires forall c :: c in TELLING ==> c !in lower
    ensures !Sensitive(lower)
  {
    assert TELLING[0] == 'k' && TELLING[1] == 's' && TELLING[2] == 'p' && TELLING[3] == 'u' && TELLING[4] == 'n' && TELLING[5] == 'x';
    LacksLetter(lower, "token", 2);
    LacksLetter(lower, "secret", 0);
    LacksLetter(lower, "password", 0);
    LacksLetter(lower, "authorization", 1);
    LacksLetter(lower, "canary", 2);
    LacksLetter(lower, "sk-", 0);
    LacksLetter(lower, "ghp_", 2);
    LacksLetter(lower, "github_pat_", 7);
    LacksLetter(lower, "xoxb-", 0);
  }

  lemma CutIsPlain(cut: string)
    requires CutOf(cut, REDACTED)
    ensures !Sensitive(Lower(cut)) && Unbroken(cut) && NoControl(cut)
  {
    forall i | 0 <= i < |cut| ensures !IsWhitespace(cut[i]) && !IsControl(cut[i]) && LowerChar(cut[i]) !in TELLING {
      if cut[i] != ELLIPSIS { assert cut[i] == REDACTED[i]; }
    }
    NotSensitive(Lower(cut));
  }

  /** `n` plain letters. */
  function Filler(n: nat): string {
    seq(n, _ => 'a')
  }

  lemma FillerIsPlain(n: nat)
    ensures !Sensitive(Lower(Filler(n))) && !AnnouncesCredential(Lower(Filler(n)))
    ensures Unbroken(Filler(n)) && NoControl(Filler(n))
  {
    var lower := Lower(Filler(n));
    assert forall i :: 0 <= i < n ==> lower[i] == 'a';
    NotSensitive(lower);
    if n > 0 { assert lower[n - 1] != ':' && lower[0] != 'b'; }
  }

  lemma BearerIsPlain()
    ensures !Sensitive(Lower("bearer")) && AnnouncesCredential(Lower("bearer"))
    ensures Unbroken("bearer") && NoControl("bearer")
  {
    assert Lower("bearer") == "bearer";
    NotSensitive("bearer");
  }

  /** A credential phrase as if cut short, after `n` letters of other text. */
  function Phrase(n: nat, cut: string): seq<string> {
    if n == 0 then ["bearer", cut] else [Filler(n), "bearer", cut]
  }

  lemma PhraseWords(n: nat, cut: string)
    requires CutOf(cut, REDACTED)
    ensures Words(Join(Phrase(n, cut))) == Phrase(n, cut) && NoControl(Join(Phrase(n, cut)))
    ensures |Join(Phrase(n, cut))| == (if n == 0 then 0 else n + 1) + 7 + |cut|
  {
    FillerIsPlain(n);
    BearerIsPlain();
    CutIsPlain(cut);
    WordsOfOne(cut);
    WordsOfTwo("bearer", cut);
    assert Join(["bearer", cut]) == "bearer" + " " + cut;
    if n > 0 {
      WordsOfTwo(Filler(n), Join(["bearer", cut]));
      assert [Filler(n), "bearer", cut][1..] == ["bearer", cut];
    }
    JoinNoControl(Phrase(n, cut));
  }

  lemma PhraseIsCleanButCut(n: nat, cut: string)
    requires CutOf(cut, REDACTED)
    ensures CleanButCut(Join(Phrase(n, cut))) && !Clean(Join(Phrase(n, cut)))
  {
    var words := Phrase(n, cut);
    PhraseWords(n, cut);
    FillerIsPlain(n);
    BearerIsPlain();
    assert words[|words| - 2] == "bearer" && words[|words| - 1] == cut;
    assert Flagged(words, |words| - 1);
    forall i | 0 <= i < |words| - 1 ensures !Flagged(words, i) { }
  }

  /** Text that passes at exactly this limit although its credential word is
      not the replacement text. */
  function Slipping(limit: nat): string
    requires limit >= 8
  {
    if limit == 9 then Join(Phrase(0, "[" + [ELLIPSIS]))
    else Join(Phrase(if limit == 8 then 0 else limit - 9, [ELLIPSIS]))
  }

  lemma SlippingPasses(limit: nat)
    requires limit >= 8
    ensures Reviewable(Slipping(limit), limit) && !Clean(Slipping(limit))
  {
    var cut := if limit == 9 then "[" + [ELLIPSIS] else [ELLIPSIS];
    assert CutOf(cut, REDACTED);
    var n := if limit <= 9 then 0 else limit - 9;
    PhraseWords(n, cut);
    PhraseIsCleanButCut(n, cut);
    ReviewableText(Slipping(limit), limit);
  }

  /** A cut replacement is only flagged for the word before it, which takes six
      characters. */
  lemma CleanButCutIsLong(value: string)
    requires CleanButCut(value)
    ensures |value| >= 8
  {
    var words := Words(value);
    var last := |words| - 1;
    CutIsPlain(words[last]);
    assert AnnouncesCredential(Lower(words[last - 1]));
    var front := words[..last];
    assert words == front + [words[last]] && front == front[..last - 1] + [words[last - 1]];
    JoinLast(front, words[last]);
    JoinLast(front[..last - 1], words[last - 1]);
  }

  /** The review check lets some text through that is not clean exactly if the
      limit is at least eight, as 160 and 512 are. */
  lemma CutReplacementPasses(limit: nat)
    ensures (exists value :: Reviewable(value, limit) && !Clean(value)) <==> limit >= 8
  {
    if limit >= 8 {
      SlippingPasses(limit);
    } else {
      forall value | Reviewable(value, limit) ensures Clean(value) {
        ReviewableText(value, limit);
        if CleanButCut(value) { CleanButCutIsLong(value); }
      }
    }
  }
}
