/** What an authority is shown of a text that may not be allowed (src/client.rs
    sanitize_approval_text): every word, or the replacement for it. Flags are
    decided before control characters are dropped, so a word broken up by one is
    shown whole. */
module ShownText {
  import opened Text
  import opened ApprovalText

  /** A word as shown when nothing flags it. */
  function Bare(words: seq<string>, i: nat): string
    requires i < |words|
  {
    WithoutControl(words[i])
  }

  /** Without its control characters the word would be flagged: by what it says,
      or by the word before it. */
  ghost predicate Masked(words: seq<string>, i: nat)
    requires i < |words|
  {
    && !Flagged(words, i) && Bare(words, i) != REDACTED
    && (Sensitive(Lower(Bare(words, i)))
        || (i > 0 && !Flagged(words, i - 1) && AnnouncesCredential(Lower(Bare(words, i - 1)))))
  }

  lemma ReplacementIsPlain()
    ensures !AnnouncesCredential(Lower(REDACTED))
  {
    var lower := Lower(REDACTED);
    assert lower[0] == '[' && lower[|lower| - 1] == ']';
  }

  /** The words shown hide all that should be hidden exactly if no word is masked
      by control characters. */
  lemma HiddenExactly(words: seq<string>)
    ensures FlagsShown(CleanWords(words), |words|) <==> forall i :: 0 <= i < |words| ==> !Masked(words, i)
  {
    ReplacementIsPlain();
    var clean := CleanWords(words);
    forall i | 0 <= i < |words| ensures Flagged(clean, i) && clean[i] != REDACTED <==> Masked(words, i) {
      if i > 0 { assert clean[i - 1] == CleanWord(words, i - 1); }
      assert clean[i] == CleanWord(words, i);
    }
  }

  lemma {:induction false} JoinedWords(words: seq<string>)
    requires forall w :: w in words ==> w != "" && Unbroken(w)
    ensures Words(Join(words)) == words
  {
    if words != [] {
      assert words[0] in words;
      if |words| == 1 {
        WordsOfOne(words[0]);
      } else {
        forall w | w in words[1..] ensures w in words { }
        JoinedWords(words[1..]);
        WordsOfTwo(words[0], Join(words[1..]));
      }
    }
  }

  lemma {:induction false} WordsOfText(value: string)
    requires NoControl(value)
    ensures forall w :: w in Words(value) ==> NoControl(w)
    decreases |value|
  {
    if value != "" {
      var rest := if IsWhitespace(value[0]) then value[1..] else value[WordLen(value)..];
      forall c | c in rest ensures c in value { }
      WordsOfText(rest);
      if !IsWhitespace(value[0]) {
        forall c | c in value[..WordLen(value)] ensures c in value { }
      }
    }
  }

  lemma NothingMasked(words: seq<string>)
    requires forall w :: w in words ==> NoControl(w)
    ensures forall i :: 0 <= i < |words| ==> Bare(words, i) == words[i] && !Masked(words, i)
  {
    forall i | 0 <= i < |words| ensures Bare(words, i) == words[i] && !Masked(words, i) {
      assert words[i] in words;
      WithoutControlProps(words[i]);
      if i > 0 {
        assert words[i - 1] in words;
        WithoutControlProps(words[i - 1]);
      }
    }
  }

  /** Text without control characters is shown clean, word for word: the
      replacement for each flagged word, each other word as it is. */
  lemma ShownIsClean(value: string)
    requires NoControl(value)
    ensures var shown := Words(Join(CleanWords(Words(value))));
            && Clean(Join(shown)) && |shown| == |Words(value)|
            && forall i :: 0 <= i < |shown| ==> shown[i] == if Flagged(Words(value), i) then REDACTED else Words(value)[i]
  {
    var words, clean := Words(value), CleanWords(Words(value));
    WordsOfText(value);
    NothingMasked(words);
    HiddenExactly(words);
    CleanWordsUnbroken(value);
    WordsUnbroken(value);
    forall w | w in clean ensures w != "" {
      var i :| 0 <= i < |clean| && clean[i] == w;
      assert words[i] in words;
    }
    JoinedWords(clean);
    JoinNoControl(clean);
  }

  const MASKED: string := "to" + ['\U{1}'] + "ken"

  lemma MaskedIsNotFlagged()
    ensures !Sensitive(Lower(MASKED))
  {
    var lower := Lower(MASKED);
    assert lower == MASKED;
    forall i | 0 <= i <= |lower| ensures !OccursAt(lower, "token", i) {
      if i <= 1 { assert lower[i..i + 5][2 * (1 - i)] == lower[2 - i]; }
    }
    LacksLetter(lower, "secret", 0);
    LacksLetter(lower, "password", 0);
    LacksLetter(lower, "authorization", 0);
    LacksLetter(lower, "canary", 0);
    LacksLetter(lower, "sk-", 0);
    LacksLetter(lower, "ghp_", 0);
    LacksLetter(lower, "github_pat_", 0);
    LacksLetter(lower, "xoxb-", 0);
  }

  /** A sensitive word broken up by a control character is not flagged, and is
      shown whole. (It may not be allowed: it is not shown as it was given.) */
  lemma MaskedWordIsShown(limit: nat)
    requires limit >= 5
    ensures Sanitized(MASKED, limit) == "token" && Sensitive(Lower("token")) && !Reviewable(MASKED, limit)
  {
    MaskedIsNotFlagged();
    MaskedWord();
    assert CleanWords([MASKED]) == [WithoutControl(MASKED)];
    BareMasked();
    assert Lower("token") == "token" && OccursAt("token", "token", 0);
    assert |MASKED| == 6;
  }

  lemma MaskedWord()
    ensures Words(MASKED) == [MASKED]
  {
    forall c | c in MASKED ensures !IsWhitespace(c) { }
    WordsOfOne(MASKED);
  }

  lemma BareMasked()
    ensures WithoutControl(MASKED) == "token"
  {
    var control, ken := ['\U{1}'] + "ken", "ken";
    assert MASKED[0] == 't' && MASKED[1..] == "o" + control && ("o" + control)[1..] == control && control[1..] == ken;
    WithoutControlProps(ken);
    assert WithoutControl(control) == ken;
    assert WithoutControl("o" + control) == "o" + ken;
    assert "t" + ("o" + ken) == "token";
  }
}
