/**
 The text half of the dedupe key: whitespace normalised, then lower-cased. The results say
 that the key is exactly the sequence of lower-cased words.
 */
module TextKeys {
  import opened Options

  // ---- Words ----

  /** The whitespace class and lower-casing, given. */
  datatype Text = Text(space: char -> bool, lower: string -> string) {
    /** Lower-casing works word by word and neither makes nor removes whitespace or text. */
    ghost predicate Valid() {
      && space(' ')
      && (forall s :: lower(s) == "" <==> s == "")
      && (forall s :: Unbroken(space, s) ==> Unbroken(space, lower(s)))
      && (forall s, t :: Splices(s, t))
    }

    predicate Splices(s: string, t: string) {
      lower(s + " " + t) == lower(s) + " " + lower(t)
    }
  }

  /** No whitespace inside. */
  predicate Unbroken(space: char -> bool, s: string) {
    forall i :: 0 <= i < |s| ==> !space(s[i])
  }

  predicate Blank(space: char -> bool, s: string) {
    forall i :: 0 <= i < |s| ==> space(s[i])
  }

  predicate Word(space: char -> bool, s: string) {
    s != "" && Unbroken(space, s)
  }

  function WordLength(space: char -> bool, s: string): (n: nat)
    ensures n <= |s| && Unbroken(space, s[..n]) && (n < |s| ==> space(s[n]))
  {
    if s == "" || space(s[0]) then 0 else 1 + WordLength(space, s[1..])
  }

  /** `str.split()`. */
  function Words(space: char -> bool, s: string): seq<string>
    decreases |s|
  {
    if s == "" then []
    else if space(s[0]) then Words(space, s[1..])
    else var n := WordLength(space, s); [s[..n]] + Words(space, s[n..])
  }

  /** `" ".join`. */
  function Join(words: seq<string>): string {
    if words == [] then "" else if |words| == 1 then words[0] else words[0] + " " + Join(words[1..])
  }

  function Strip(space: char -> bool, s: string): string
    decreases |s|
  {
    if s == "" then s
    else if space(s[0]) then Strip(space, s[1..])
    else if space(s[|s| - 1]) then Strip(space, s[..|s| - 1])
    else s
  }

  /** What `text_fingerprint` digests. */
  function Cleaned(t: Text, text: Option<string>): string {
    t.lower(Strip(t.space, Join(Words(t.space, text.UnwrapOr("")))))
  }

  function LowerAll(t: Text, words: seq<string>): (r: seq<string>)
    ensures |r| == |words| && forall i :: 0 <= i < |r| ==> r[i] == t.lower(words[i])
  {
    if words == [] then [] else [t.lower(words[0])] + LowerAll(t, words[1..])
  }

  function LowerWords(t: Text, text: Option<string>): seq<string> {
    LowerAll(t, Words(t.space, text.UnwrapOr("")))
  }

  /** `s` is the words in order with whitespace between, and perhaps around, them. */
  ghost predicate LaidOut(space: char -> bool, s: string, words: seq<string>)
    decreases |words|
  {
    if words == [] then Blank(space, s)
    else exists i :: 0 <= i <= |s| && FirstWordAt(space, s, words, i)
  }

  ghost predicate FirstWordAt(space: char -> bool, s: string, words: seq<string>, i: nat)
    requires words != [] && i <= |s|
    decreases |words|, 0
  {
    var end := i + |words[0]|;
    && Blank(space, s[..i])
    && Word(space, words[0]) && end <= |s| && s[i..end] == words[0]
    && (end < |s| ==> space(s[end]))
    && LaidOut(space, s[end..], words[1..])
  }

  lemma {:induction false} WordsLaidOut(space: char -> bool, s: string)
    ensures LaidOut(space, s, Words(space, s))
    decreases |s|
  {
    if s == "" {
    } else if space(s[0]) {
      WordsLaidOut(space, s[1..]);
      LaidOutSkip(space, s, Words(space, s));
    } else {
      var n := WordLength(space, s);
      WordsLaidOut(space, s[n..]);
      var words := Words(space, s);
      assert words[0] == s[..n] == s[0..n] && words[1..] == Words(space, s[n..]);
      assert s[..0] == "";
      assert FirstWordAt(space, s, words, 0);
    }
  }

  lemma LaidOutSkip(space: char -> bool, s: string, words: seq<string>)
    requires s != "" && space(s[0]) && LaidOut(space, s[1..], words)
    ensures LaidOut(space, s, words)
  {
    if words != [] {
      var i :| 0 <= i <= |s| - 1 && FirstWordAt(space, s[1..], words, i);
      var end := i + |words[0]|;
      TailSlices(s, i, end);
      BlankCons(space, s[0], s[1..][..i]);
      assert FirstWordAt(space, s, words, i + 1);
    } else {
      BlankCons(space, s[0], s[1..]);
      assert s == [s[0]] + s[1..];
    }
  }

  lemma TailSlices(s: string, i: nat, end: nat)
    requires s != "" && i <= end <= |s| - 1
    ensures s[..i + 1] == [s[0]] + s[1..][..i]
    ensures s[i + 1..end + 1] == s[1..][i..end] && s[end + 1..] == s[1..][end..]
  {
    var t := s[1..];
    assert forall k :: 0 <= k < |t| ==> t[k] == s[k + 1];
    SameText(s[..i + 1], [s[0]] + t[..i]);
    SameText(s[i + 1..end + 1], t[i..end]);
    SameText(s[end + 1..], t[end..]);
  }

  lemma SameText(a: string, b: string)
    requires |a| == |b| && forall k :: 0 <= k < |a| ==> a[k] == b[k]
    ensures a == b
  {
  }

  lemma BlankCons(space: char -> bool, ch: char, s: string)
    requires space(ch) && Blank(space, s)
    ensures Blank(space, [ch] + s)
  {
  }

  lemma {:induction false} BlankHasNoWords(space: char -> bool, s: string)
    requires Blank(space, s)
    ensures Words(space, s) == []
  {
    if s != "" {
      BlankHasNoWords(space, s[1..]);
    }
  }

  lemma {:induction false} WordsPastBlank(space: char -> bool, s: string, i: nat)
    requires i <= |s| && Blank(space, s[..i])
    ensures Words(space, s) == Words(space, s[i..])
  {
    if i > 0 {
      assert s[..i][0] == s[0] && s[1..][..i - 1] == s[..i][1..] && s[1..][i - 1..] == s[i..];
      WordsPastBlank(space, s[1..], i - 1);
    }
  }

  lemma {:induction false} WordEnds(space: char -> bool, s: string, n: nat)
    requires n <= |s| && Unbroken(space, s[..n]) && (n < |s| ==> space(s[n]))
    ensures WordLength(space, s) == n
  {
    if n > 0 {
      assert s[..n][0] == s[0] && s[1..][..n - 1] == s[..n][1..];
      WordEnds(space, s[1..], n - 1);
    }
  }

  lemma {:induction false} LaidOutSplits(space: char -> bool, s: string, words: seq<string>)
    requires LaidOut(space, s, words)
    ensures Words(space, s) == words
    decreases |words|
  {
    if words == [] {
      BlankHasNoWords(space, s);
    } else {
      var i :| 0 <= i <= |s| && FirstWordAt(space, s, words, i);
      var n := |words[0]|;
      WordsPastBlank(space, s, i);
      assert s[i..][..n] == words[0] && s[i..][n..] == s[i + n..];
      WordEnds(space, s[i..], n);
      assert s[i] == words[0][0];
      LaidOutSplits(space, s[i + n..], words[1..]);
    }
  }

  /** Splitting finds the words of exactly those texts that lay them out, whatever the whitespace. */
  lemma SplitsExactly(space: char -> bool, s: string, words: seq<string>)
    ensures Words(space, s) == words <==> LaidOut(space, s, words)
  {
    WordsLaidOut(space, s);
    if LaidOut(space, s, words) {
      LaidOutSplits(space, s, words);
    }
  }

  lemma {:induction false} WordsAreWords(space: char -> bool, s: string)
    ensures forall w :: w in Words(space, s) ==> Word(space, w)
    decreases |s|
  {
    if s != "" {
      WordsAreWords(space, s[if space(s[0]) then 1 else WordLength(space, s)..]);
    }
  }

  lemma {:induction false} JoinLaysOut(space: char -> bool, words: seq<string>)
    requires space(' ') && forall w :: w in words ==> Word(space, w)
    ensures LaidOut(space, Join(words), words)
    ensures words != [] ==> Join(words) != "" && !space(Join(words)[0]) && !space(Join(words)[|Join(words)| - 1])
  {
    if words != [] {
      var s, n := Join(words), |words[0]|;
      JoinLaysOut(space, words[1..]);
      assert s[..0] == "" && s[0..n] == words[0];
      if |words| == 1 {
        assert s[n..] == "" && words[1..] == [];
      } else {
        assert s[n..] == " " + Join(words[1..]);
        assert s[n..][1..] == Join(words[1..]);
        LaidOutSkip(space, s[n..], words[1..]);
      }
      assert FirstWordAt(space, s, words, 0);
    }
  }

  /** Joined words have no outer whitespace, so the source's strip changes nothing. */
  lemma JoinSplits(space: char -> bool, words: seq<string>)
    requires space(' ') && forall w :: w in words ==> Word(space, w)
    ensures Words(space, Join(words)) == words
    ensures Strip(space, Join(words)) == Join(words)
  {
    JoinLaysOut(space, words);
    LaidOutSplits(space, Join(words), words);
  }

  lemma {:induction false} LowerJoin(t: Text, words: seq<string>)
    requires t.Valid()
    ensures t.lower(Join(words)) == Join(LowerAll(t, words))
  {
    if |words| > 1 {
      LowerJoin(t, words[1..]);
      assert t.Splices(words[0], Join(words[1..]));
    }
  }

  /** The cleaned text is the lower-cased words, one space apart, and they can be read back from it. */
  lemma CleanedIsLowerWords(t: Text, text: Option<string>)
    requires t.Valid()
    ensures Cleaned(t, text) == Join(LowerWords(t, text))
    ensures Words(t.space, Cleaned(t, text)) == LowerWords(t, text)
  {
    var words := Words(t.space, text.UnwrapOr(""));
    WordsAreWords(t.space, text.UnwrapOr(""));
    JoinSplits(t.space, words);
    LowerJoin(t, words);
    forall w | w in LowerAll(t, words)
      ensures Word(t.space, w)
    {
      var i :| 0 <= i < |words| && w == t.lower(words[i]);
      assert words[i] in words;
    }
    JoinSplits(t.space, LowerAll(t, words));
  }

  /** Two texts clean to the same string exactly when their lower-cased words agree. */
  lemma CleanedAgree(t: Text, a: Option<string>, b: Option<string>)
    requires t.Valid()
    ensures Cleaned(t, a) == Cleaned(t, b) <==> LowerWords(t, a) == LowerWords(t, b)
  {
    CleanedIsLowerWords(t, a);
    CleanedIsLowerWords(t, b);
  }

  /** Cleaning is idempotent whenever lower-casing is. */
  lemma CleanedTwice(t: Text, text: Option<string>)
    requires t.Valid() && forall s :: t.lower(t.lower(s)) == t.lower(s)
    ensures Cleaned(t, Some(Cleaned(t, text))) == Cleaned(t, text)
  {
    CleanedIsLowerWords(t, text);
    CleanedIsLowerWords(t, Some(Cleaned(t, text)));
    assert LowerAll(t, LowerWords(t, text)) == LowerWords(t, text);
  }
}
