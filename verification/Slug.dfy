/**
 Tag slugs. The Go service builds them in a loop over runes, the Python service with a
 regular expression; both work on an already lower-cased value. The results say that the
 two agree on every value, what a slug looks like, and how far from a fixed point it is.
 */
module Slug {
  import opened Options

  const MAX_SLUG := 64

  predicate Alnum(ch: char) {
    'a' <= ch <= 'z' || '0' <= ch <= '9'
  }

  // ---- The regular-expression definition ----

  function OtherRun(s: string): (n: nat)
    ensures n <= |s| && (forall i :: 0 <= i < n ==> !Alnum(s[i])) && (n < |s| ==> Alnum(s[n]))
  {
    if s == "" || Alnum(s[0]) then 0 else 1 + OtherRun(s[1..])
  }

  /** `re.sub(r"[^a-z0-9]+", "-", s)`. */
  function Collapse(s: string): string
    decreases |s|
  {
    if s == "" then ""
    else if Alnum(s[0]) then [s[0]] + Collapse(s[1..])
    else "-" + Collapse(s[OtherRun(s)..])
  }

  function TrimLeft(s: string): string {
    if s == "" || s[0] != '-' then s else TrimLeft(s[1..])
  }

  function TrimRight(s: string): string {
    if s == "" || s[|s| - 1] != '-' then s else TrimRight(s[..|s| - 1])
  }

  /** `strip("-")` and `strings.Trim(s, "-")`. */
  function Trim(s: string): string {
    TrimRight(TrimLeft(s))
  }

  function Take(s: string, n: nat): string {
    if |s| > n then s[..n] else s
  }

  /** `_slugify`: the slug, or nothing for a value the endpoint answers with status 400. */
  function Slugified(s: string): Option<string> {
    var slug := Trim(Collapse(s));
    if slug == "" then None else Some(Take(slug, MAX_SLUG))
  }

  // ---- The loop ----

  lemma CollapseCons(ch: char, s: string)
    ensures Collapse([ch] + s)
         == if Alnum(ch) then [ch] + Collapse(s)
            else if s != "" && !Alnum(s[0]) then Collapse(s)
            else "-" + Collapse(s)
  {
    var t := [ch] + s;
    assert t[1..] == s;
    if !Alnum(ch) {
      assert t[OtherRun(t)..] == s[OtherRun(s)..];
      assert s[0..] == s;
    }
  }

  lemma {:induction false} CollapseNext(s: string, ch: char)
    ensures Collapse(s + [ch])
         == if Alnum(ch) then Collapse(s) + [ch]
            else if s != "" && !Alnum(s[|s| - 1]) then Collapse(s)
            else Collapse(s) + "-"
    decreases |s|
  {
    hide Collapse;
    if s == "" {
      CollapseCons(ch, "");
      assert [ch] + "" == s + [ch] && Collapse("") == "" by { CollapseNothing(); }
    } else {
      CollapseNext(s[1..], ch);
      CollapseCons(s[0], s[1..]);
      CollapseCons(s[0], s[1..] + [ch]);
      assert s == [s[0]] + s[1..] && s + [ch] == [s[0]] + (s[1..] + [ch]);
      if |s| == 1 {
        CollapseNothing();
      }
    }
  }

  lemma CollapseNothing()
    ensures Collapse("") == ""
  {
  }

  /** `slugify`, from the lower-cased value on: the loop computes what the regular expression defines. */
  method Slugify(lowered: string) returns (slug: Option<string>)
    ensures slug == Slugified(lowered)
  {
    var b := "";
    var prevDash := false;
    for i := 0 to |lowered|
      invariant b == Collapse(lowered[..i])
      invariant prevDash <==> i > 0 && !Alnum(lowered[i - 1])
    {
      var c := lowered[i];
      CollapseNext(lowered[..i], c);
      assert lowered[..i + 1] == lowered[..i] + [c];
      if Alnum(c) {
        b := b + [c];
        prevDash := false;
      } else if !prevDash {
        b := b + ['-'];
        prevDash := true;
      }
    }
    assert lowered[..|lowered|] == lowered;
    var s := Trim(b);
    if s == "" {
      return None;
    }
    if |s| > MAX_SLUG {
      s := s[..MAX_SLUG];
    }
    return Some(s);
  }

  // ---- What the slug says about the value ----

  function AlnumRun(s: string): (n: nat)
    ensures n <= |s| && (forall i :: 0 <= i < n ==> Alnum(s[i])) && (n < |s| ==> !Alnum(s[n]))
  {
    if s == "" || !Alnum(s[0]) then 0 else 1 + AlnumRun(s[1..])
  }

  /** The maximal runs of `a-z0-9`, in order. */
  function Words(s: string): seq<string>
    decreases |s|
  {
    if s == "" then []
    else if Alnum(s[0]) then [s[..AlnumRun(s)]] + Words(s[AlnumRun(s)..])
    else Words(s[1..])
  }

  function Dashed(words: seq<string>): string {
    if words == [] then "" else if |words| == 1 then words[0] else words[0] + "-" + Dashed(words[1..])
  }

  lemma {:induction false} WordsSkip(s: string, n: nat)
    requires n <= |s| && forall i :: 0 <= i < n ==> !Alnum(s[i])
    ensures Words(s) == Words(s[n..])
  {
    if n > 0 {
      WordsSkip(s[1..], n - 1);
      assert s[1..][n - 1..] == s[n..];
    }
  }

  lemma {:induction false} CollapseRun(s: string, n: nat)
    requires n <= |s| && forall i :: 0 <= i < n ==> Alnum(s[i])
    ensures Collapse(s) == s[..n] + Collapse(s[n..])
  {
    if n > 0 {
      CollapseRun(s[1..], n - 1);
      assert s[1..][n - 1..] == s[n..] && [s[0]] + s[1..][..n - 1] == s[..n];
    }
  }

  function Lead(s: string): string {
    if s != "" && !Alnum(s[0]) then "-" else ""
  }

  function Trail(s: string): string {
    if s != "" && !Alnum(s[|s| - 1]) then "-" else ""
  }

  /** The words one dash apart, with a dash at an end that is not a word. */
  function Spelled(s: string): string {
    if Words(s) == [] then Lead(s) else Lead(s) + Dashed(Words(s)) + Trail(s)
  }

  /** Collapsing keeps the words and nothing else. */
  lemma {:induction false} CollapseWords(s: string)
    ensures Collapse(s) == Spelled(s)
    decreases |s|
  {
    if s == "" {
    } else if Alnum(s[0]) {
      CollapseRun(s, AlnumRun(s));
      CollapseWords(s[AlnumRun(s)..]);
      SpelledWord(s);
    } else {
      CollapseWords(s[OtherRun(s)..]);
      SpelledGap(s);
    }
  }

  lemma SameEnd(s: string, n: nat)
    requires n < |s|
    ensures Trail(s[n..]) == Trail(s)
  {
    assert s[n..][|s| - n - 1] == s[|s| - 1];
  }

  lemma SpelledWord(s: string)
    requires s != "" && Alnum(s[0])
    ensures Spelled(s) == s[..AlnumRun(s)] + Spelled(s[AlnumRun(s)..])
  {
    var n := AlnumRun(s);
    var word, rest := s[..n], s[n..];
    FirstWord(s);
    hide Words;
    hide AlnumRun;
    if rest == "" {
      WholeWord(s, word);
    } else {
      hide Dashed;
      assert rest[0] == s[n];
      SameEnd(s, n);
      SpelledBreak(s, word, rest);
    }
  }

  lemma FirstWord(s: string)
    requires s != "" && Alnum(s[0])
    ensures var n := AlnumRun(s); n > 0 && Words(s) == [s[..n]] + Words(s[n..])
    ensures var n := AlnumRun(s); n < |s| ==> !Alnum(s[n])
  {
  }

  lemma WholeWord(s: string, word: string)
    requires s != "" && word == s && Alnum(s[0]) && Alnum(s[|s| - 1]) && Words(s) == [word] + Words("")
    ensures Spelled(s) == word + Spelled("")
  {
    assert Words("") == [] && Words(s) == [word];
    assert Spelled("") == "";
    hide Words;
  }

  lemma SpelledBreak(s: string, word: string, rest: string)
    requires s != "" && Alnum(s[0]) && rest != "" && !Alnum(rest[0])
    requires Words(s) == [word] + Words(rest) && Trail(rest) == Trail(s)
    ensures Spelled(s) == word + Spelled(rest)
  {
    NoWords(rest);
    hide Words;
    var words, tail := Words(s), Words(rest);
    if tail == [] {
      assert words == [word] && Trail(rest) == "-";
    } else {
      assert words[1..] == tail;
      assert Dashed(words) == word + "-" + Dashed(tail);
      Regroup(word, Dashed(tail), Trail(s));
    }
  }

  lemma Regroup(a: string, b: string, d: string)
    ensures "" + (a + "-" + b) + d == a + ("-" + b + d)
    ensures "-" + b + d == "-" + ("" + b + d)
  {
  }

  lemma SpelledGap(s: string)
    requires s != "" && !Alnum(s[0])
    ensures Spelled(s) == "-" + Spelled(s[OtherRun(s)..])
  {
    var n := OtherRun(s);
    var rest := s[n..];
    WordsSkip(s, n);
    if rest == "" {
      assert Words(rest) == [];
    } else {
      assert rest[0] == s[n] && Words(rest) != [];
      hide Words;
      SameEnd(s, n);
      Regroup("", Dashed(Words(s)), Trail(s));
    }
  }

  lemma {:induction false} NoWords(s: string)
    ensures Words(s) == [] <==> forall i :: 0 <= i < |s| ==> !Alnum(s[i])
    decreases |s|
  {
    if s != "" && !Alnum(s[0]) {
      NoWords(s[1..]);
      assert forall i :: 0 < i < |s| ==> s[i] == s[1..][i - 1];
    }
  }

  predicate IsWord(w: string) {
    w != "" && forall i :: 0 <= i < |w| ==> Alnum(w[i])
  }

  lemma {:induction false} WordsAreWords(s: string)
    ensures forall w :: w in Words(s) ==> IsWord(w)
    decreases |s|
  {
    if s != "" {
      WordsAreWords(if Alnum(s[0]) then s[AlnumRun(s)..] else s[1..]);
    }
  }

  /** No dash at either end and none doubled. */
  lemma {:induction false} DashedShape(words: seq<string>)
    requires words != [] && forall w :: w in words ==> IsWord(w)
    ensures var d := Dashed(words); Tidy(d) && Alnum(d[|d| - 1])
  {
    if |words| > 1 {
      DashedShape(words[1..]);
      assert IsWord(words[0]);
    } else {
      assert IsWord(words[0]);
    }
  }

  /** The slug is the words of the value joined by dashes, cut to 64; it is refused when there are none. */
  lemma SlugIsWords(s: string)
    ensures Slugified(s) == if Words(s) == [] then None else Some(Take(Dashed(Words(s)), MAX_SLUG))
  {
    CollapseWords(s);
    WordsAreWords(s);
    hide Words;
    if Words(s) != [] {
      var d := Dashed(Words(s));
      DashedShape(Words(s));
      TrimDashes(d, Lead(s), Trail(s));
    } else {
      assert "-"[1..] == "" && TrimLeft("-") == "" && Trim("-") == "" && Trim("") == "";
    }
  }

  lemma TrimDashes(d: string, lead: string, trail: string)
    requires d != "" && Alnum(d[0]) && Alnum(d[|d| - 1])
    requires (lead == "" || lead == "-") && (trail == "" || trail == "-")
    ensures Trim(lead + d + trail) == d
  {
    var s, t := lead + d + trail, d + trail;
    assert s[|lead|..] == t && t[0] == d[0];
    assert TrimLeft(t) == t;
    assert TrimLeft(s) == t;
    assert t[..|d|] == d && TrimRight(d) == d;
    assert TrimRight(t) == d;
  }

  /** A slug's alphabet and shape; only the cut at 64 can leave a dash at the end. */
  predicate Tidy(slug: string) {
    && slug != "" && Alnum(slug[0])
    && (forall i :: 0 <= i < |slug| ==> Alnum(slug[i]) || slug[i] == '-')
    && (forall i :: 0 < i < |slug| ==> slug[i] != '-' || slug[i - 1] != '-')
  }

  /** A value is refused exactly when it has no `a-z0-9`; every slug is tidy and at most 64 long. */
  lemma SlugShape(s: string)
    ensures Slugified(s).None? <==> forall i :: 0 <= i < |s| ==> !Alnum(s[i])
    ensures var r := Slugified(s); r.Some? ==>
      && Tidy(r.value) && |r.value| <= MAX_SLUG
      && (r.value[|r.value| - 1] == '-' ==> |r.value| == MAX_SLUG)
  {
    SlugIsWords(s);
    NoWords(s);
    if Words(s) != [] {
      WordsAreWords(s);
      DashedShape(Words(s));
    }
  }

  lemma {:induction false} CollapseTidy(s: string)
    requires forall i :: 0 <= i < |s| ==> Alnum(s[i]) || s[i] == '-'
    requires forall i :: 0 < i < |s| ==> s[i] != '-' || s[i - 1] != '-'
    ensures Collapse(s) == s
    decreases |s|
  {
    if s == "" {
      CollapseNothing();
    } else {
      hide Collapse;
      var t := s[1..];
      assert forall i :: 0 <= i < |t| ==> t[i] == s[i + 1];
      CollapseTidy(t);
      CollapseCons(s[0], t);
      assert s == [s[0]] + t;
    }
  }

  /** Slugging a slug drops the dash the cut may have left, and nothing else. */
  lemma SlugAgain(s: string)
    requires Slugified(s).Some?
    ensures var r := Slugified(s).value;
      Slugified(r) == Some(if r[|r| - 1] == '-' then r[..|r| - 1] else r)
  {
    SlugShape(s);
    var r := Slugified(s).value;
    CollapseTidy(r);
    if r[|r| - 1] == '-' {
      var cut := r[..|r| - 1];
      assert |r| == MAX_SLUG && cut[|cut| - 1] != '-';
      TrimDashes(cut, "", "-");
      assert "" + cut + "-" == r;
    } else {
      TrimDashes(r, "", "");
      assert "" + r + "" == r;
    }
  }

  /** So the slug of a slug's slug is that slug. */
  lemma SlugSettles(s: string)
    requires Slugified(s).Some?
    ensures var r := Slugified(s).value;
      Slugified(r).Some? && Slugified(Slugified(r).value) == Slugified(r)
  {
    SlugShape(s);
    SlugAgain(s);
    var r := Slugified(s).value;
    SlugAgain(r);
  }

  // ---- In plain characters ----

  predicate Plain(s: string) {
    forall i :: 0 <= i < |s| ==> 'a' <= s[i] <= 'z' || '0' <= s[i] <= '9'
  }

  /** A run of `a-z0-9` is its own slug, cut after 64 characters. */
  lemma PlainIsOwnSlug(s: string)
    requires s != "" && Plain(s)
    ensures Slugified(s) == Some(if |s| <= 64 then s else s[..64])
  {
    PlainRun(s);
    assert Words(s) == [s[..|s|]] + Words(s[|s|..]);
    assert s[..|s|] == s && s[|s|..] == "" && Words("") == [];
    SlugIsWords(s);
  }

  lemma {:induction false} PlainRun(s: string)
    requires Plain(s)
    ensures AlnumRun(s) == |s|
  {
    if s != "" {
      assert forall i :: 0 <= i < |s[1..]| ==> s[1..][i] == s[i + 1];
      PlainRun(s[1..]);
    }
  }

  /** One or more other characters between two runs become one dash. */
  lemma OneDash(a: string, gap: string, b: string)
    requires a != "" && b != "" && gap != "" && Plain(a) && Plain(b) && |a| + |b| < 64
    requires forall i :: 0 <= i < |gap| ==> !('a' <= gap[i] <= 'z' || '0' <= gap[i] <= '9')
    ensures Slugified(a + gap + b) == Some(a + "-" + b)
  {
    var s := a + gap + b;
    RunOf(a, gap + b);
    assert s == a + (gap + b);
    assert s[..|a|] == a && s[|a|..] == gap + b;
    assert Words(s) == [a] + Words(gap + b);
    WordsSkip(gap + b, |gap|);
    assert (gap + b)[|gap|..] == b;
    PlainRun(b);
    assert b[..|b|] == b && b[|b|..] == "" && Words("") == [];
    assert Words(b) == [b];
    SlugIsWords(s);
    assert [a, b][1..] == [b];
    hide Words;
  }

  lemma {:induction false} RunOf(a: string, rest: string)
    requires Plain(a) && rest != "" && !Alnum(rest[0])
    ensures AlnumRun(a + rest) == |a|
  {
    if a == "" {
      assert a + rest == rest;
    } else {
      assert (a + rest)[1..] == a[1..] + rest && (a + rest)[0] == a[0];
      assert forall i :: 0 <= i < |a[1..]| ==> a[1..][i] == a[i + 1];
      RunOf(a[1..], rest);
    }
  }

  /** A value is refused exactly when it has no `a-z0-9`, and a slug holds nothing else but dashes. */
  lemma SlugAlphabet(s: string)
    ensures Slugified(s).None? <==> forall i :: 0 <= i < |s| ==> !('a' <= s[i] <= 'z' || '0' <= s[i] <= '9')
    ensures var r := Slugified(s); r.Some? ==>
      && 1 <= |r.value| <= 64
      && forall i :: 0 <= i < |r.value| ==>
           'a' <= r.value[i] <= 'z' || '0' <= r.value[i] <= '9' || r.value[i] == '-'
  {
    SlugShape(s);
  }
}
