/**
 Tag stripping and branding. Regex substitution scans left to right and removes each
 longest match; the results say which characters go, that no later pass brings back
 what an earlier one removed, and that stripping twice is stripping once.
 */
module Watermark {
  import opened Options

  /** The `\w` and whitespace classes, given; only these facts about them are used. */
  datatype Classes = Classes(word: char -> bool, space: char -> bool) {
    ghost predicate Valid() {
      && (forall ch :: !(word(ch) && space(ch)))
      && !word('#') && !word('@') && space('\n')
      && (forall i :: 0 <= i < |HTTPS| ==> !space(HTTPS[i]))
      && (forall i :: 0 <= i < |HTTP| ==> !space(HTTP[i]))
    }
  }

  const HTTP := "http://t.me/"
  const HTTPS := "https://t.me/"

  datatype Pattern = Tag(marker: char) | Link | Newlines

  const TAG_PATTERNS: seq<Pattern> := [Tag('#'), Tag('@'), Link]

  // ---- Matching ----

  /** Length of the longest prefix inside the class `p` repeats. */
  function RunLength(cls: Classes, p: Pattern, s: string): (n: nat)
    ensures n <= |s|
    ensures forall i :: 0 <= i < n ==> Continues(cls, p, s[i])
    ensures n < |s| ==> !Continues(cls, p, s[n])
  {
    if s == "" || !Continues(cls, p, s[0]) then 0 else 1 + RunLength(cls, p, s[1..])
  }

  predicate Continues(cls: Classes, p: Pattern, ch: char) {
    match p
    case Tag(_) => cls.word(ch)
    case Link => !cls.space(ch)
    case Newlines => ch == '\n'
  }

  /** Length of what must come before the repeated class, or 0 when it does not. */
  function HeadLength(p: Pattern, s: string): (n: nat)
    ensures n <= |s|
  {
    match p
    case Tag(marker) => if s != "" && s[0] == marker then 1 else 0
    case Link => if HTTPS <= s then |HTTPS| else if HTTP <= s then |HTTP| else 0
    case Newlines => if "\n\n" <= s then 2 else 0
  }

  /** Length of the match of `p` at the start of `s`, 0 when there is none. */
  function MatchLength(cls: Classes, p: Pattern, s: string): (n: nat)
    ensures n <= |s|
  {
    var h := HeadLength(p, s);
    var n := RunLength(cls, p, s[h..]);
    if h == 0 || n == 0 then 0 else h + n
  }

  function Replacement(p: Pattern): string {
    if p.Newlines? then "\n\n" else ""
  }

  /** `re.sub`. */
  function Sub(cls: Classes, p: Pattern, s: string): string
    decreases |s|
  {
    if s == "" then ""
    else
      var n := MatchLength(cls, p, s);
      if n > 0 then Replacement(p) + Sub(cls, p, s[n..]) else [s[0]] + Sub(cls, p, s[1..])
  }

  function TrimLeft(cls: Classes, s: string): string {
    if s == "" || !cls.space(s[0]) then s else TrimLeft(cls, s[1..])
  }

  function TrimRight(cls: Classes, s: string): string {
    if s == "" || !cls.space(s[|s| - 1]) then s else TrimRight(cls, s[..|s| - 1])
  }

  function Strip(cls: Classes, s: string): string {
    TrimRight(cls, TrimLeft(cls, s))
  }

  function SubAll(cls: Classes, patterns: seq<Pattern>, s: string): string {
    if patterns == [] then s
    else Sub(cls, patterns[|patterns| - 1], SubAll(cls, patterns[..|patterns| - 1], s))
  }

  function Stripped(cls: Classes, s: string): string {
    Strip(cls, Sub(cls, Newlines, SubAll(cls, TAG_PATTERNS, s)))
  }

  function Branded(cls: Classes, s: string, watermark: Option<string>): string {
    if watermark.None? || watermark.value == "" then s else TrimRight(cls, s) + "\n\n" + watermark.value
  }

  /** `apply_watermark`. */
  method ApplyWatermark(cls: Classes, text: string, watermark: Option<string>, strip: bool) returns (result: string)
    ensures result == Branded(cls, if strip then Stripped(cls, text) else text, watermark)
  {
    result := text;
    if strip {
      for i := 0 to |TAG_PATTERNS|
        invariant result == SubAll(cls, TAG_PATTERNS[..i], text)
      {
        result := Sub(cls, TAG_PATTERNS[i], result);
        assert TAG_PATTERNS[..i + 1][..i] == TAG_PATTERNS[..i];
      }
      assert TAG_PATTERNS[..|TAG_PATTERNS|] == TAG_PATTERNS;
      result := Strip(cls, Sub(cls, Newlines, result));
    }
    if watermark.Some? && watermark.value != "" {
      result := TrimRight(cls, result) + "\n\n" + watermark.value;
    }
  }

  // ---- What is looked for ----

  /** A marker and a word character after it. */
  predicate TagAt(cls: Classes, marker: char, s: string, k: nat) {
    k + 1 < |s| && s[k] == marker && cls.word(s[k + 1])
  }

  /** One of the two prefixes and a character after it that is not whitespace. */
  predicate LinkAt(cls: Classes, s: string, k: nat) {
    || (k + 12 < |s| && s[k..k + 12] == "http://t.me/" && !cls.space(s[k + 12]))
    || (k + 13 < |s| && s[k..k + 13] == "https://t.me/" && !cls.space(s[k + 13]))
  }

  predicate BreakAt(s: string, k: nat) {
    k + 3 <= |s| && s[k..k + 3] == "\n\n\n"
  }

  predicate At(cls: Classes, p: Pattern, s: string, k: nat) {
    match p
    case Tag(marker) => TagAt(cls, marker, s, k)
    case Link => LinkAt(cls, s, k)
    case Newlines => BreakAt(s, k)
  }

  /** None of it anywhere. */
  predicate Clean(cls: Classes, p: Pattern, s: string) {
    forall k :: 0 <= k < |s| ==> !At(cls, p, s, k)
  }

  lemma LinkHead(s: string, k: nat)
    requires k <= |s|
    ensures HeadLength(Link, s[k..])
         == if k + 13 <= |s| && s[k..k + 13] == "https://t.me/" then 13
            else if k + 12 <= |s| && s[k..k + 12] == "http://t.me/" then 12 else 0
  {
    assert |HTTPS| == 13 && |HTTP| == 12;
    if k + 13 <= |s| { assert s[k..][..13] == s[k..k + 13]; }
    if k + 12 <= |s| { assert s[k..][..12] == s[k..k + 12]; }
  }

  /** The two prefixes exclude each other. */
  lemma OnePrefix(s: string, k: nat)
    requires k + 13 <= |s| && s[k..k + 13] == "https://t.me/"
    ensures s[k..k + 12] != "http://t.me/"
  {
    assert s[k..k + 13][4] == s[k..k + 12][4] == 's';
  }

  /** The matcher finds exactly that. */
  lemma MatchesAt(cls: Classes, p: Pattern, s: string, k: nat)
    requires k < |s|
    ensures MatchLength(cls, p, s[k..]) > 0 <==> At(cls, p, s, k)
  {
    MatchMeans(cls, p, s[k..]);
    match p
    case Tag(_) =>
    case Link =>
      LinkHead(s, k);
      if k + 13 <= |s| && s[k..k + 13] == "https://t.me/" { OnePrefix(s, k); }
    case Newlines => BreakMeans(s, k);
  }

  lemma BreakMeans(s: string, k: nat)
    requires k < |s|
    ensures BreakAt(s, k) <==> k + 2 < |s| && s[k] == s[k + 1] == s[k + 2] == '\n'
    ensures 0 < HeadLength(Newlines, s[k..]) <==> k + 1 < |s| && s[k] == s[k + 1] == '\n'
  {
  }

  lemma CleanIsUnmatched(cls: Classes, p: Pattern, s: string)
    ensures Clean(cls, p, s) <==> Unmatched(cls, p, s)
  {
    forall k | 0 <= k < |s|
      ensures MatchLength(cls, p, s[k..]) > 0 <==> At(cls, p, s, k)
    {
      MatchesAt(cls, p, s, k);
    }
    hide At;
    hide MatchLength;
  }

  // ---- Which characters a pass removes ----

  /** Character `i` belongs to a tag or link that begins at `k`. */
  predicate CoveredFrom(cls: Classes, p: Pattern, s: string, k: nat, i: nat)
    requires i < |s|
  {
    k <= i && At(cls, p, s, k) &&
    match p
    case Tag(_) => forall x :: k < x <= i ==> cls.word(s[x])
    case Link => forall x :: k < x <= i ==> !cls.space(s[x])
    case Newlines => forall x :: k < x <= i ==> s[x] == '\n'
  }

  /** A tag is its marker and the word characters after it; a link runs to the next whitespace. */
  predicate Covered(cls: Classes, p: Pattern, s: string, i: nat)
    requires i < |s|
  {
    exists k :: 0 <= k <= i && CoveredFrom(cls, p, s, k, i)
  }

  /** The characters of `s` from `i` on that no match covers. */
  function Uncovered(cls: Classes, p: Pattern, s: string, i: nat): string
    requires i <= |s|
    decreases |s| - i
  {
    if i == |s| then ""
    else (if Covered(cls, p, s, i) then "" else [s[i]]) + Uncovered(cls, p, s, i + 1)
  }

  /** Past a match, the next character cannot prolong it. */
  predicate Boundary(cls: Classes, p: Pattern, s: string, k: nat)
    requires k <= |s|
  {
    0 < k < |s| && Covered(cls, p, s, k - 1) ==> !Continues(cls, p, s[k])
  }

  lemma HeadContinues(cls: Classes, p: Pattern, s: string, i: nat)
    requires cls.Valid() && !p.Newlines? && 0 < i < HeadLength(p, s)
    ensures Continues(cls, p, s[i])
  {
    if p.Link? {
      assert s[i] == if HTTPS <= s then HTTPS[i] else HTTP[i];
    }
  }

  /** Past its first character a match is what its pattern repeats, and it goes as far as that does. */
  lemma MatchRuns(cls: Classes, p: Pattern, s: string, k: nat)
    requires cls.Valid() && !p.Newlines? && k < |s| && MatchLength(cls, p, s[k..]) > 0
    ensures forall x :: k < x < k + MatchLength(cls, p, s[k..]) ==> Continues(cls, p, s[x])
    ensures var n := k + MatchLength(cls, p, s[k..]); n < |s| ==> !Continues(cls, p, s[n])
  {
    var t := s[k..];
    var h := HeadLength(p, t);
    forall x | k < x < k + MatchLength(cls, p, t)
      ensures Continues(cls, p, s[x])
    {
      if x - k < h {
        HeadContinues(cls, p, t, x - k);
      } else {
        assert s[x] == t[h..][x - k - h];
      }
    }
    var n := k + MatchLength(cls, p, t);
    if n < |s| {
      assert s[n] == t[h..][n - k - h];
    }
    hide HeadLength;
  }

  lemma RunCovers(cls: Classes, p: Pattern, s: string, k: nat, i: nat)
    requires k <= i < |s| && At(cls, p, s, k)
    requires forall x :: k < x <= i ==> Continues(cls, p, s[x])
    ensures Covered(cls, p, s, i)
  {
    hide At;
    assert CoveredFrom(cls, p, s, k, i);
  }

  lemma MatchCovers(cls: Classes, p: Pattern, s: string, k: nat)
    requires cls.Valid() && !p.Newlines? && k < |s| && MatchLength(cls, p, s[k..]) > 0
    ensures forall i :: k <= i < k + MatchLength(cls, p, s[k..]) ==> Covered(cls, p, s, i)
    ensures Boundary(cls, p, s, k + MatchLength(cls, p, s[k..]))
  {
    hide MatchLength;
    hide At;
    hide Covered;
    hide Continues;
    MatchRuns(cls, p, s, k);
    MatchesAt(cls, p, s, k);
    forall i | k <= i < k + MatchLength(cls, p, s[k..])
      ensures Covered(cls, p, s, i)
    {
      RunCovers(cls, p, s, k, i);
    }
  }

  lemma NoMatchUncovered(cls: Classes, p: Pattern, s: string, k: nat)
    requires k < |s| && MatchLength(cls, p, s[k..]) == 0 && Boundary(cls, p, s, k)
    ensures !Covered(cls, p, s, k)
  {
    MatchesAt(cls, p, s, k);
    if b: nat :| b <= k && CoveredFrom(cls, p, s, b, k) {
      if b < k {
        assert CoveredFrom(cls, p, s, b, k - 1);
      }
    }
  }

  lemma {:induction false} UncoveredSkips(cls: Classes, p: Pattern, s: string, k: nat, n: nat)
    requires k <= n <= |s|
    requires forall i :: k <= i < n ==> Covered(cls, p, s, i)
    ensures Uncovered(cls, p, s, k) == Uncovered(cls, p, s, n)
    decreases n - k
  {
    hide Covered;
    if k < n {
      UncoveredSkips(cls, p, s, k + 1, n);
    }
  }

  /** Substituting nothing for a tag or a link removes the covered characters and no others. */
  lemma {:induction false} SubFrom(cls: Classes, p: Pattern, s: string, k: nat)
    requires cls.Valid() && !p.Newlines? && k <= |s| && Boundary(cls, p, s, k)
    ensures Sub(cls, p, s[k..]) == Uncovered(cls, p, s, k)
    decreases |s| - k
  {
    hide Covered;
    hide MatchLength;
    if k < |s| {
      var n := MatchLength(cls, p, s[k..]);
      if n > 0 {
        MatchCovers(cls, p, s, k);
        UncoveredSkips(cls, p, s, k, k + n);
        SubFrom(cls, p, s, k + n);
        assert s[k..][n..] == s[k + n..];
      } else {
        NoMatchUncovered(cls, p, s, k);
        SubFrom(cls, p, s, k + 1);
        assert s[k..][1..] == s[k + 1..];
      }
    }
  }

  lemma SubIsUncovered(cls: Classes, p: Pattern, s: string)
    requires cls.Valid() && !p.Newlines?
    ensures Sub(cls, p, s) == Uncovered(cls, p, s, 0)
  {
    assert s[0..] == s;
    SubFrom(cls, p, s, 0);
  }

  // ---- What a pass leaves has no match ----

  /** The matcher finds `p` nowhere in `s`. */
  predicate Unmatched(cls: Classes, p: Pattern, s: string) {
    forall k :: 0 <= k < |s| ==> MatchLength(cls, p, s[k..]) == 0
  }

  lemma MatchMeans(cls: Classes, p: Pattern, s: string)
    ensures MatchLength(cls, p, s) > 0
      <==> 0 < HeadLength(p, s) < |s| && Continues(cls, p, s[HeadLength(p, s)])
  {
    var h := HeadLength(p, s);
    if h < |s| {
      assert s[h..][0] == s[h];
    }
  }

  lemma UnmatchedHere(cls: Classes, p: Pattern, s: string)
    requires Unmatched(cls, p, s) && s != ""
    ensures MatchLength(cls, p, s) == 0
  {
    assert s[0..] == s;
  }

  lemma UnmatchedTail(cls: Classes, p: Pattern, s: string, n: nat)
    requires Unmatched(cls, p, s) && n <= |s|
    ensures Unmatched(cls, p, s[n..])
  {
    forall k | 0 <= k < |s| - n
      ensures MatchLength(cls, p, s[n..][k..]) == 0
    {
      assert s[n..][k..] == s[n + k..];
    }
  }

  lemma UnmatchedCons(cls: Classes, p: Pattern, ch: char, s: string)
    requires Unmatched(cls, p, s) && MatchLength(cls, p, [ch] + s) == 0
    ensures Unmatched(cls, p, [ch] + s)
  {
    var t := [ch] + s;
    assert t[0..] == t;
    forall k | 0 < k < |t|
      ensures MatchLength(cls, p, t[k..]) == 0
    {
      assert t[k..] == s[k - 1..];
    }
  }

  lemma UnmatchedBreak(cls: Classes, p: Pattern, s: string)
    requires Unmatched(cls, p, s)
    requires MatchLength(cls, p, ['\n'] + s) == 0
    requires MatchLength(cls, p, ['\n'] + (['\n'] + s)) == 0
    ensures Unmatched(cls, p, "\n\n" + s)
  {
    UnmatchedCons(cls, p, '\n', s);
    UnmatchedCons(cls, p, '\n', ['\n'] + s);
    assert ['\n'] + (['\n'] + s) == "\n\n" + s;
  }

  lemma PrefixMatch(cls: Classes, p: Pattern, s: string, t: string)
    requires MatchLength(cls, p, s) > 0 && s <= t
    ensures MatchLength(cls, p, t) > 0
  {
    MatchMeans(cls, p, s);
    MatchMeans(cls, p, t);
    assert HeadLength(p, t) == HeadLength(p, s) by {
      if p.Link? && !(HTTPS <= s) {
        assert t[4] == s[4] == HTTP[4] != HTTPS[4];
      }
    }
  }

  lemma UnmatchedSlice(cls: Classes, p: Pattern, s: string, i: nat, j: nat)
    requires Unmatched(cls, p, s) && i <= j <= |s|
    ensures Unmatched(cls, p, s[i..j])
  {
    forall k | 0 <= k < j - i
      ensures MatchLength(cls, p, s[i..j][k..]) == 0
    {
      if MatchLength(cls, p, s[i..j][k..]) > 0 {
        assert s[i..j][k..] <= s[i + k..];
        PrefixMatch(cls, p, s[i..j][k..], s[i + k..]);
      }
    }
  }

  /** The character after a match, if any, would not prolong it. */
  lemma AfterMatch(cls: Classes, p: Pattern, s: string)
    requires MatchLength(cls, p, s) > 0
    ensures MatchLength(cls, p, s) == |s| || !Continues(cls, p, s[MatchLength(cls, p, s)])
  {
    var h, n := HeadLength(p, s), MatchLength(cls, p, s);
    if n < |s| {
      assert s[n] == s[h..][n - h];
    }
  }

  /** No pass brings a word character to the front that was not there. */
  lemma {:induction false} FrontWord(cls: Classes, q: Pattern, s: string)
    requires cls.Valid()
    ensures var r := Sub(cls, q, s); r != "" && cls.word(r[0]) ==> s != "" && cls.word(s[0])
    decreases |s|
  {
    var n := MatchLength(cls, q, s);
    if s != "" && n > 0 && !q.Newlines? {
      AfterMatch(cls, q, s);
      FrontWord(cls, q, s[n..]);
    }
  }

  lemma {:induction false} TagUnmatched(cls: Classes, marker: char, q: Pattern, s: string)
    requires cls.Valid() && marker in "#@"
    requires q == Tag(marker) || Unmatched(cls, Tag(marker), s)
    ensures Unmatched(cls, Tag(marker), Sub(cls, q, s))
    decreases |s|
  {
    if s != "" {
      hide MatchLength;
      hide Unmatched;
      var n := MatchLength(cls, q, s);
      var next := if n > 0 then n else 1;
      if q != Tag(marker) {
        UnmatchedTail(cls, Tag(marker), s, next);
      }
      TagUnmatched(cls, marker, q, s[next..]);
      var r := Sub(cls, q, s[next..]);
      if n > 0 {
        if q.Newlines? {
          BreakBefore(cls, Tag(marker), r);
        } else {
          assert "" + r == r;
        }
      } else {
        TagStartsNowhere(cls, marker, q, s);
        UnmatchedCons(cls, Tag(marker), s[0], r);
      }
    }
  }

  /** Removing tags of one kind leaves none of them, and no other pass brings one back. */
  lemma TagGone(cls: Classes, marker: char, q: Pattern, s: string)
    requires cls.Valid() && marker in "#@"
    requires q == Tag(marker) || forall k :: 0 <= k < |s| ==> !TagAt(cls, marker, s, k)
    ensures var r := Sub(cls, q, s); forall k :: 0 <= k < |r| ==> !TagAt(cls, marker, r, k)
  {
    if q != Tag(marker) {
      assert forall k :: 0 <= k < |s| ==> !At(cls, Tag(marker), s, k);
      CleanIsUnmatched(cls, Tag(marker), s);
    }
    TagUnmatched(cls, marker, q, s);
    var r := Sub(cls, q, s);
    CleanIsUnmatched(cls, Tag(marker), r);
    hide Unmatched;
    hide Sub;
    forall k | 0 <= k < |r|
      ensures !TagAt(cls, marker, r, k)
    {
      assert !At(cls, Tag(marker), r, k);
    }
  }

  lemma TagStartsNowhere(cls: Classes, marker: char, q: Pattern, s: string)
    requires cls.Valid() && s != "" && MatchLength(cls, q, s) == 0
    requires q == Tag(marker) || Unmatched(cls, Tag(marker), s)
    ensures MatchLength(cls, Tag(marker), [s[0]] + Sub(cls, q, s[1..])) == 0
  {
    var r := [s[0]] + Sub(cls, q, s[1..]);
    assert s[0..] == s;
    MatchMeans(cls, Tag(marker), s);
    MatchMeans(cls, Tag(marker), r);
    FrontWord(cls, q, s[1..]);
  }

  lemma NoRun(cls: Classes, r: string, t: string)
    requires r[..RunLength(cls, Link, r)] <= t && (t == "" || cls.space(t[0]))
    ensures RunLength(cls, Link, r) == 0
  {
  }

  /** The unbroken text a pass leaves in front stood in front before. */
  lemma {:induction false} FrontRun(cls: Classes, q: Pattern, s: string)
    requires cls.Valid() && !q.Tag?
    ensures var r := Sub(cls, q, s); r[..RunLength(cls, Link, r)] <= s
    decreases |s|
  {
    if s != "" {
      var n := MatchLength(cls, q, s);
      if n > 0 {
        AfterMatch(cls, q, s);
      }
      hide MatchLength;
      if n == 0 {
        FrontRun(cls, q, s[1..]);
        assert Sub(cls, q, s)[1..] == Sub(cls, q, s[1..]);
      } else if q.Link? {
        FrontRun(cls, q, s[n..]);
        NoRun(cls, Sub(cls, q, s[n..]), s[n..]);
        assert "" + Sub(cls, q, s[n..]) == Sub(cls, q, s[n..]);
      } else {
        assert RunLength(cls, Link, "\n\n" + Sub(cls, q, s[n..])) == 0;
      }
    }
  }

  lemma LinkStartsNowhere(cls: Classes, q: Pattern, s: string)
    requires cls.Valid() && !q.Tag? && s != "" && MatchLength(cls, q, s) == 0
    requires q == Link || Unmatched(cls, Link, s)
    ensures MatchLength(cls, Link, Sub(cls, q, s)) == 0
  {
    var r := Sub(cls, q, s);
    var run := RunLength(cls, Link, r);
    FrontRun(cls, q, s);
    if MatchLength(cls, Link, r) > 0 {
      LinkInRun(cls, r);
      PrefixMatch(cls, Link, r[..run], s);
      if q == Newlines {
        UnmatchedHere(cls, Link, s);
      }
    }
  }

  lemma LinkShorterThanRun(cls: Classes, r: string)
    requires cls.Valid() && MatchLength(cls, Link, r) > 0
    ensures HeadLength(Link, r) < RunLength(cls, Link, r)
  {
    var h, run := HeadLength(Link, r), RunLength(cls, Link, r);
    MatchMeans(cls, Link, r);
    assert r[0] == HTTP[0];
    if 0 < run < h {
      HeadContinues(cls, Link, r, run);
    }
  }

  lemma HeadOfPrefix(r: string, n: nat)
    requires HeadLength(Link, r) <= n <= |r|
    ensures HeadLength(Link, r[..n]) == HeadLength(Link, r)
  {
    if HTTPS <= r {
      assert HTTPS <= r[..n];
    } else if HTTP <= r {
      assert HTTP <= r[..n];
    }
  }

  /** A link at the front lies inside the unbroken text at the front. */
  lemma LinkInRun(cls: Classes, r: string)
    requires cls.Valid() && MatchLength(cls, Link, r) > 0
    ensures MatchLength(cls, Link, r[..RunLength(cls, Link, r)]) > 0
  {
    var h, run := HeadLength(Link, r), RunLength(cls, Link, r);
    MatchMeans(cls, Link, r);
    LinkShorterThanRun(cls, r);
    MatchMeans(cls, Link, r[..run]);
    HeadOfPrefix(r, run);
  }

  lemma BreakBefore(cls: Classes, p: Pattern, s: string)
    requires cls.Valid() && Unmatched(cls, p, s) && (p == Tag('#') || p == Tag('@') || p == Link)
    ensures Unmatched(cls, p, "\n\n" + s)
  {
    MatchMeans(cls, p, ['\n'] + s);
    MatchMeans(cls, p, ['\n'] + (['\n'] + s));
    if p.Link? {
      assert HTTP[0] == HTTPS[0] == 'h';
    }
    UnmatchedBreak(cls, p, s);
  }

  lemma {:induction false} LinkUnmatched(cls: Classes, q: Pattern, s: string)
    requires cls.Valid() && !q.Tag? && (q == Link || Unmatched(cls, Link, s))
    ensures Unmatched(cls, Link, Sub(cls, q, s))
    decreases |s|
  {
    if s != "" {
      hide MatchLength;
      hide Unmatched;
      var n := MatchLength(cls, q, s);
      var next := if n > 0 then n else 1;
      if q != Link {
        UnmatchedTail(cls, Link, s, next);
      }
      LinkUnmatched(cls, q, s[next..]);
      var r := Sub(cls, q, s[next..]);
      if n > 0 {
        if q.Newlines? {
          BreakBefore(cls, Link, r);
        } else {
          assert "" + r == r;
        }
      } else {
        LinkStartsNowhere(cls, q, s);
        UnmatchedCons(cls, Link, s[0], r);
      }
    }
  }

  /** The link pass leaves no link behind, and collapsing newlines makes none. */
  lemma LinkGone(cls: Classes, q: Pattern, s: string)
    requires cls.Valid() && !q.Tag? && (q == Link || forall k :: 0 <= k < |s| ==> !LinkAt(cls, s, k))
    ensures var r := Sub(cls, q, s); forall k :: 0 <= k < |r| ==> !LinkAt(cls, r, k)
  {
    if q != Link {
      hide LinkAt;
      assert forall k :: 0 <= k < |s| ==> !At(cls, Link, s, k);
      CleanIsUnmatched(cls, Link, s);
    }
    hide LinkAt;
    LinkUnmatched(cls, q, s);
    var r := Sub(cls, q, s);
    CleanIsUnmatched(cls, Link, r);
    hide Unmatched;
    hide Sub;
    forall k | 0 <= k < |r|
      ensures !LinkAt(cls, r, k)
    {
      assert !At(cls, Link, r, k);
    }
  }

  lemma RunCons(cls: Classes, ch: char, s: string)
    ensures RunLength(cls, Newlines, [ch] + s) == if ch == '\n' then 1 + RunLength(cls, Newlines, s) else 0
  {
    assert ([ch] + s)[1..] == s;
  }

  lemma NewlinesMatch(cls: Classes, s: string)
    ensures MatchLength(cls, Newlines, s) == if RunLength(cls, Newlines, s) < 3 then 0 else RunLength(cls, Newlines, s)
  {
    if |s| >= 2 {
      assert s == [s[0]] + ([s[1]] + s[2..]);
      RunCons(cls, s[1], s[2..]);
      RunCons(cls, s[0], [s[1]] + s[2..]);
      assert s[0] == s[1] == '\n' <==> "\n\n" <= s;
    }
  }

  lemma {:induction false} NewlinesUnmatched(cls: Classes, s: string)
    ensures var r := Sub(cls, Newlines, s);
      && Unmatched(cls, Newlines, r)
      && RunLength(cls, Newlines, r) == if RunLength(cls, Newlines, s) < 2 then RunLength(cls, Newlines, s) else 2
    decreases |s|
  {
    hide MatchLength;
    if s != "" {
      var n := MatchLength(cls, Newlines, s);
      var next := if n > 0 then n else 1;
      NewlinesUnmatched(cls, s[next..]);
      NewlinesMatch(cls, s);
      if n > 0 {
        NewlinesCut(cls, s, Sub(cls, Newlines, s[n..]));
      } else {
        NewlinesKept(cls, s, Sub(cls, Newlines, s[1..]));
      }
    }
  }

  /** `s` begins with exactly `n` newlines. */
  predicate BeginsWith(s: string, n: nat) {
    n <= |s| && (forall i :: 0 <= i < n ==> s[i] == '\n') && (n < |s| ==> s[n] != '\n')
  }

  lemma RunBegins(cls: Classes, s: string, n: nat)
    ensures BeginsWith(s, n) <==> n == RunLength(cls, Newlines, s)
  {
  }

  /** Never three newlines in a row; in front there are as many as before, up to two. */
  lemma NewlinesGone(cls: Classes, s: string, n: nat)
    requires BeginsWith(s, n)
    ensures var r := Sub(cls, Newlines, s);
      (forall k :: 0 <= k < |r| ==> !BreakAt(r, k)) && BeginsWith(r, if n < 2 then n else 2)
  {
    var r := Sub(cls, Newlines, s);
    NewlinesUnmatched(cls, s);
    RunBegins(cls, s, n);
    RunBegins(cls, r, if n < 2 then n else 2);
    CleanIsUnmatched(cls, Newlines, r);
    hide Unmatched;
    hide Sub;
    forall k | 0 <= k < |r|
      ensures !BreakAt(r, k)
    {
      assert !At(cls, Newlines, r, k);
    }
  }

  lemma NewlinesCut(cls: Classes, s: string, r: string)
    requires MatchLength(cls, Newlines, s) > 0 && Unmatched(cls, Newlines, r)
    requires RunLength(cls, Newlines, r) <= RunLength(cls, Newlines, s[MatchLength(cls, Newlines, s)..])
    ensures Unmatched(cls, Newlines, "\n\n" + r) && RunLength(cls, Newlines, "\n\n" + r) == 2
  {
    AfterMatch(cls, Newlines, s);
    RunCons(cls, '\n', r);
    RunCons(cls, '\n', ['\n'] + r);
    NewlinesMatch(cls, ['\n'] + r);
    NewlinesMatch(cls, ['\n'] + (['\n'] + r));
    UnmatchedBreak(cls, Newlines, r);
    assert ['\n'] + (['\n'] + r) == "\n\n" + r;
  }

  lemma NewlinesKept(cls: Classes, s: string, r: string)
    requires s != "" && MatchLength(cls, Newlines, s) == 0 && Unmatched(cls, Newlines, r)
    requires var run := RunLength(cls, Newlines, s[1..]); RunLength(cls, Newlines, r) == if run < 2 then run else 2
    ensures Unmatched(cls, Newlines, [s[0]] + r)
    ensures RunLength(cls, Newlines, [s[0]] + r) == RunLength(cls, Newlines, s) < 3
  {
    hide MatchLength;
    NewlinesMatch(cls, s);
    assert s == [s[0]] + s[1..];
    RunCons(cls, s[0], s[1..]);
    RunCons(cls, s[0], r);
    NewlinesMatch(cls, [s[0]] + r);
    UnmatchedCons(cls, Newlines, s[0], r);
  }

  function Lines(s: string): string {
    if s == "" then "" else (if s[0] == '\n' then "" else [s[0]]) + Lines(s[1..])
  }

  lemma {:induction false} LinesSkip(s: string, n: nat)
    requires n <= |s| && forall i :: 0 <= i < n ==> s[i] == '\n'
    ensures Lines(s) == Lines(s[n..])
  {
    if n > 0 {
      LinesSkip(s[1..], n - 1);
      assert s[1..][n - 1..] == s[n..];
    }
  }

  lemma LinesBreak(s: string)
    ensures Lines("\n\n" + s) == Lines(s)
  {
    LinesSkip("\n\n" + s, 2);
    assert ("\n\n" + s)[2..] == s;
  }

  /** Collapsing newlines leaves every other character where it was among the others. */
  lemma {:induction false} NewlinesOnly(cls: Classes, s: string)
    ensures Lines(Sub(cls, Newlines, s)) == Lines(s)
    decreases |s|
  {
    if s != "" {
      var n := MatchLength(cls, Newlines, s);
      NewlinesMatch(cls, s);
      hide MatchLength;
      if n > 0 {
        NewlinesOnly(cls, s[n..]);
        LinesSkip(s, n);
        LinesBreak(Sub(cls, Newlines, s[n..]));
      } else {
        NewlinesOnly(cls, s[1..]);
        assert Sub(cls, Newlines, s)[1..] == Sub(cls, Newlines, s[1..]);
      }
    }
  }

  // ---- The whole strip phase ----

  /** `s` is `t` with some characters taken out. */
  predicate Subsequence(s: string, t: string) {
    s == "" || (t != "" && if s[0] == t[0] then Subsequence(s[1..], t[1..]) else Subsequence(s, t[1..]))
  }

  lemma {:induction false} SubsequenceDrop(s: string, t: string)
    requires s != "" && Subsequence(s, t)
    ensures Subsequence(s[1..], t)
    decreases |t|
  {
    if s[0] == t[0] {
      if |s| > 1 {
        if s[1] == t[0] {
          SubsequenceDrop(s[1..], t[1..]);
        }
      }
    } else {
      SubsequenceDrop(s, t[1..]);
      if |s| > 1 && s[1] == t[0] {
        SubsequenceDrop(s[1..], t[1..]);
      }
    }
  }

  lemma SubsequenceSkip(s: string, t: string)
    requires t != "" && Subsequence(s, t[1..])
    ensures Subsequence(s, t)
  {
    if s != "" && s[0] == t[0] {
      SubsequenceDrop(s, t[1..]);
    }
  }

  lemma {:induction false} SubsequenceTrans(s: string, t: string, u: string)
    requires Subsequence(s, t) && Subsequence(t, u)
    ensures Subsequence(s, u)
    decreases |t| + |u|
  {
    if s != "" {
      if t[0] == u[0] {
        if s[0] == t[0] {
          SubsequenceTrans(s[1..], t[1..], u[1..]);
        } else {
          SubsequenceTrans(s, t[1..], u[1..]);
        }
      } else {
        SubsequenceTrans(s, t, u[1..]);
        SubsequenceSkip(s, u);
      }
    }
  }

  lemma {:induction false} SubsequenceSuffix(s: string, n: nat)
    requires n <= |s|
    ensures Subsequence(s[n..], s)
    decreases |s|
  {
    if s != "" {
      if n == 0 {
        SubsequenceSuffix(s[1..], 0);
        assert s[0..] == s && s[1..][0..] == s[1..];
      } else {
        SubsequenceSuffix(s[1..], n - 1);
        assert s[1..][n - 1..] == s[n..];
        SubsequenceSkip(s[n..], s);
      }
    }
  }

  lemma {:induction false} SubsequencePrefix(s: string, n: nat)
    requires n <= |s|
    ensures Subsequence(s[..n], s)
  {
    if n > 0 {
      SubsequencePrefix(s[1..], n - 1);
      assert s[..n][1..] == s[1..][..n - 1];
    }
  }

  /** Every pass only takes characters out. */
  lemma {:induction false} SubTakesOut(cls: Classes, p: Pattern, s: string)
    ensures Subsequence(Sub(cls, p, s), s)
    decreases |s|
  {
    if s != "" {
      var n := MatchLength(cls, p, s);
      if n > 0 {
        SubTakesOut(cls, p, s[n..]);
        CutTakesOut(cls, p, s, Sub(cls, p, s[n..]));
      } else {
        hide MatchLength;
        SubTakesOut(cls, p, s[1..]);
        assert Sub(cls, p, s)[1..] == Sub(cls, p, s[1..]);
      }
    }
  }

  lemma CutTakesOut(cls: Classes, p: Pattern, s: string, r: string)
    requires MatchLength(cls, p, s) > 0 && Subsequence(r, s[MatchLength(cls, p, s)..])
    ensures Subsequence(Replacement(p) + r, s)
  {
    var n := MatchLength(cls, p, s);
    if p.Newlines? {
      assert "\n\n" <= s;
      hide MatchLength;
      hide Subsequence;
      SubsequenceSuffix(s[2..], n - 2);
      assert s[2..][n - 2..] == s[n..];
      SubsequenceTrans(r, s[n..], s[2..]);
      SubsequenceBreak(r, s);
    } else {
      hide MatchLength;
      hide Subsequence;
      SubsequenceSuffix(s, n);
      SubsequenceTrans(r, s[n..], s);
      assert "" + r == r;
    }
  }

  lemma SubsequenceBreak(r: string, s: string)
    requires "\n\n" <= s && Subsequence(r, s[2..])
    ensures Subsequence("\n\n" + r, s)
  {
    assert s[1..][0] == s[1] == '\n' && s[1..][1..] == s[2..];
    assert ("\n\n" + r)[1..] == ['\n'] + r && (['\n'] + r)[1..] == r;
    assert Subsequence(['\n'] + r, s[1..]);
  }

  /** Neither end is whitespace. */
  predicate Trimmed(cls: Classes, s: string) {
    s == "" || (!cls.space(s[0]) && !cls.space(s[|s| - 1]))
  }

  lemma {:induction false} TrimLeftMeans(cls: Classes, s: string) returns (i: nat)
    ensures i <= |s| && TrimLeft(cls, s) == s[i..]
    ensures forall k :: 0 <= k < i ==> cls.space(s[k])
    ensures i < |s| ==> !cls.space(s[i])
  {
    i := 0;
    if s != "" && cls.space(s[0]) {
      var j := TrimLeftMeans(cls, s[1..]);
      i := j + 1;
      assert forall k :: 0 < k < i ==> s[k] == s[1..][k - 1];
    }
  }

  lemma {:induction false} TrimRightMeans(cls: Classes, s: string) returns (j: nat)
    ensures j <= |s| && TrimRight(cls, s) == s[..j]
    ensures forall k :: j <= k < |s| ==> cls.space(s[k])
    ensures j > 0 ==> !cls.space(s[j - 1])
  {
    j := |s|;
    if s != "" && cls.space(s[|s| - 1]) {
      j := TrimRightMeans(cls, s[..|s| - 1]);
      assert s[..|s| - 1][..j] == s[..j];
    }
  }

  /** Trimming takes off exactly the whitespace at the two ends. */
  lemma StripMeans(cls: Classes, s: string) returns (i: nat, j: nat)
    ensures i <= j <= |s| && Strip(cls, s) == s[i..j]
    ensures forall k :: 0 <= k < |s| && !(i <= k < j) ==> cls.space(s[k])
    ensures Trimmed(cls, Strip(cls, s))
  {
    i := TrimLeftMeans(cls, s);
    var n := TrimRightMeans(cls, s[i..]);
    j := i + n;
    assert forall k :: j <= k < |s| ==> s[k] == s[i..][k - i];
    assert s[i..][..n] == s[i..j];
  }

  lemma TrimmedFixed(cls: Classes, s: string)
    requires Trimmed(cls, s)
    ensures Strip(cls, s) == s
  {
  }

  /** Nothing to find, nothing changed. */
  lemma {:induction false} UnmatchedFixed(cls: Classes, p: Pattern, s: string)
    requires Unmatched(cls, p, s)
    ensures Sub(cls, p, s) == s
    decreases |s|
  {
    if s != "" {
      assert s[0..] == s;
      UnmatchedTail(cls, p, s, 1);
      UnmatchedFixed(cls, p, s[1..]);
    }
  }

  /** No tag, no link, no run of three newlines, no whitespace at either end. */
  predicate Spotless(cls: Classes, s: string) {
    (forall k :: 0 <= k < |s| ==>
      !TagAt(cls, '#', s, k) && !TagAt(cls, '@', s, k) && !LinkAt(cls, s, k) && !BreakAt(s, k)) &&
    Trimmed(cls, s)
  }

  predicate AllUnmatched(cls: Classes, s: string) {
    Unmatched(cls, Tag('#'), s) && Unmatched(cls, Tag('@'), s) && Unmatched(cls, Link, s) && Unmatched(cls, Newlines, s)
  }

  lemma SpotlessMeans(cls: Classes, s: string)
    ensures Spotless(cls, s) <==> AllUnmatched(cls, s) && Trimmed(cls, s)
  {
    CleanIsUnmatched(cls, Tag('#'), s);
    CleanIsUnmatched(cls, Tag('@'), s);
    CleanIsUnmatched(cls, Link, s);
    CleanIsUnmatched(cls, Newlines, s);
    assert forall k :: 0 <= k < |s| ==>
      (At(cls, Tag('#'), s, k) <==> TagAt(cls, '#', s, k)) && (At(cls, Tag('@'), s, k) <==> TagAt(cls, '@', s, k)) &&
      (At(cls, Link, s, k) <==> LinkAt(cls, s, k)) && (At(cls, Newlines, s, k) <==> BreakAt(s, k));
    hide Unmatched;
    hide TagAt;
    hide LinkAt;
    hide BreakAt;
    hide Trimmed;
  }

  lemma PassesInOrder(cls: Classes, text: string)
    ensures SubAll(cls, TAG_PATTERNS, text) == Sub(cls, Link, Sub(cls, Tag('@'), Sub(cls, Tag('#'), text)))
  {
    assert TAG_PATTERNS[..2] == [Tag('#'), Tag('@')] && [Tag('#'), Tag('@')][..1] == [Tag('#')];
    assert [Tag('#')][..0] == [];
    assert SubAll(cls, [Tag('#')], text) == Sub(cls, Tag('#'), SubAll(cls, [], text));
    assert SubAll(cls, [Tag('#'), Tag('@')], text) == Sub(cls, Tag('@'), SubAll(cls, [Tag('#')], text));
  }

  /** Stripping leaves no tag, link or newline run behind, whichever pass might have recreated one. */
  lemma StripLeavesNothing(cls: Classes, text: string)
    requires cls.Valid()
    ensures Spotless(cls, Stripped(cls, text))
  {
    hide Unmatched;
    hide Sub;
    hide SubAll;
    hide Strip;
    var a := Sub(cls, Tag('#'), text);
    var b := Sub(cls, Tag('@'), a);
    var d := Sub(cls, Link, b);
    var e := Sub(cls, Newlines, d);
    PassesInOrder(cls, text);
    TagUnmatched(cls, '#', Tag('#'), text);
    TagUnmatched(cls, '#', Tag('@'), a);
    TagUnmatched(cls, '#', Link, b);
    TagUnmatched(cls, '#', Newlines, d);
    TagUnmatched(cls, '@', Tag('@'), a);
    TagUnmatched(cls, '@', Link, b);
    TagUnmatched(cls, '@', Newlines, d);
    LinkUnmatched(cls, Link, b);
    LinkUnmatched(cls, Newlines, d);
    NewlinesUnmatched(cls, d);
    var i, j := StripMeans(cls, e);
    UnmatchedSlice(cls, Tag('#'), e, i, j);
    UnmatchedSlice(cls, Tag('@'), e, i, j);
    UnmatchedSlice(cls, Link, e, i, j);
    UnmatchedSlice(cls, Newlines, e, i, j);
    SpotlessMeans(cls, Stripped(cls, text));
    hide Spotless;
  }

  lemma TrimTakesOut(cls: Classes, s: string)
    ensures Subsequence(Strip(cls, s), s)
  {
    hide Subsequence;
    var i, j := StripMeans(cls, s);
    SubsequenceSuffix(s[..j], i);
    SubsequencePrefix(s, j);
    assert s[..j][i..] == s[i..j];
    SubsequenceTrans(s[i..j], s[..j], s);
  }

  /** Stripping only takes characters out. */
  lemma StripTakesOut(cls: Classes, text: string)
    ensures Subsequence(Stripped(cls, text), text)
  {
    hide Sub;
    hide SubAll;
    hide Strip;
    hide Subsequence;
    var a := Sub(cls, Tag('#'), text);
    var b := Sub(cls, Tag('@'), a);
    var d := Sub(cls, Link, b);
    var e := Sub(cls, Newlines, d);
    PassesInOrder(cls, text);
    SubTakesOut(cls, Tag('#'), text);
    SubTakesOut(cls, Tag('@'), a);
    SubTakesOut(cls, Link, b);
    SubTakesOut(cls, Newlines, d);
    TrimTakesOut(cls, e);
    SubsequenceTrans(b, a, text);
    SubsequenceTrans(d, b, text);
    SubsequenceTrans(e, d, text);
    SubsequenceTrans(Strip(cls, e), e, text);
  }

  /** The texts that stripping leaves alone are exactly those with nothing to strip. */
  lemma StripFixedPoints(cls: Classes, text: string)
    requires cls.Valid()
    ensures Stripped(cls, text) == text <==> Spotless(cls, text)
    ensures Stripped(cls, Stripped(cls, text)) == Stripped(cls, text)
  {
    StripLeavesNothing(cls, text);
    forall s | Spotless(cls, s)
      ensures Stripped(cls, s) == s
    {
      PassesInOrder(cls, s);
      SpotlessMeans(cls, s);
      UnmatchedFixed(cls, Tag('#'), s);
      UnmatchedFixed(cls, Tag('@'), s);
      UnmatchedFixed(cls, Link, s);
      UnmatchedFixed(cls, Newlines, s);
      TrimmedFixed(cls, s);
    }
  }

  /** Branding a stripped text: the text, a blank line, the watermark. */
  lemma BrandedStripped(cls: Classes, text: string, watermark: string)
    requires cls.Valid() && watermark != ""
    ensures Branded(cls, Stripped(cls, text), Some(watermark)) == Stripped(cls, text) + "\n\n" + watermark
  {
    StripLeavesNothing(cls, text);
  }

  /** With no watermark, or an empty one, the text stays as it is, whitespace at its ends included. */
  lemma UnbrandedIsText(cls: Classes, text: string)
    ensures Branded(cls, text, None) == Branded(cls, text, Some("")) == text
  {
  }

  /** Any other watermark follows a blank line after the text less exactly its trailing whitespace. */
  lemma BrandedMeans(cls: Classes, text: string, watermark: string) returns (j: nat)
    requires watermark != ""
    ensures j <= |text| && Branded(cls, text, Some(watermark)) == text[..j] + "\n\n" + watermark
    ensures (forall k :: j <= k < |text| ==> cls.space(text[k])) && (j > 0 ==> !cls.space(text[j - 1]))
  {
    j := TrimRightMeans(cls, text);
  }
}
