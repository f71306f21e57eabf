/**
 The media half of the dedupe key: refs sorted by type and size, each written as
 `type:size:mime`, joined by bars. The results say that the key can be decoded, and when
 it depends on the set of refs alone and not on their order.
 */
module MediaKeys {
  import opened Options

  /** One `media_refs` item; the three hashed keys may be missing. */
  datatype Ref = Ref(kind: Option<string>, size: Option<nat>, mime: Option<string>, file: string)

  /** What a ref contributes. */
  datatype Entry = Entry(kind: string, size: nat, mime: string)

  function EntryOf(ref: Ref): Entry {
    Entry(ref.kind.UnwrapOr(""), ref.size.UnwrapOr(0), ref.mime.UnwrapOr(""))
  }

  function Entries(refs: seq<Ref>): (r: seq<Entry>)
    ensures |r| == |refs| && forall i :: 0 <= i < |r| ==> r[i] == EntryOf(refs[i])
  {
    if refs == [] then [] else [EntryOf(refs[0])] + Entries(refs[1..])
  }

  // ---- The sort key and a stable sort by it ----

  predicate TextLe(a: string, b: string) {
    a == "" || (b != "" && (a[0] < b[0] || (a[0] == b[0] && TextLe(a[1..], b[1..]))))
  }

  /** `(type, size)`, compared as Python compares tuples; `mime` takes no part. */
  predicate KeyLe(a: Entry, b: Entry) {
    if a.kind == b.kind then a.size <= b.size else TextLe(a.kind, b.kind)
  }

  predicate SameKey(a: Entry, b: Entry) {
    a.kind == b.kind && a.size == b.size
  }

  function Insert(ref: Ref, ordered: seq<Ref>): seq<Ref> {
    if ordered == [] || KeyLe(EntryOf(ref), EntryOf(ordered[0])) then [ref] + ordered
    else [ordered[0]] + Insert(ref, ordered[1..])
  }

  /** `sorted(media_refs, key=...)`. */
  function Sorted(refs: seq<Ref>): seq<Ref> {
    if refs == [] then [] else Insert(refs[0], Sorted(refs[1..]))
  }

  /** The entries in the order the key lists them. */
  function Canonical(refs: seq<Ref>): seq<Entry> {
    Entries(Sorted(refs))
  }

  lemma {:induction false} TextLeTotal(a: string, b: string)
    ensures TextLe(a, b) || TextLe(b, a)
    ensures TextLe(a, b) && TextLe(b, a) ==> a == b
  {
    if a != "" && b != "" && a[0] == b[0] {
      TextLeTotal(a[1..], b[1..]);
      assert a == [a[0]] + a[1..] && b == [b[0]] + b[1..];
    }
  }

  lemma {:induction false} TextLeTransitive(a: string, b: string, d: string)
    requires TextLe(a, b) && TextLe(b, d)
    ensures TextLe(a, d)
  {
    if a != "" && a[0] == b[0] == d[0] {
      TextLeTransitive(a[1..], b[1..], d[1..]);
    }
  }

  lemma KeyLeTotal(a: Entry, b: Entry)
    ensures KeyLe(a, b) || KeyLe(b, a)
    ensures KeyLe(a, b) && KeyLe(b, a) ==> SameKey(a, b)
  {
    TextLeTotal(a.kind, b.kind);
  }

  lemma KeyLeTransitive(a: Entry, b: Entry, d: Entry)
    requires KeyLe(a, b) && KeyLe(b, d)
    ensures KeyLe(a, d)
  {
    TextLeTotal(a.kind, b.kind);
    if a.kind != b.kind && b.kind != d.kind {
      TextLeTransitive(a.kind, b.kind, d.kind);
    }
  }

  predicate Ordered(entries: seq<Entry>) {
    forall i, j :: 0 <= i < j < |entries| ==> KeyLe(entries[i], entries[j])
  }

  /** The entries with the same sort key as `e`, in order. */
  function Group(e: Entry, entries: seq<Entry>): seq<Entry> {
    if entries == [] then []
    else (if SameKey(e, entries[0]) then [entries[0]] else []) + Group(e, entries[1..])
  }

  lemma {:induction false} InsertPermutes(ref: Ref, ordered: seq<Ref>)
    ensures multiset(Insert(ref, ordered)) == multiset(ordered) + multiset{ref}
    decreases |ordered|
  {
    if ordered != [] {
      InsertPermutes(ref, ordered[1..]);
      assert ordered == [ordered[0]] + ordered[1..];
    }
    hide KeyLe;
  }

  lemma {:induction false} InsertKeepsOrder(ref: Ref, ordered: seq<Ref>)
    requires Ordered(Entries(ordered))
    ensures Ordered(Entries(Insert(ref, ordered)))
    decreases |ordered|
  {
    if ordered == [] {
    } else if KeyLe(EntryOf(ref), EntryOf(ordered[0])) {
      SmallestFirst(ref, ordered);
      OrderedCons(ref, ordered);
    } else {
      KeyLeTotal(EntryOf(ref), EntryOf(ordered[0]));
      TailOrdered(ordered);
      InsertKeepsOrder(ref, ordered[1..]);
      hide Ordered;
      InsertPermutes(ref, ordered[1..]);
      FirstStaysFirst(ref, ordered);
      OrderedCons(ordered[0], Insert(ref, ordered[1..]));
    }
  }

  lemma {:induction false} SmallestFirst(ref: Ref, ordered: seq<Ref>)
    requires ordered != [] && Ordered(Entries(ordered)) && KeyLe(EntryOf(ref), EntryOf(ordered[0]))
    ensures forall x :: x in ordered ==> KeyLe(EntryOf(ref), EntryOf(x))
  {
    hide KeyLe;
    forall x | x in ordered
      ensures KeyLe(EntryOf(ref), EntryOf(x))
    {
      var j :| 0 <= j < |ordered| && ordered[j] == x;
      if j > 0 {
        assert KeyLe(Entries(ordered)[0], Entries(ordered)[j]);
        KeyLeTransitive(EntryOf(ref), Entries(ordered)[0], Entries(ordered)[j]);
      }
    }
  }

  lemma {:induction false} FirstStaysFirst(ref: Ref, ordered: seq<Ref>)
    requires ordered != [] && Ordered(Entries(ordered)) && KeyLe(EntryOf(ordered[0]), EntryOf(ref))
    requires multiset(Insert(ref, ordered[1..])) == multiset(ordered[1..]) + multiset{ref}
    ensures forall x :: x in Insert(ref, ordered[1..]) ==> KeyLe(EntryOf(ordered[0]), EntryOf(x))
  {
    hide Insert;
    hide KeyLe;
    forall x | x in Insert(ref, ordered[1..])
      ensures KeyLe(EntryOf(ordered[0]), EntryOf(x))
    {
      assert x in multiset(Insert(ref, ordered[1..]));
      if x != ref {
        assert x in ordered[1..];
        var i :| 0 < i < |ordered| && ordered[i] == x;
        assert KeyLe(Entries(ordered)[0], Entries(ordered)[i]);
      }
    }
  }

  lemma {:induction false} TailOrdered(refs: seq<Ref>)
    requires refs != [] && Ordered(Entries(refs))
    ensures Ordered(Entries(refs[1..]))
  {
    assert Entries(refs)[1..] == Entries(refs[1..]);
  }

  lemma {:induction false} OrderedCons(ref: Ref, rest: seq<Ref>)
    requires Ordered(Entries(rest)) && forall x :: x in rest ==> KeyLe(EntryOf(ref), EntryOf(x))
    ensures Ordered(Entries([ref] + rest))
  {
    hide KeyLe;
    var all := Entries([ref] + rest);
    forall i, j | 0 <= i < j < |all|
      ensures KeyLe(all[i], all[j])
    {
      assert all[j] == Entries(rest)[j - 1] == EntryOf(rest[j - 1]);
      if i > 0 {
        assert all[i] == Entries(rest)[i - 1];
      }
    }
  }

  lemma Swap(e: Entry, a: Ref, b: Ref, rest: seq<Ref>, after: seq<Ref>)
    requires !SameKey(EntryOf(a), EntryOf(b))
    requires Group(e, Entries(after)) == Group(e, Entries([b] + rest))
    ensures Group(e, Entries([a] + after)) == Group(e, Entries([b] + ([a] + rest)))
  {
    GroupCons(e, a, after);
    GroupCons(e, b, rest);
    GroupCons(e, b, [a] + rest);
    GroupCons(e, a, rest);
    hide Group;
    hide Entries;
    hide EntryOf;
  }

  lemma {:induction false} InsertIsStable(e: Entry, ref: Ref, ordered: seq<Ref>)
    ensures Group(e, Entries(Insert(ref, ordered))) == Group(e, Entries([ref] + ordered))
    decreases |ordered|
  {
    if ordered != [] && !KeyLe(EntryOf(ref), EntryOf(ordered[0])) {
      InsertIsStable(e, ref, ordered[1..]);
      assert Insert(ref, ordered) == [ordered[0]] + Insert(ref, ordered[1..]);
      Swap(e, ordered[0], ref, ordered[1..], Insert(ref, ordered[1..]));
      assert ordered == [ordered[0]] + ordered[1..];
    }
  }

  lemma {:induction false} GroupCons(e: Entry, ref: Ref, rest: seq<Ref>)
    ensures Group(e, Entries([ref] + rest))
         == (if SameKey(e, EntryOf(ref)) then [EntryOf(ref)] else []) + Group(e, Entries(rest))
  {
    assert ([ref] + rest)[1..] == rest;
    assert Entries([ref] + rest)[1..] == Entries(rest);
  }

  /** The sort is a permutation, ordered by key, and keeps the given order among equal keys. */
  lemma {:induction false} SortedStably(refs: seq<Ref>)
    ensures Ordered(Canonical(refs)) && multiset(Sorted(refs)) == multiset(refs)
    ensures forall e :: Group(e, Canonical(refs)) == Group(e, Entries(refs))
  {
    if refs != [] {
      SortedStably(refs[1..]);
      InsertKeepsOrder(refs[0], Sorted(refs[1..]));
      InsertPermutes(refs[0], Sorted(refs[1..]));
      assert refs == [refs[0]] + refs[1..];
      forall e
        ensures Group(e, Canonical(refs)) == Group(e, Entries(refs))
      {
        InsertIsStable(e, refs[0], Sorted(refs[1..]));
        GroupCons(e, refs[0], Sorted(refs[1..]));
        GroupCons(e, refs[0], refs[1..]);
      }
    }
  }

  // ---- An ordered list is determined by its groups ----

  lemma {:induction false} GroupMember(e: Entry, entries: seq<Entry>)
    ensures Group(e, entries) != [] <==> exists i :: 0 <= i < |entries| && SameKey(e, entries[i])
  {
    if entries != [] {
      GroupMember(e, entries[1..]);
      if Group(e, entries[1..]) != [] {
        var i :| 0 <= i < |entries| - 1 && SameKey(e, entries[1..][i]);
        assert SameKey(e, entries[i + 1]);
      }
      if i :| 0 <= i < |entries| && SameKey(e, entries[i]) {
        assert i > 0 ==> SameKey(e, entries[1..][i - 1]);
      }
    }
  }

  lemma {:induction false} FirstAgrees(a: seq<Entry>, b: seq<Entry>)
    requires a != [] && Ordered(a) && Ordered(b)
    requires forall e :: Group(e, a) == Group(e, b)
    ensures b != [] && a[0] == b[0]
  {
    GroupMember(a[0], a);
    GroupMember(a[0], b);
    assert SameKey(a[0], a[0]);
    assert Group(a[0], b) != [];
    var j :| 0 <= j < |b| && SameKey(a[0], b[j]);
    GroupMember(b[0], b);
    GroupMember(b[0], a);
    assert SameKey(b[0], b[0]);
    var i :| 0 <= i < |a| && SameKey(b[0], a[i]);
    assert KeyLe(a[0], b[0]);
    assert KeyLe(b[0], a[0]);
    KeyLeTotal(a[0], b[0]);
    assert Group(a[0], a) == Group(a[0], b);
    assert Group(a[0], a)[0] == a[0] && Group(a[0], b)[0] == b[0];
  }

  lemma {:induction false} GroupsDetermine(a: seq<Entry>, b: seq<Entry>)
    requires Ordered(a) && Ordered(b)
    requires forall e :: Group(e, a) == Group(e, b)
    ensures a == b
    decreases |a|
  {
    if a == [] {
      if b != [] {
        FirstAgrees(b, a);
      }
    } else {
      FirstAgrees(a, b);
      forall e
        ensures Group(e, a[1..]) == Group(e, b[1..])
      {
        var head := if SameKey(e, a[0]) then [a[0]] else [];
        assert Group(e, a) == head + Group(e, a[1..]) && Group(e, b) == head + Group(e, b[1..]);
        assert Group(e, a[1..]) == Group(e, a)[|head|..];
        assert Group(e, b[1..]) == Group(e, b)[|head|..];
      }
      GroupsDetermine(a[1..], b[1..]);
      assert a == [a[0]] + a[1..] && b == [b[0]] + b[1..];
    }
  }

  // ---- Writing the list as a string, and reading it back ----

  function Digit(d: nat): char
    requires d < 10
  {
    ('0' as int + d) as char
  }

  function Decimal(n: nat): (s: string)
    ensures s != "" && forall ch :: ch in s ==> '0' <= ch <= '9'
  {
    (if n < 10 then "" else Decimal(n / 10)) + [Digit(n % 10)]
  }

  function Part(e: Entry): string {
    e.kind + ":" + Decimal(e.size) + ":" + e.mime
  }

  function Parts(entries: seq<Entry>): (r: seq<string>)
    ensures |r| == |entries| && forall i :: 0 <= i < |r| ==> r[i] == Part(entries[i])
  {
    if entries == [] then [] else [Part(entries[0])] + Parts(entries[1..])
  }

  /** `"|".join`. */
  function Joined(parts: seq<string>): string {
    if parts == [] then "" else if |parts| == 1 then parts[0] else parts[0] + "|" + Joined(parts[1..])
  }

  /** What `media_fingerprint` digests. */
  function Key(refs: seq<Ref>): string {
    Joined(Parts(Canonical(refs)))
  }

  /** `media_fingerprint` up to the digest. */
  method MediaKey(refs: seq<Ref>) returns (key: string)
    ensures key == Key(refs)
  {
    hide Decimal;
    hide Sorted;
    hide Joined;
    hide Parts;
    hide Entries;
    var parts: seq<string> := [];
    var ordered := Sorted(refs);
    ghost var all := Parts(Entries(ordered));
    for i := 0 to |ordered|
      invariant parts == all[..i]
    {
      var ref := ordered[i];
      var kind := ref.kind.UnwrapOr("");
      var size := ref.size.UnwrapOr(0);
      var mime := ref.mime.UnwrapOr("");
      assert all[i] == Part(Entries(ordered)[i]);
      parts := parts + [kind + ":" + Decimal(size) + ":" + mime];
    }
    assert parts == all;
    key := Joined(parts);
  }

  /** Index of the first `ch`, or the length when there is none. */
  function IndexOf(ch: char, s: string): (n: nat)
    ensures n <= |s| && ch !in s[..n] && (n < |s| ==> s[n] == ch)
  {
    if s == "" || s[0] == ch then 0 else 1 + IndexOf(ch, s[1..])
  }

  function DigitValue(ch: char): nat {
    if '0' <= ch then ch as int - '0' as int else 0
  }

  function ParseDecimal(s: string): nat {
    if s == "" then 0 else 10 * ParseDecimal(s[..|s| - 1]) + DigitValue(s[|s| - 1])
  }

  function After(s: string, n: nat): string {
    if n < |s| then s[n + 1..] else ""
  }

  function DecodePart(s: string): Entry {
    var n := IndexOf(':', s);
    var rest := After(s, n);
    var m := IndexOf(':', rest);
    Entry(s[..n], ParseDecimal(rest[..m]), After(rest, m))
  }

  function Decode(s: string): seq<Entry>
    decreases |s|
  {
    if s == "" then []
    else
      var n := IndexOf('|', s);
      [DecodePart(s[..n])] + Decode(After(s, n))
  }

  /** A type has neither separator; a mime may hold colons but no bar. */
  predicate Writable(e: Entry) {
    ':' !in e.kind && '|' !in e.kind && '|' !in e.mime
  }

  lemma {:induction false} IndexOfSeparator(ch: char, a: string, b: string)
    requires ch !in a
    ensures IndexOf(ch, a) == |a|
    ensures IndexOf(ch, a + [ch] + b) == |a| && After(a + [ch] + b, |a|) == b
    ensures (a + [ch] + b)[..|a|] == a
  {
    if a != "" {
      IndexOfSeparator(ch, a[1..], b);
      assert (a + [ch] + b)[1..] == a[1..] + [ch] + b;
    }
  }

  lemma {:induction false} DecimalRoundTrip(n: nat)
    ensures ParseDecimal(Decimal(n)) == n
  {
    var s := Decimal(n);
    assert DigitValue(Digit(n % 10)) == n % 10;
    if n >= 10 {
      DecimalRoundTrip(n / 10);
      assert s[..|s| - 1] == Decimal(n / 10);
    }
  }

  lemma PartRoundTrip(e: Entry)
    requires Writable(e)
    ensures DecodePart(Part(e)) == e && '|' !in Part(e) && Part(e) != ""
  {
    var size := Decimal(e.size);
    assert ':' !in size && '|' !in size;
    assert Part(e) == e.kind + [':'] + (size + [':'] + e.mime);
    IndexOfSeparator(':', e.kind, size + [':'] + e.mime);
    IndexOfSeparator(':', size, e.mime);
    DecimalRoundTrip(e.size);
  }

  lemma DecodeCons(first: string, rest: string)
    requires first != "" && '|' !in first
    ensures Decode(first) == [DecodePart(first)]
    ensures Decode(first + "|" + rest) == [DecodePart(first)] + Decode(rest)
  {
    IndexOfSeparator('|', first, rest);
    assert first[..|first|] == first && After(first, |first|) == "";
    hide DecodePart;
  }

  lemma JoinedCons(e: Entry, rest: seq<Entry>)
    ensures Joined(Parts([e] + rest)) == if rest == [] then Part(e) else Part(e) + "|" + Joined(Parts(rest))
  {
    assert ([e] + rest)[1..] == rest;
    assert ([Part(e)] + Parts(rest))[1..] == Parts(rest);
  }

  /** The joined string determines the list it was made from. */
  lemma {:induction false} ListRoundTrip(entries: seq<Entry>)
    requires forall i :: 0 <= i < |entries| ==> Writable(entries[i])
    ensures Decode(Joined(Parts(entries))) == entries
  {
    if entries != [] {
      hide Parts;
      hide Joined;
      hide Part;
      hide Decode;
      hide DecodePart;
      hide Writable;
      PartRoundTrip(entries[0]);
      ListRoundTrip(entries[1..]);
      JoinedCons(entries[0], entries[1..]);
      DecodeCons(Part(entries[0]), Joined(Parts(entries[1..])));
      assert entries == [entries[0]] + entries[1..];
    }
  }

  predicate AllWritable(refs: seq<Ref>) {
    forall ref :: ref in refs ==> Writable(EntryOf(ref))
  }

  /** Decoding the key gives back the entries, sorted: nothing but the order and the files is lost. */
  lemma KeyDecodes(refs: seq<Ref>)
    requires AllWritable(refs)
    ensures Decode(Key(refs)) == Canonical(refs)
  {
    SortedStably(refs);
    forall e | e in Canonical(refs)
      ensures Writable(e)
    {
      var i :| 0 <= i < |Sorted(refs)| && e == EntryOf(Sorted(refs)[i]);
      assert Sorted(refs)[i] in multiset(refs);
    }
    ListRoundTrip(Canonical(refs));
  }

  /** Two sets of refs share a key exactly when their sorted entries agree. */
  lemma KeysAgree(a: seq<Ref>, b: seq<Ref>)
    requires AllWritable(a) && AllWritable(b)
    ensures Key(a) == Key(b) <==> Canonical(a) == Canonical(b)
  {
    KeyDecodes(a);
    KeyDecodes(b);
  }

  /** Where a file was stored makes no difference. */
  lemma FilesIgnored(a: seq<Ref>, b: seq<Ref>)
    requires |a| == |b|
    requires forall i :: 0 <= i < |a| ==> a[i].kind == b[i].kind && a[i].size == b[i].size && a[i].mime == b[i].mime
    ensures Key(a) == Key(b)
  {
    assert Entries(a) == Entries(b);
    SortedStably(a);
    SortedStably(b);
    GroupsDetermine(Canonical(a), Canonical(b));
  }

  // ---- The key in terms of what a ref says ----

  /** A missing type or mime counts as empty, a missing size as 0. */
  lemma EntryReads(ref: Ref)
    ensures EntryOf(ref) == Entry(if ref.kind.Some? then ref.kind.value else "",
                                  if ref.size.Some? then ref.size.value else 0,
                                  if ref.mime.Some? then ref.mime.value else "")
  {
  }

  lemma EntriesCons(ref: Ref, rest: seq<Ref>)
    ensures Entries([ref] + rest) == [EntryOf(ref)] + Entries(rest)
    ensures multiset(Entries([ref] + rest)) == multiset(Entries(rest)) + multiset{EntryOf(ref)}
  {
    assert ([ref] + rest)[1..] == rest;
    hide EntryOf;
  }

  lemma {:induction false} InsertEntries(ref: Ref, ordered: seq<Ref>)
    ensures multiset(Entries(Insert(ref, ordered))) == multiset(Entries(ordered)) + multiset{EntryOf(ref)}
    decreases |ordered|
  {
    EntriesCons(ref, ordered);
    if ordered != [] {
      InsertEntries(ref, ordered[1..]);
      EntriesCons(ordered[0], Insert(ref, ordered[1..]));
      EntriesCons(ordered[0], ordered[1..]);
      assert ordered == [ordered[0]] + ordered[1..];
    }
    hide KeyLe;
    hide Entries;
    hide EntryOf;
  }

  lemma {:induction false} CanonicalPermutes(refs: seq<Ref>)
    ensures multiset(Canonical(refs)) == multiset(Entries(refs))
  {
    if refs != [] {
      CanonicalPermutes(refs[1..]);
      InsertEntries(refs[0], Sorted(refs[1..]));
      EntriesCons(refs[0], refs[1..]);
      assert refs == [refs[0]] + refs[1..];
      hide Entries;
      hide EntryOf;
      hide Insert;
    }
  }

  /** The key decodes to exactly one entry per ref, of that ref's type, size and mime, whatever its file. */
  lemma KeyLists(refs: seq<Ref>)
    requires AllWritable(refs)
    ensures multiset(Decode(Key(refs))) ==
            multiset(seq(|refs|, i requires 0 <= i < |refs| =>
              Entry(if refs[i].kind.Some? then refs[i].kind.value else "",
                    if refs[i].size.Some? then refs[i].size.value else 0,
                    if refs[i].mime.Some? then refs[i].mime.value else "")))
  {
    KeyDecodes(refs);
    CanonicalPermutes(refs);
    var listed := seq(|refs|, i requires 0 <= i < |refs| =>
      Entry(if refs[i].kind.Some? then refs[i].kind.value else "",
            if refs[i].size.Some? then refs[i].size.value else 0,
            if refs[i].mime.Some? then refs[i].mime.value else ""));
    forall i | 0 <= i < |refs|
      ensures listed[i] == Entries(refs)[i]
    {
      EntryReads(refs[i]);
    }
    assert listed == Entries(refs);
    hide Decode;
    hide Key;
  }

  /** Sizes are written in decimal. */
  lemma DecimalMeans(n: nat, d: nat)
    requires d < 10
    ensures Decimal(d) == ["0123456789"[d]]
    ensures n > 0 ==> Decimal(10 * n + d) == Decimal(n) + ["0123456789"[d]]
  {
    assert (10 * n + d) / 10 == n && (10 * n + d) % 10 == d;
  }

  /** Types compare by their first differing character, a prefix before what it begins. */
  predicate Before(a: string, b: string, k: nat) {
    k <= |a| && k <= |b| && a[..k] == b[..k] && (k == |a| || (k < |b| && a[k] < b[k]))
  }

  lemma {:induction false} TextLeMeans(a: string, b: string)
    ensures TextLe(a, b) <==> exists k: nat :: Before(a, b, k)
  {
    if a == "" {
      assert Before(a, b, 0);
    } else if b != "" && a[0] == b[0] {
      TextLeMeans(a[1..], b[1..]);
      if k: nat :| Before(a[1..], b[1..], k) {
        assert a[..k + 1] == [a[0]] + a[1..][..k] && b[..k + 1] == [b[0]] + b[1..][..k];
        assert Before(a, b, k + 1);
      }
      if k: nat :| Before(a, b, k) {
        assert k > 0;
        assert a[1..][..k - 1] == a[..k][1..] && b[1..][..k - 1] == b[..k][1..];
        assert Before(a[1..], b[1..], k - 1);
      }
    } else {
      assert b != "" && a[0] < b[0] ==> Before(a, b, 0);
      forall k: nat | Before(a, b, k)
        ensures b != "" && (a[0] < b[0] || a[0] == b[0])
      {
        FirstDecides(a, b, k);
      }
    }
  }

  lemma FirstDecides(a: string, b: string, k: nat)
    requires a != "" && Before(a, b, k)
    ensures b != "" && (a[0] < b[0] || a[0] == b[0])
  {
    if k > 0 {
      assert a[..k][0] == a[0] && b[..k][0] == b[0];
    }
  }

  /** In the key types ascend, and within one type sizes do. */
  lemma KeyAscends(refs: seq<Ref>, i: nat, j: nat)
    requires i < j < |Canonical(refs)|
    ensures var a, b := Canonical(refs)[i], Canonical(refs)[j];
            if a.kind == b.kind then a.size <= b.size else exists k: nat :: Before(a.kind, b.kind, k)
  {
    SortedStably(refs);
    TextLeMeans(Canonical(refs)[i].kind, Canonical(refs)[j].kind);
  }

  /** One ref, as it is written. */
  lemma KeyOfOne(kind: string, size: nat, mime: string, file: string)
    ensures Key([Ref(Some(kind), Some(size), Some(mime), file)]) == kind + ":" + Decimal(size) + ":" + mime
    ensures Key([Ref(None, None, None, file)]) == ":0:" && Key([]) == ""
  {
    OneKey(Ref(Some(kind), Some(size), Some(mime), file));
    OneKey(Ref(None, None, None, file));
    DecimalMeans(0, 0);
    assert Decimal(0) == "0";
    hide Key;
    hide Decimal;
    assert "" + ":" + "0" + ":" + "" == ":0:";
  }

  lemma OneKey(ref: Ref)
    ensures Key([ref]) == Part(EntryOf(ref)) && Key([]) == ""
  {
    assert [ref][1..] == [] && Sorted([ref][1..]) == [] && Sorted([ref]) == [ref];
    assert Entries([ref]) == [EntryOf(ref)] && Parts([EntryOf(ref)]) == [Part(EntryOf(ref))];
    hide Part;
    hide EntryOf;
  }

  /** Two refs, given in either order: the smaller type first, or of one type the smaller size, and a bar between. */
  lemma KeyOfTwo(a: Ref, b: Ref, k: nat)
    requires a.kind.Some? && b.kind.Some? && a.size.Some? && b.size.Some?
    requires if a.kind == b.kind then a.size.value < b.size.value else Before(a.kind.value, b.kind.value, k)
    ensures Key([a, b]) == Key([b, a]) == Key([a]) + "|" + Key([b])
  {
    TextLeMeans(a.kind.value, b.kind.value);
    KeyLeTotal(EntryOf(a), EntryOf(b));
    assert !KeyLe(EntryOf(b), EntryOf(a));
    SortedPair(a, b);
    TwoParts(EntryOf(a), EntryOf(b));
    OneKey(a);
    OneKey(b);
    assert [a, b][1..] == [b] && Entries([b]) == [EntryOf(b)];
    assert Entries([a, b]) == [EntryOf(a), EntryOf(b)];
    hide Part;
    hide KeyLe;
    hide Sorted;
    hide Parts;
    hide Joined;
  }

  lemma SortedPair(a: Ref, b: Ref)
    requires KeyLe(EntryOf(a), EntryOf(b)) && !KeyLe(EntryOf(b), EntryOf(a))
    ensures Sorted([a, b]) == Sorted([b, a]) == [a, b]
  {
    hide KeyLe;
    hide EntryOf;
    SortedOne(a);
    SortedOne(b);
    assert [a, b][1..] == [b] && [b, a][1..] == [a];
    assert Sorted([a, b]) == Insert(a, [b]) == [a] + [b];
    InsertPast(b, a);
    assert Sorted([b, a]) == Insert(b, [a]);
  }

  lemma SortedOne(ref: Ref)
    ensures Sorted([ref]) == [ref]
  {
    assert [ref][1..] == [];
    assert Sorted([]) == [];
    assert Sorted([ref]) == Insert(ref, []) == [ref] + [];
  }

  lemma InsertPast(ref: Ref, first: Ref)
    requires !KeyLe(EntryOf(ref), EntryOf(first))
    ensures Insert(ref, [first]) == [first, ref]
  {
    hide KeyLe;
    hide EntryOf;
    var rest := [first][1..];
    assert rest == [];
    assert Insert(ref, rest) == [ref] + [];
    assert Insert(ref, [first]) == [first] + Insert(ref, rest);
  }

  lemma TwoParts(a: Entry, b: Entry)
    ensures Joined(Parts([a, b])) == Part(a) + "|" + Part(b)
  {
    JoinedCons(a, [b]);
    JoinedCons(b, []);
    assert [a] + [b] == [a, b] && [b] + [] == [b];
    hide Parts;
    hide Joined;
    hide Part;
  }

  // ---- When the order of the refs makes no difference ----

  /** Refs the sort cannot tell apart are written alike. */
  predicate Agreeing(refs: seq<Ref>) {
    forall a, b :: a in refs && b in refs && SameKey(EntryOf(a), EntryOf(b)) ==> EntryOf(a) == EntryOf(b)
  }

  lemma GroupFront(e: Entry, first: Entry, rest: seq<Entry>)
    ensures Group(e, [first] + rest) == (if SameKey(e, first) then [first] else []) + Group(e, rest)
  {
    assert ([first] + rest)[1..] == rest;
  }

  lemma {:induction false} GroupConcat(e: Entry, a: seq<Entry>, b: seq<Entry>)
    ensures Group(e, a + b) == Group(e, a) + Group(e, b)
  {
    if a == [] {
      assert a + b == b;
      assert Group(e, a) == [];
    } else {
      GroupConcat(e, a[1..], b);
      GroupFront(e, a[0], a[1..]);
      GroupFront(e, a[0], a[1..] + b);
      assert a == [a[0]] + a[1..] && a + b == [a[0]] + (a[1..] + b);
      hide Group;
      hide SameKey;
    }
  }

  lemma EntriesConcat(a: seq<Ref>, b: seq<Ref>)
    ensures Entries(a + b) == Entries(a) + Entries(b)
  {
  }

  lemma {:induction false} GroupUniform(ref: Ref, refs: seq<Ref>, all: seq<Ref>)
    requires Agreeing(all) && ref in all && forall r :: r in refs ==> r in all
    ensures forall x :: x in Group(EntryOf(ref), Entries(refs)) ==> x == EntryOf(ref)
  {
    if refs != [] {
      GroupUniform(ref, refs[1..], all);
      assert refs == [refs[0]] + refs[1..];
      GroupCons(EntryOf(ref), refs[0], refs[1..]);
      assert refs[0] in all;
    }
  }

  lemma {:induction false} GroupSameKey(e: Entry, f: Entry, entries: seq<Entry>)
    requires SameKey(e, f)
    ensures Group(e, entries) == Group(f, entries)
  {
    if entries != [] {
      GroupSameKey(e, f, entries[1..]);
    }
  }

  /** Taking a ref from the middle to the front changes no group, if the refs agree. */
  lemma MovedToFront(e: Entry, before: seq<Ref>, ref: Ref, after: seq<Ref>)
    requires Agreeing(before + [ref] + after)
    ensures Group(e, Entries(before + [ref] + after)) == Group(e, Entries([ref] + (before + after)))
  {
    hide Entries;
    var b, x, a := Group(e, Entries(before)), Group(e, Entries([ref])), Group(e, Entries(after));
    EntriesConcat(before + [ref], after);
    EntriesConcat(before, [ref]);
    EntriesConcat(before, after);
    EntriesConcat([ref], before + after);
    GroupConcat(e, Entries(before + [ref]), Entries(after));
    GroupConcat(e, Entries(before), Entries([ref]));
    GroupConcat(e, Entries(before), Entries(after));
    GroupConcat(e, Entries([ref]), Entries(before + after));
    AloneCommutes(e, before, ref, before + [ref] + after);
    assert b + x + a == x + (b + a);
  }

  lemma SameCommutes(g: seq<Entry>, x: Entry)
    requires forall i :: 0 <= i < |g| ==> g[i] == x
    ensures g + [x] == [x] + g
  {
  }

  lemma AloneCommutes(e: Entry, before: seq<Ref>, ref: Ref, all: seq<Ref>)
    requires Agreeing(all) && ref in all && forall r :: r in before ==> r in all
    ensures Group(e, Entries(before)) + Group(e, Entries([ref])) == Group(e, Entries([ref])) + Group(e, Entries(before))
  {
    var g, x := Group(e, Entries(before)), EntryOf(ref);
    assert Entries([ref]) == [x];
    if SameKey(e, x) {
      GroupUniform(ref, before, all);
      GroupSameKey(e, x, Entries(before));
      assert Group(e, [x]) == [x];
      forall i | 0 <= i < |g|
        ensures g[i] == x
      {
        assert g[i] in g;
      }
      SameCommutes(g, x);
    } else {
      assert Group(e, [x]) == [];
    }
  }

  lemma {:induction false} PermutedGroups(refs: seq<Ref>, p: seq<Ref>)
    requires Agreeing(refs) && multiset(p) == multiset(refs)
    ensures forall e :: Group(e, Entries(p)) == Group(e, Entries(refs))
    decreases |p|
  {
    if p == [] {
      assert |multiset(refs)| == |refs|;
    } else {
      var i := Position(p[0], refs, p);
      var before, after := refs[..i], refs[i + 1..];
      assert refs == before + [p[0]] + after;
      assert p == [p[0]] + p[1..];
      TakeOut(refs, p, i);
      assert forall r :: r in before + after ==> r in refs;
      PermutedGroups(before + after, p[1..]);
      forall e
        ensures Group(e, Entries(p)) == Group(e, Entries(refs))
      {
        MovedToFront(e, before, p[0], after);
        GroupCons(e, p[0], before + after);
        GroupCons(e, p[0], p[1..]);
      }
    }
  }

  lemma TakeOut(refs: seq<Ref>, p: seq<Ref>, i: nat)
    requires p != [] && multiset(p) == multiset(refs) && i < |refs| && refs[i] == p[0]
    ensures multiset(p[1..]) == multiset(refs[..i] + refs[i + 1..])
  {
    assert refs == refs[..i] + [p[0]] + refs[i + 1..] && p == [p[0]] + p[1..];
    assert multiset(refs) == multiset(refs[..i]) + multiset{p[0]} + multiset(refs[i + 1..]);
    assert multiset(p) == multiset{p[0]} + multiset(p[1..]);
    assert multiset(p[1..]) == multiset(p) - multiset{p[0]};
  }

  lemma Position(ref: Ref, refs: seq<Ref>, p: seq<Ref>) returns (i: nat)
    requires ref in p && multiset(p) == multiset(refs)
    ensures i < |refs| && refs[i] == ref
  {
    assert ref in multiset(refs);
    i :| 0 <= i < |refs| && refs[i] == ref;
  }

  /** Every ordering of the refs has the same key. */
  ghost predicate OrderFree(refs: seq<Ref>) {
    forall p :: multiset(p) == multiset(refs) ==> Key(p) == Key(refs)
  }

  lemma AgreeingOrderFree(refs: seq<Ref>)
    requires Agreeing(refs)
    ensures OrderFree(refs)
  {
    SortedStably(refs);
    forall p | multiset(p) == multiset(refs)
      ensures Key(p) == Key(refs)
    {
      SortedStably(p);
      PermutedGroups(refs, p);
      GroupsDetermine(Canonical(p), Canonical(refs));
    }
  }

  /** The two orders of a disagreeing pair, put first, give different keys. */
  lemma SwapChangesKey(a: Ref, b: Ref, rest: seq<Ref>)
    requires SameKey(EntryOf(a), EntryOf(b)) && EntryOf(a) != EntryOf(b)
    requires AllWritable([a, b] + rest) && AllWritable([b, a] + rest)
    ensures Key([a, b] + rest) != Key([b, a] + rest)
  {
    var p, q, e := [a, b] + rest, [b, a] + rest, EntryOf(a);
    SortedStably(p);
    SortedStably(q);
    assert Group(e, Entries(p))[0] == EntryOf(a);
    assert Group(e, Entries(q))[0] == EntryOf(b);
    assert Group(e, Canonical(p)) != Group(e, Canonical(q));
    KeysAgree(p, q);
  }

  lemma PairToFront(refs: seq<Ref>, i: nat, j: nat) returns (rest: seq<Ref>)
    requires i < j < |refs|
    ensures multiset([refs[i], refs[j]] + rest) == multiset(refs)
    ensures multiset([refs[j], refs[i]] + rest) == multiset(refs)
  {
    rest := refs[..i] + refs[i + 1..j] + refs[j + 1..];
    assert refs == refs[..i] + [refs[i]] + refs[i + 1..j] + [refs[j]] + refs[j + 1..];
  }

  /** The key ignores the order of the refs exactly when refs of one type and size share a mime. */
  lemma OrderFreeExactly(refs: seq<Ref>)
    requires AllWritable(refs)
    ensures OrderFree(refs) <==> Agreeing(refs)
  {
    hide Key;
    if Agreeing(refs) {
      AgreeingOrderFree(refs);
    } else {
      hide AllWritable;
      DisagreeingPair(refs);
    }
  }

  lemma BothOrders(refs: seq<Ref>, a: Ref, b: Ref) returns (rest: seq<Ref>)
    requires a in refs && b in refs && a != b
    ensures multiset([a, b] + rest) == multiset(refs)
    ensures multiset([b, a] + rest) == multiset(refs)
  {
    var i :| 0 <= i < |refs| && refs[i] == a;
    var j :| 0 <= j < |refs| && refs[j] == b;
    if i < j {
      rest := PairToFront(refs, i, j);
    } else {
      rest := PairToFront(refs, j, i);
    }
  }

  lemma DisagreeingPair(refs: seq<Ref>)
    requires AllWritable(refs) && !Agreeing(refs)
    ensures !OrderFree(refs)
  {
    hide Key;
    hide AllWritable;
    var a, b :| a in refs && b in refs && SameKey(EntryOf(a), EntryOf(b)) && EntryOf(a) != EntryOf(b);
    var rest := BothOrders(refs, a, b);
    hide SameKey;
    hide EntryOf;
    var p, q := [a, b] + rest, [b, a] + rest;
    PermutationWritable(refs, p);
    PermutationWritable(refs, q);
    SwapChangesKey(a, b, rest);
    assert Key(p) != Key(refs) || Key(q) != Key(refs);
  }

  lemma PermutationWritable(refs: seq<Ref>, p: seq<Ref>)
    requires AllWritable(refs) && multiset(p) == multiset(refs)
    ensures AllWritable(p)
  {
    forall ref | ref in p
      ensures Writable(EntryOf(ref))
    {
      assert ref in multiset(refs);
    }
  }
}
