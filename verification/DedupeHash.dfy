/**
 The dedupe key of a post: the digest of its text digest and its media digest. SHA-256 is
 given as a function to strings of one length; where a result needs it to have no
 collision, it asks that only of the strings the two posts in question give it.
 */
module DedupeHash {
  import opened Options
  import opened TextKeys
  import opened MediaKeys

  type Digest = string -> string

  const HEX_LENGTH := 64

  ghost predicate FixedLength(sha: Digest) {
    forall s :: |sha(s)| == HEX_LENGTH
  }

  function TextFingerprint(t: Text, sha: Digest, text: Option<string>): string {
    sha(Cleaned(t, text))
  }

  function MediaFingerprint(sha: Digest, refs: seq<Ref>): string {
    sha(Key(refs))
  }

  /** What the outer digest is taken of. */
  function Fingerprints(t: Text, sha: Digest, text: Option<string>, refs: Option<seq<Ref>>): string {
    TextFingerprint(t, sha, text) + ":" + MediaFingerprint(sha, refs.UnwrapOr([]))
  }

  /** `compute_dedupe_hash`. */
  function Hash(t: Text, sha: Digest, text: Option<string>, refs: Option<seq<Ref>>): string {
    sha(Fingerprints(t, sha, text, refs))
  }

  /** The post as the hash sees it. */
  datatype Content = Content(words: seq<string>, media: seq<Entry>)

  function ContentOf(t: Text, text: Option<string>, refs: Option<seq<Ref>>): Content {
    Content(LowerWords(t, text), Canonical(refs.UnwrapOr([])))
  }

  predicate Distinguishes(sha: Digest, a: string, b: string) {
    sha(a) == sha(b) ==> a == b
  }

  /** Same words in any case and spacing, same media in canonical order: same hash, always. */
  lemma SameContentSameHash(t: Text, sha: Digest, text: Option<string>, refs: Option<seq<Ref>>,
                            text': Option<string>, refs': Option<seq<Ref>>)
    requires t.Valid()
    requires ContentOf(t, text, refs) == ContentOf(t, text', refs')
    ensures Hash(t, sha, text, refs) == Hash(t, sha, text', refs')
  {
    CleanedAgree(t, text, text');
  }

  /** With no collision among the digested strings, two posts hash alike exactly when their content agrees. */
  lemma SameHashExactly(t: Text, sha: Digest, text: Option<string>, refs: Option<seq<Ref>>,
                        text': Option<string>, refs': Option<seq<Ref>>)
    requires t.Valid() && FixedLength(sha)
    requires AllWritable(refs.UnwrapOr([])) && AllWritable(refs'.UnwrapOr([]))
    requires Distinguishes(sha, Cleaned(t, text), Cleaned(t, text'))
    requires Distinguishes(sha, Key(refs.UnwrapOr([])), Key(refs'.UnwrapOr([])))
    requires Distinguishes(sha, Fingerprints(t, sha, text, refs), Fingerprints(t, sha, text', refs'))
    ensures Hash(t, sha, text, refs) == Hash(t, sha, text', refs')
       <==> ContentOf(t, text, refs) == ContentOf(t, text', refs')
  {
    CleanedAgree(t, text, text');
    KeysAgree(refs.UnwrapOr([]), refs'.UnwrapOr([]));
    if Hash(t, sha, text, refs) == Hash(t, sha, text', refs') {
      var f, f' := Fingerprints(t, sha, text, refs), Fingerprints(t, sha, text', refs');
      assert f[..HEX_LENGTH] == TextFingerprint(t, sha, text) && f'[..HEX_LENGTH] == TextFingerprint(t, sha, text');
      assert f[HEX_LENGTH + 1..] == MediaFingerprint(sha, refs.UnwrapOr([]));
      assert f'[HEX_LENGTH + 1..] == MediaFingerprint(sha, refs'.UnwrapOr([]));
    }
  }

  /** Re-downloading or listing media in another order cannot hide a duplicate, when mimes are consistent. */
  lemma ReorderedMediaSameHash(t: Text, sha: Digest, text: Option<string>, refs: seq<Ref>, refs': seq<Ref>)
    requires Agreeing(refs) && multiset(refs') == multiset(refs)
    ensures Hash(t, sha, text, Some(refs)) == Hash(t, sha, text, Some(refs'))
  {
    AgreeingOrderFree(refs);
  }

  /** Media stored again under other paths gives the same hash. */
  lemma StoredAgainSameHash(t: Text, sha: Digest, text: Option<string>, refs: seq<Ref>, refs': seq<Ref>)
    requires |refs| == |refs'|
    requires forall i :: 0 <= i < |refs| ==>
      refs[i].kind == refs'[i].kind && refs[i].size == refs'[i].size && refs[i].mime == refs'[i].mime
    ensures Hash(t, sha, text, Some(refs)) == Hash(t, sha, text, Some(refs'))
  {
    FilesIgnored(refs, refs');
  }

  /** A post without media and with no text, or one word: no text counts as empty and no media as an empty list. */
  lemma PlainHashes(t: Text, sha: Digest, word: string)
    requires t.Valid() && Word(t.space, word)
    ensures Hash(t, sha, None, None) == Hash(t, sha, Some(""), Some([])) == sha(sha("") + ":" + sha(""))
    ensures Hash(t, sha, Some(word), None) == sha(sha(t.lower(word)) + ":" + sha(""))
  {
    assert Words(t.space, "") == [] && Join([]) == "" && t.lower("") == "";
    assert Key([]) == "";
    WholeWord(t.space, word);
    assert Words(t.space, word) == [word] && Strip(t.space, word) == word;
  }

  lemma WholeWord(space: char -> bool, word: string)
    requires Word(space, word)
    ensures Words(space, word) == [word]
  {
    var n := WordLength(space, word);
    assert n == |word|;
    assert word[..n] == word && word[n..] == "" && Words(space, "") == [];
  }
}
