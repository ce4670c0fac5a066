/** The default verification-key strategy of the wallet: which verification method
    identifies the key in use for a DID, dispatching on the DID method prefix. */
module VerificationKeyStrategy {
  import opened Wrappers

  const DidKeyPrefix := "did:key:"
  const DidSovPrefix := "did:sov:"
  /** The fragment a universal resolver gives the first key of a did:sov document. */
  const SovKeyFragment := "#key-1"

  predicate StartsWith(s: string, prefix: string) {
    |prefix| <= |s| && s[..|prefix|] == prefix
  }

  /** The verification method id for `did`, or None when no strategy covers it.
      `keyIdOf` stands for the key id that the did:key decoder derives from a
      did:key DID (multibase/multicodec decoding, outside this model). */
  function GetVerificationMethodIdForDid(did: string, keyIdOf: string -> string): (r: Option<string>)
    ensures StartsWith(did, DidKeyPrefix) ==> r == Some(keyIdOf(did))
    ensures StartsWith(did, DidSovPrefix) ==> r == Some(did + SovKeyFragment)
    ensures r == None <==> !StartsWith(did, DidKeyPrefix) && !StartsWith(did, DidSovPrefix)
  {
    PrefixesExclusive(did);
    if StartsWith(did, DidKeyPrefix) then Some(keyIdOf(did))
    else if StartsWith(did, DidSovPrefix) then Some(did + SovKeyFragment)
    else None
  }

  /** No DID starts with both supported prefixes: they differ at index 4. */
  lemma PrefixesExclusive(did: string)
    ensures !(StartsWith(did, DidKeyPrefix) && StartsWith(did, DidSovPrefix))
  {
  }

  lemma StartsWithConcat(prefix: string, rest: string)
    ensures StartsWith(prefix + rest, prefix)
  {
    assert (prefix + rest)[..|prefix|] == prefix;
  }

  /** The same dispatch with the two branches tested in the other order. */
  function SovFirst(did: string, keyIdOf: string -> string): Option<string> {
    if StartsWith(did, DidSovPrefix) then Some(did + SovKeyFragment)
    else if StartsWith(did, DidKeyPrefix) then Some(keyIdOf(did))
    else None
  }

  /** The order of the two prefix tests does not affect the result. */
  lemma BranchOrderIrrelevant(did: string, keyIdOf: string -> string)
    ensures GetVerificationMethodIdForDid(did, keyIdOf) == SovFirst(did, keyIdOf)
  {
    PrefixesExclusive(did);
  }

  /** For a did:sov DID the result extends the DID by exactly the six characters
      of the key fragment. */
  lemma SovKeyIdExtendsDid(did: string, keyIdOf: string -> string)
    requires StartsWith(did, DidSovPrefix)
    ensures var r := GetVerificationMethodIdForDid(did, keyIdOf);
      r.Some? && StartsWith(r.value, did) && |r.value| == |did| + 6
      && r.value[|did|..] == SovKeyFragment
  {
    var r := GetVerificationMethodIdForDid(did, keyIdOf);
    assert r.value == did + SovKeyFragment;
    assert r.value[..|did|] == did;
  }

  /** Distinct did:sov DIDs get distinct verification method ids. */
  lemma SovKeyIdInjective(d1: string, d2: string, keyIdOf: string -> string)
    requires StartsWith(d1, DidSovPrefix) && StartsWith(d2, DidSovPrefix)
    requires GetVerificationMethodIdForDid(d1, keyIdOf) == GetVerificationMethodIdForDid(d2, keyIdOf)
    ensures d1 == d2
  {
    var r1 := GetVerificationMethodIdForDid(d1, keyIdOf).value;
    var r2 := GetVerificationMethodIdForDid(d2, keyIdOf).value;
    assert |d1| == |r1| - 6 == |d2|;
    assert d1 == r1[..|d1|] == r2[..|d2|] == d2;
  }

  /** The DIDs of the unit tests. */
  const TestDidSov := DidSovPrefix + "LjgpST2rjsoxYegQDRm7EL"
  const TestDidKey := DidKeyPrefix + "z6Mkgg342Ycpuk263R9d8Aq6MUaxPn1DDeHyGo38EefXmgDL"

  /** The expected value for the did:sov DID of the unit tests. */
  lemma SovExample(keyIdOf: string -> string)
    ensures GetVerificationMethodIdForDid(TestDidSov, keyIdOf) == Some(TestDidSov + "#key-1")
  {
    StartsWithConcat(DidSovPrefix, "LjgpST2rjsoxYegQDRm7EL");
  }

  /** The expected value for the did:key DID of the unit tests. */
  lemma KeyExample(keyIdOf: string -> string)
    ensures GetVerificationMethodIdForDid(TestDidKey, keyIdOf) == Some(keyIdOf(TestDidKey))
  {
    StartsWithConcat(DidKeyPrefix, "z6Mkgg342Ycpuk263R9d8Aq6MUaxPn1DDeHyGo38EefXmgDL");
  }

  /** An unsupported DID method yields None. */
  lemma UnsupportedExample(keyIdOf: string -> string)
    ensures GetVerificationMethodIdForDid("did:test:test", keyIdOf) == None
  {
    assert "did:test:test"[4] == 't';
  }
}
