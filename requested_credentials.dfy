/** The holder's requested credentials, which the manager edits in place: stale
    timestamps are removed before the ledger is consulted and resolved timestamps
    are written back before the presentation is built. */
module RequestedCredentialsStore {
  import opened Wrappers
  import opened Seqs
  import opened ProofTypes

  /** Every item of `s` names a credential that was fetched. */
  ghost predicate AllFetched(s: Section, records: map<CredId, CredentialRecord>) {
    forall r :: r in s.items ==> s.items[r].credId in records
  }

  /** An item after the clean-up: it loses its timestamp exactly when its
      credential is non-revocable. */
  function CleanItem(it: Item, records: map<CredId, CredentialRecord>): (c: Item)
    requires it.credId in records
    ensures c.credId == it.credId
    ensures records[it.credId].revRegId.None? ==> c.timestamp.None?
    ensures records[it.credId].revRegId.Some? ==> c == it
  {
    if records[it.credId].revRegId.None? then it.(timestamp := None) else it
  }

  /** `t` is `s` with the items at the first `k` positions of its key order cleaned
      and the others untouched. */
  ghost predicate CleanedUpTo(s: Section, t: Section, records: map<CredId, CredentialRecord>, k: int)
    requires s.Valid()
  {
    && 0 <= k <= |s.order|
    && t.order == s.order
    && (forall r :: r in t.items <==> r in s.items)
    && (forall i :: 0 <= i < k ==>
          s.items[s.order[i]].credId in records &&
          t.items[s.order[i]] == CleanItem(s.items[s.order[i]], records))
    && (forall i :: k <= i < |s.order| ==> t.items[s.order[i]] == s.items[s.order[i]])
  }

  /** The clean-up stopped at position `k`, whose credential was never fetched. */
  ghost predicate CleanFailedAt(s: Section, t: Section, records: map<CredId, CredentialRecord>, k: int)
    requires s.Valid()
  {
    CleanedUpTo(s, t, records, k) && k < |s.order| && s.items[s.order[k]].credId !in records
  }

  /** The outcome of cleaning section `s` into `t`, failing with `err` or not. */
  ghost predicate SectionCleaned(s: Section, t: Section, records: map<CredId, CredentialRecord>,
                                 err: Option<Error>)
    requires s.Valid()
  {
    && t.Valid() && t.order == s.order
    && (forall r :: r in t.items <==> r in s.items)
    && (err.None? <==> AllFetched(s, records))
    && (err.None? ==> forall r :: r in s.items ==> t.items[r] == CleanItem(s.items[r], records))
    && (err.Some? ==> exists k :: CleanFailedAt(s, t, records, k) &&
                                  err.value == UnknownCredential(s.items[s.order[k]].credId))
  }

  /** The clean-up passes both sections: each present one names only fetched
      credentials. */
  ghost predicate CleanupSucceeds(a: Option<Section>, p: Option<Section>, records: map<CredId, CredentialRecord>) {
    (a.Some? ==> AllFetched(a.value, records)) && (p.Some? ==> AllFetched(p.value, records))
  }

  /** `e` names the first credential, in the key order of `s`, that was not fetched. */
  ghost predicate FirstUnfetchedIs(s: Section, records: map<CredId, CredentialRecord>, e: Error)
    requires s.Valid()
  {
    exists k :: && 0 <= k < |s.order|
                && s.items[s.order[k]].credId !in records
                && (forall i :: 0 <= i < k ==> s.items[s.order[i]].credId in records)
                && e == UnknownCredential(s.items[s.order[k]].credId)
  }

  /** The clean-up fails with `e`: in the attributes when they name an unfetched
      credential, otherwise in the predicates. */
  ghost predicate CleanupFails(a: Option<Section>, p: Option<Section>, records: map<CredId, CredentialRecord>, e: Error) {
    if a.Some? && !AllFetched(a.value, records) then a.value.Valid() && FirstUnfetchedIs(a.value, records, e)
    else p.Some? && !AllFetched(p.value, records) && p.value.Valid() && FirstUnfetchedIs(p.value, records, e)
  }

  /** A failed section clean-up stopped at the first unfetched credential. */
  lemma CleanFailureNamesFirst(s: Section, t: Section, records: map<CredId, CredentialRecord>, err: Option<Error>)
    requires s.Valid() && SectionCleaned(s, t, records, err) && err.Some?
    ensures !AllFetched(s, records) && FirstUnfetchedIs(s, records, err.value)
  {
    var k :| CleanFailedAt(s, t, records, k) && err.value == UnknownCredential(s.items[s.order[k]].credId);
    assert forall i :: 0 <= i < k ==> s.items[s.order[i]].credId in records;
  }

  /** One section of the clean-up pass, in key order. Looking up a credential that
      was not fetched raises; items cleaned before that keep their new form. */
  method CleanSection(s: Section, records: map<CredId, CredentialRecord>)
    returns (t: Section, err: Option<Error>)
    requires s.Valid()
    ensures SectionCleaned(s, t, records, err)
  {
    t := s;
    for i := 0 to |s.order|
      invariant CleanedUpTo(s, t, records, i)
    {
      var reft := s.order[i];
      var item := t.items[reft];
      if item.credId !in records {
        err := Some(UnknownCredential(item.credId));
        assert CleanFailedAt(s, t, records, i);
        return;
      }
      if records[item.credId].revRegId.None? {
        t := t.(items := t.items[reft := item.(timestamp := None)]);
      }
    }
    err := None;
    forall r | r in s.items
      ensures s.items[r].credId in records && t.items[r] == CleanItem(s.items[r], records)
    {
      var i :| 0 <= i < |s.order| && s.order[i] == r;
    }
  }

  /** A section item after the merge-back: it carries the referent's resolved
      timestamp when there is one. */
  function MergeItem(it: Item, reft: Referent, refs: map<Referent, Precis>): (m: Item)
    ensures m.credId == it.credId
    ensures reft in refs && refs[reft].timestamp.Some? ==> m.timestamp == refs[reft].timestamp
    ensures !(reft in refs && refs[reft].timestamp.Some?) ==> m == it
  {
    if reft in refs && refs[reft].timestamp.Some? then it.(timestamp := refs[reft].timestamp) else it
  }

  /** `t` is `s` with the resolved timestamps of the referents in `within` merged in. */
  ghost predicate MergedWithin(s: Section, t: Section, refs: map<Referent, Precis>, within: seq<Referent>) {
    && t.order == s.order
    && (forall r :: r in t.items <==> r in s.items)
    && (forall r :: r in t.items ==>
          t.items[r] == if r in within then MergeItem(s.items[r], r, refs) else s.items[r])
  }

  /** Give the item of `reft` the resolved timestamp `ts` of `reft`, when the
      section holds `reft`. */
  function StampSection(t: Section, reft: Referent, refs: map<Referent, Precis>): Section
    requires reft in refs
  {
    if reft in t.items && refs[reft].timestamp.Some? then
      t.(items := t.items[reft := t.items[reft].(timestamp := refs[reft].timestamp)])
    else
      t
  }

  /** Stamping one more referent extends the merged prefix by that referent. */
  lemma MergeStep(s: Section, t: Section, refs: map<Referent, Precis>, within: seq<Referent>, reft: Referent)
    requires reft in refs && MergedWithin(s, t, refs, within)
    ensures MergedWithin(s, StampSection(t, reft, refs), refs, within + [reft])
    ensures refs[reft].timestamp.None? ==> MergedWithin(s, t, refs, within + [reft])
  {
  }

  /** Some referent carries a resolved timestamp. */
  ghost predicate AnyStamped(refs: map<Referent, Precis>) {
    exists r :: r in refs && refs[r].timestamp.Some?
  }

  /** `order[f]` is the first referent with a resolved timestamp. */
  ghost predicate FirstStamped(order: seq<Referent>, refs: map<Referent, Precis>, f: int)
    requires forall r :: r in order ==> r in refs
  {
    && 0 <= f < |order|
    && refs[order[f]].timestamp.Some?
    && forall j :: 0 <= j < f ==> refs[order[j]].timestamp.None?
  }

  ghost predicate OptValid(s: Option<Section>) {
    s.Some? ==> s.value.Valid()
  }

  /** `requested_credentials`: the two sections, each of which may be absent. */
  class RequestedCredentials {
    var attributes: Option<Section>
    var predicates: Option<Section>

    ghost predicate Valid()
      reads this
    {
      OptValid(attributes) && OptValid(predicates)
    }

    constructor (attributes: Option<Section>, predicates: Option<Section>)
      requires OptValid(attributes) && OptValid(predicates)
      ensures Valid()
      ensures this.attributes == attributes && this.predicates == predicates
    {
      this.attributes := attributes;
      this.predicates := predicates;
    }

    /** The clean-up pass: attributes first, then predicates; a missing section
        is read as empty. */
    method DropUnrevocableTimestamps(records: map<CredId, CredentialRecord>) returns (err: Option<Error>)
      requires Valid()
      modifies this
      ensures Valid()
      ensures old(attributes).None? ==> attributes.None?
      ensures old(attributes).Some? ==>
        && attributes.Some?
        && SectionCleaned(old(attributes).value, attributes.value, records,
                          if AllFetched(old(attributes).value, records) then None else err)
      ensures old(attributes).Some? && !AllFetched(old(attributes).value, records) ==>
        err.Some? && predicates == old(predicates)
      ensures old(attributes).None? || AllFetched(old(attributes).value, records) ==>
        && (old(predicates).None? ==> predicates.None? && err.None?)
        && (old(predicates).Some? ==>
              predicates.Some? && SectionCleaned(old(predicates).value, predicates.value, records, err))
      ensures err.None? <==> CleanupSucceeds(old(attributes), old(predicates), records)
      ensures err.Some? ==> CleanupFails(old(attributes), old(predicates), records, err.value)
    {
      err := None;
      if attributes.Some? {
        var t, e := CleanSection(attributes.value, records);
        if e.Some? {
          CleanFailureNamesFirst(attributes.value, t, records, e);
          attributes := Some(t);
          return e;
        }
        attributes := Some(t);
      }
      if predicates.Some? {
        var t, e := CleanSection(predicates.value, records);
        if e.Some? {
          CleanFailureNamesFirst(predicates.value, t, records, e);
        }
        predicates := Some(t);
        err := e;
      }
    }

    /** The merge-back pass over the referents in order. Both sections are indexed
        directly, so a stamped referent meets a missing section as an error;
        a stamped referent is written into each section holding its name. */
    method MergeTimestamps(order: seq<Referent>, refs: map<Referent, Precis>) returns (err: Option<Error>)
      requires Valid()
      requires forall r :: r in refs <==> r in order
      modifies this
      ensures Valid()
      ensures err.Some? <==> AnyStamped(refs) && (old(attributes).None? || old(predicates).None?)
      ensures err.Some? && old(attributes).None? ==>
        err == Some(KeyError("requested_attributes")) && attributes == old(attributes) && predicates == old(predicates)
      ensures err.Some? && old(attributes).Some? ==>
        && err == Some(KeyError("requested_predicates"))
        && predicates == old(predicates)
        && attributes.Some?
        && exists f :: FirstStamped(order, refs, f) &&
                       MergedWithin(old(attributes).value, attributes.value, refs, order[..f + 1])
      ensures err.None? ==>
        && attributes.Some? == old(attributes).Some?
        && predicates.Some? == old(predicates).Some?
        && (attributes.Some? ==> MergedWithin(old(attributes).value, attributes.value, refs, order))
        && (predicates.Some? ==> MergedWithin(old(predicates).value, predicates.value, refs, order))
    {
      ghost var touched := false;
      for i := 0 to |order|
        invariant Valid()
        invariant forall j :: 0 <= j < i ==> refs[order[j]].timestamp.None? || (old(attributes).Some? && old(predicates).Some?)
        invariant !touched ==> attributes == old(attributes) && predicates == old(predicates)
        invariant touched ==> old(attributes).Some? && old(predicates).Some?
        invariant attributes.Some? == old(attributes).Some? && predicates.Some? == old(predicates).Some?
        invariant attributes.Some? ==> MergedWithin(old(attributes).value, attributes.value, refs, order[..i])
        invariant predicates.Some? ==> MergedWithin(old(predicates).value, predicates.value, refs, order[..i])
      {
        var reft := order[i];
        SliceSnoc(order, i);
        if attributes.Some? {
          MergeStep(old(attributes).value, attributes.value, refs, order[..i], reft);
        }
        if predicates.Some? {
          MergeStep(old(predicates).value, predicates.value, refs, order[..i], reft);
        }
        if refs[reft].timestamp.Some? {
          if attributes.None? {
            err := Some(KeyError("requested_attributes"));
            assert order[i] in refs;
            return;
          }
          attributes := Some(StampSection(attributes.value, reft, refs));
          if predicates.None? {
            err := Some(KeyError("requested_predicates"));
            assert FirstStamped(order, refs, i);
            assert order[i] in refs;
            return;
          }
          predicates := Some(StampSection(predicates.value, reft, refs));
          touched := true;
        }
      }
      err := None;
      assert order[..|order|] == order;
      if AnyStamped(refs) {
        var r :| r in refs && refs[r].timestamp.Some?;
        var j :| 0 <= j < |order| && order[j] == r;
      }
    }
  }
}
