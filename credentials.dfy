/** Fetching each distinct credential of a presentation once from the wallet. */
module Credentials {
  import opened Wrappers
  import opened Seqs
  import opened ProofTypes

  /** The fetched credentials, in the insertion order of the `credentials` dictionary. */
  datatype Credentials = Credentials(order: seq<CredId>, records: map<CredId, CredentialRecord>)

  /** The credential id of each referent, in referent order. */
  function CredIdsOf(order: seq<Referent>, refs: map<Referent, Precis>): seq<CredId>
    requires forall r :: r in order ==> r in refs
  {
    seq(|order|, i requires 0 <= i < |order| => refs[order[i]].credId)
  }

  /** The wallet calls that fetch `ids`, in that order. */
  function CredentialCalls(ids: seq<CredId>): seq<Call> {
    seq(|ids|, i requires 0 <= i < |ids| => GetCredential(ids[i]))
  }

  lemma CredentialCallsSnoc(ids: seq<CredId>, c: CredId)
    ensures CredentialCalls(ids + [c]) == CredentialCalls(ids) + [GetCredential(c)]
  {
  }

  /** The fetch of `ids[k]` failed with `e` after the fetches of `ids[..k]` succeeded,
      and `log` holds exactly these calls. */
  ghost predicate FetchFailedAt(env: Environment, ids: seq<CredId>, k: int, log: seq<Call>, e: Error) {
    && 0 <= k < |ids|
    && log == CredentialCalls(ids[..k + 1])
    && env.getCredential(ids[k]) == Failure(e)
    && (forall j :: 0 <= j < k ==> env.getCredential(ids[j]).Success?)
  }

  /** The failing fetch of the first new id `ids[i]` is the last call of the log. */
  lemma FetchFailureWitness(env: Environment, ids: seq<CredId>, i: nat, credOrder: seq<CredId>,
                            records: map<CredId, CredentialRecord>, log: seq<Call>, e: Error)
    requires i < |ids| && credOrder == Dedup(ids[..i]) && ids[i] !in records
    requires forall c :: c in records <==> c in credOrder
    requires forall c :: c in records ==> env.getCredential(c) == Success(records[c])
    requires log == CredentialCalls(credOrder) + [GetCredential(ids[i])]
    requires env.getCredential(ids[i]) == Failure(e)
    ensures FetchFailedAt(env, Dedup(ids), |credOrder|, log, e)
  {
    var all, k := Dedup(ids), |credOrder|;
    DedupFirstOccurrence(ids, i);
    assert all[..k + 1] == credOrder + [ids[i]];
    assert forall j :: 0 <= j < k ==> all[j] == credOrder[j] && credOrder[j] in records;
    CredentialCallsSnoc(credOrder, ids[i]);
  }

  /** The fetches so far: `records` holds the credentials of `credOrder`, the
      distinct ids of `ids[..i]` in order, as the wallet returned them, and `log`
      holds one fetch for each. */
  ghost predicate FetchedUpTo(env: Environment, ids: seq<CredId>, i: nat, credOrder: seq<CredId>,
                              records: map<CredId, CredentialRecord>, log: seq<Call>) {
    && i <= |ids|
    && credOrder == Dedup(ids[..i])
    && log == CredentialCalls(credOrder)
    && (forall c :: c in records <==> c in credOrder)
    && (forall c :: c in records ==> env.getCredential(c) == Success(records[c]))
  }

  /** The body of the loop for `ids[i]`: fetch the credential from the wallet and
      record it when the id is new. */
  method FetchOne(env: Environment, ids: seq<CredId>, i: nat, credOrder: seq<CredId>,
                  records: map<CredId, CredentialRecord>, log: seq<Call>)
    returns (credOrder': seq<CredId>, records': map<CredId, CredentialRecord>, log': seq<Call>, err: Option<Error>)
    requires i < |ids| && FetchedUpTo(env, ids, i, credOrder, records, log)
    ensures err.None? ==> FetchedUpTo(env, ids, i + 1, credOrder', records', log')
    ensures err.Some? ==> FetchFailedAt(env, Dedup(ids), |credOrder|, log', err.value)
  {
    credOrder', records', log', err := credOrder, records, log, None;
    var credentialId := ids[i];
    SliceSnoc(ids, i);
    DedupSnoc(ids[..i], credentialId);
    if credentialId !in records {
      CredentialCallsSnoc(credOrder, credentialId);
      log' := log + [GetCredential(credentialId)];
      var fetched := env.getCredential(credentialId);
      if fetched.Failure? {
        err := Some(fetched.error);
        FetchFailureWitness(env, ids, i, credOrder, records, log', err.value);
        return;
      }
      records' := records[credentialId := fetched.value];
      credOrder' := credOrder + [credentialId];
    }
  }

  /** Every referenced credential is fetched in order of first reference, each id
      once; the first failing fetch aborts the pass with that fetch's error. */
  method FetchCredentials(env: Environment, order: seq<Referent>, refs: map<Referent, Precis>)
    returns (outcome: Result<Credentials, Error>, log: seq<Call>)
    requires forall r :: r in order ==> r in refs
    ensures outcome.Success? ==>
      var ids := Dedup(CredIdsOf(order, refs));
      && outcome.value.order == ids
      && log == CredentialCalls(ids)
      && (forall c :: c in outcome.value.records <==> c in ids)
      && (forall c :: c in outcome.value.records ==> env.getCredential(c) == Success(outcome.value.records[c]))
    ensures outcome.Failure? ==>
      exists k :: FetchFailedAt(env, Dedup(CredIdsOf(order, refs)), k, log, outcome.error)
  {
    var ids := CredIdsOf(order, refs);
    var records: map<CredId, CredentialRecord> := map[];
    var credOrder: seq<CredId> := [];
    log := [];
    for i := 0 to |order|
      invariant FetchedUpTo(env, ids, i, credOrder, records, log)
    {
      var err;
      credOrder, records, log, err := FetchOne(env, ids, i, credOrder, records, log);
      if err.Some? {
        return Failure(err.value), log;
      }
    }
    assert ids[..|order|] == ids;
    outcome := Success(Credentials(credOrder, records));
  }

  /** The wallet is asked exactly once for each referenced credential and never
      for any other. */
  lemma CredentialFetchedOnce(ids: seq<CredId>, c: CredId)
    ensures multiset(CredentialCalls(Dedup(ids)))[GetCredential(c)] == if c in ids then 1 else 0
  {
    var d := Dedup(ids);
    DedupProperties(ids);
    var calls := CredentialCalls(d);
    assert Distinct(calls) by {
      forall i, j | 0 <= i < j < |calls| ensures calls[i] != calls[j] {
        assert d[i] != d[j];
      }
    }
    DistinctOccursOnce(calls, GetCredential(c));
    if c in d {
      var i :| 0 <= i < |d| && d[i] == c;
      assert calls[i] == GetCredential(c);
    }
  }
}
