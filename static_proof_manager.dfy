/** `StaticProofManager.create_presentation`: the six stages chained, each stopping
    the build at its first error, then the holder's proof construction. */
module StaticProofManager {
  import opened Wrappers
  import opened Seqs
  import opened ProofTypes
  import opened Referents
  import opened Credentials
  import opened RequestedCredentialsStore
  import opened LedgerObjects
  import opened Deltas
  import opened DeltaProperties
  import opened RevocationStates

  /** `revoc_reg_deltas.values()`: the cached deltas in the order they were cached. */
  function DeltasInOrder(keyOrder: seq<DeltaKey>, entries: map<DeltaKey, DeltaEntry>): (ds: seq<DeltaEntry>)
    requires forall k :: k in keyOrder ==> k in entries
    ensures |ds| == |keyOrder| && forall i :: 0 <= i < |ds| ==> ds[i] == entries[keyOrder[i]]
  {
    seq(|keyOrder|, i requires 0 <= i < |keyOrder| => entries[keyOrder[i]])
  }

  /** Every referent's credential was fetched: the credential pass fetched the
      credential id of each referent. */
  lemma ReferentsFetched(order: seq<Referent>, refs: map<Referent, Precis>, records: map<CredId, CredentialRecord>)
    requires forall r :: r in refs <==> r in order
    requires forall c :: c in records <==> c in Dedup(CredIdsOf(order, refs))
    ensures forall r :: r in refs ==> refs[r].credId in records
  {
    var ids := CredIdsOf(order, refs);
    DedupProperties(ids);
    forall r | r in refs
      ensures refs[r].credId in records
    {
      var i :| 0 <= i < |order| && order[i] == r;
      assert ids[i] == refs[r].credId;
    }
  }

  /** The registry and credential of every cached delta were fetched, so the
      revocation-state pass finds both. */
  lemma DeltasReady(inp: DeltaInputs, tailsPath: TailsLookup, build: StateBuilder,
                    registries: map<RevRegId, RevRegDef>)
    requires WellFormed(inp) && DeltaFold(inp, |inp.order|).err.None?
    requires forall r :: r in registries <==> exists c :: c in inp.records && inp.records[c].revRegId == Some(r)
    ensures var st := DeltaFold(inp, |inp.order|).state;
      && (forall k :: k in st.keyOrder ==> k in st.entries)
      && Ready(StateInputs(tailsPath, build, registries, inp.records, DeltasInOrder(st.keyOrder, st.entries)))
  {
    var st := DeltaFold(inp, |inp.order|).state;
    DeltaPassSucceeds(inp);
    var ds := DeltasInOrder(st.keyOrder, st.entries);
    forall i | 0 <= i < |ds|
      ensures ds[i].revRegId in registries && ds[i].credId in inp.records
    {
      var k := st.keyOrder[i];
      var j :| FirstQualifierAt(inp, st.entries[k].credId, j) && QualKey(inp, inp.order[j]) == k;
      var c := inp.refs[inp.order[j]].credId;
      assert inp.records[c].revRegId == Some(k.revRegId);
    }
  }

  /** No call in `log` asks the holder for a proof. */
  ghost predicate NoProofCall(log: seq<Call>) {
    forall i :: 0 <= i < |log| ==> !log[i].CreatePresentation?
  }

  lemma NoProofCallAppend(a: seq<Call>, b: seq<Call>)
    requires NoProofCall(a) && NoProofCall(b)
    ensures NoProofCall(a + b)
  {
  }

  /** The presentation was asked for once, as the last call. */
  ghost predicate ProofCallLast(log: seq<Call>) {
    |log| > 0 && log[|log| - 1] == Call.CreatePresentation && NoProofCall(log[..|log| - 1])
  }

  /** Calls with no proof request, followed by the proof request, ask for it once, last. */
  lemma ProofAskedLast(a: seq<Call>, b: seq<Call>)
    requires NoProofCall(a) && NoProofCall(b)
    ensures ProofCallLast(a + (b + [Call.CreatePresentation]))
  {
    NoProofCallAppend(a, b);
    assert (a + (b + [Call.CreatePresentation]))[..|a + b|] == a + b;
  }

  /** The calls of the credential pass are all wallet fetches. */
  lemma CredentialLogNoProofCall(env: Environment, order: seq<Referent>, refs: map<Referent, Precis>,
                                 outcome: Result<Credentials, Error>, log: seq<Call>)
    requires forall r :: r in order ==> r in refs
    requires outcome.Success? ==> log == CredentialCalls(Dedup(CredIdsOf(order, refs)))
    requires outcome.Failure? ==> exists k :: FetchFailedAt(env, Dedup(CredIdsOf(order, refs)), k, log, outcome.error)
    ensures NoProofCall(log)
  {
  }

  /** The calls of the ledger pass are all ledger lookups. */
  lemma LedgerLogNoProofCall(env: Environment, calls: seq<Call>, outcome: Result<LedgerObjects, Error>, log: seq<Call>)
    requires outcome.Success? ==> Tracked(env, outcome.value, log)
    requires outcome.Failure? ==> exists k :: LookupFailedAt(env, calls, k, log, outcome.error)
    ensures NoProofCall(log)
  {
    if outcome.Failure? {
      var k :| LookupFailedAt(env, calls, k, log, outcome.error);
      forall i | 0 <= i < |log|
        ensures !log[i].CreatePresentation?
      {
        if i == k {
          assert LedgerCallFails(env, log[i], outcome.error);
        } else {
          assert LedgerCallSucceeds(env, calls[i]);
        }
      }
    } else {
      forall i | 0 <= i < |log|
        ensures !log[i].CreatePresentation?
      {
        assert LedgerCallSucceeds(env, log[i]);
      }
    }
  }

  /** The ledger calls of the delta pass: one per fetched key, and the failing one. */
  lemma DeltaLogNoProofCall(inp: DeltaInputs)
    requires WellFormed(inp)
    ensures NoProofCall(DeltaFold(inp, |inp.order|).state.log)
  {
    DeltaPassSucceeds(inp);
    DeltaPassFails(inp);
  }

  /** The holder calls of the revocation-state pass are all state builds. */
  lemma StatesLogNoProofCall(inp: StateInputs)
    requires Ready(inp)
    ensures NoProofCall(StatesFold(inp, |inp.deltas|).log)
  {
    var n := |inp.deltas|;
    if StatesFold(inp, n).err.None? {
      FoldLog(inp, n);
    } else {
      StatesFoldFails(inp, n);
      var k :| 0 <= k < n && (forall i :: 0 <= i < k ==> EntryBuilt(inp, i)) && StoppedAt(inp, k, StatesFold(inp, n));
    }
  }

  /** The proof can be built: for each resolved timestamp there is a revocation
      state under the credential's registry and that timestamp. */
  ghost predicate StatesCover(refs: map<Referent, Precis>, records: map<CredId, CredentialRecord>, states: RevStates) {
    forall r :: r in refs && refs[r].timestamp.Some? ==>
      && refs[r].credId in records
      && records[refs[r].credId].revRegId.Some?
      && records[refs[r].credId].revRegId.value in states
      && refs[r].timestamp.value in states[records[refs[r].credId].revRegId.value]
  }

  /** A resolved timestamp is that of a cached delta, at position `i` of the
      cache, in the registry of the referent's credential. */
  lemma CachedDeltaOf(inp: DeltaInputs, r: Referent) returns (i: int)
    requires WellFormed(inp) && DeltaFold(inp, |inp.order|).err.None?
    requires var st := DeltaFold(inp, |inp.order|).state; r in st.refs && st.refs[r].timestamp.Some?
    ensures var st := DeltaFold(inp, |inp.order|).state;
      && 0 <= i < |st.keyOrder| && st.keyOrder[i] in st.entries
      && st.refs[r].credId in inp.records
      && inp.records[st.refs[r].credId].revRegId == Some(st.entries[st.keyOrder[i]].revRegId)
      && st.refs[r].timestamp == Some(st.entries[st.keyOrder[i]].timestamp)
  {
    var n := |inp.order|;
    var st := DeltaFold(inp, n).state;
    FoldTracks(inp, n);
    var c := st.refs[r].credId;
    assert st.refs[r].timestamp == Expected(st, FirstKey(inp, c, n));
    var k := FirstKey(inp, c, n).value;
    FirstKeySpec(inp, c, n);
    var j :| 0 <= j < n && FirstQualifierAt(inp, c, j) && QualKey(inp, inp.order[j]) == k;
    assert inp.refs[inp.order[j]].credId == c && c in inp.records;
    i :| 0 <= i < |st.keyOrder| && st.keyOrder[i] == k;
  }

  /** Each timestamp the delta pass resolves is that of a cached delta of the
      credential's registry, so the state pass files a state under it. */
  lemma StatesCoverTimestamps(inp: DeltaInputs, tailsPath: TailsLookup, build: StateBuilder,
                              registries: map<RevRegId, RevRegDef>)
    requires WellFormed(inp) && DeltaFold(inp, |inp.order|).err.None?
    requires var st := DeltaFold(inp, |inp.order|).state;
      && (forall k :: k in st.keyOrder ==> k in st.entries)
      && var sinp := StateInputs(tailsPath, build, registries, inp.records, DeltasInOrder(st.keyOrder, st.entries));
         Ready(sinp) && StatesFold(sinp, |sinp.deltas|).err.None?
    ensures var st := DeltaFold(inp, |inp.order|).state;
      var sinp := StateInputs(tailsPath, build, registries, inp.records, DeltasInOrder(st.keyOrder, st.entries));
      StatesCover(st.refs, inp.records, StatesFold(sinp, |sinp.deltas|).states)
  {
    var st := DeltaFold(inp, |inp.order|).state;
    var sinp := StateInputs(tailsPath, build, registries, inp.records, DeltasInOrder(st.keyOrder, st.entries));
    var n := |sinp.deltas|;
    var states := StatesFold(sinp, n).states;
    FoldRegistries(sinp, n);
    FoldTimestamps(sinp, n);
    forall r | r in st.refs && st.refs[r].timestamp.Some?
      ensures && st.refs[r].credId in inp.records
              && inp.records[st.refs[r].credId].revRegId.Some?
              && inp.records[st.refs[r].credId].revRegId.value in states
              && st.refs[r].timestamp.value in states[inp.records[st.refs[r].credId].revRegId.value]
    {
      var i := CachedDeltaOf(inp, r);
      var d := sinp.deltas[i];
      assert d == st.entries[st.keyOrder[i]];
      assert d.revRegId in states;
      assert d.timestamp in TimestampsOf(sinp, d.revRegId, n);
    }
  }

  /** The outcome of the revocation stages on `inp`: the referents are those the
      delta pass leaves. When it fails, its error and its calls are the outcome.
      Otherwise the state pass runs over the cached deltas; the outcome is its
      error, and the log is the delta calls followed by the holder calls. On
      success the states are what it built. */
  ghost predicate Resolution(env: Environment, inp: DeltaInputs, registries: map<RevRegId, RevRegDef>,
                             refs: map<Referent, Precis>, states: RevStates, log: seq<Call>, err: Option<Error>) {
    var o := DeltaFold(inp, |inp.order|);
    && refs == o.state.refs
    && (o.err.Some? ==> err == o.err && log == o.state.log)
    && (o.err.None? ==>
          && (forall k :: k in o.state.keyOrder ==> k in o.state.entries)
          && var sinp := StateInputs(env.tailsPath, env.createRevocationState, registries, inp.records,
                                     DeltasInOrder(o.state.keyOrder, o.state.entries));
             && Ready(sinp)
             && var so := StatesFold(sinp, |sinp.deltas|);
                err == so.err && log == o.state.log + so.log && (err.None? ==> states == so.states))
  }

  /** The revocation stages: the delta pass over the referents, then the state
      pass over the cached deltas, as `Resolution` describes. On success every
      resolved timestamp has a revocation state; either way no proof was asked
      for. */
  method ResolveRevocation(env: Environment, records: map<CredId, CredentialRecord>, epochNow: Timestamp,
                           order: seq<Referent>, refs0: map<Referent, Precis>, registries: map<RevRegId, RevRegDef>)
    returns (refs: map<Referent, Precis>, states: RevStates, log: seq<Call>, err: Option<Error>)
    requires WellFormed(DeltaInputs(env.getRevRegDelta, records, epochNow, order, refs0))
    requires forall r :: r in registries <==> exists c :: c in records && records[c].revRegId == Some(r)
    ensures NoProofCall(log)
    ensures Resolution(env, DeltaInputs(env.getRevRegDelta, records, epochNow, order, refs0), registries,
                       refs, states, log, err)
    ensures err.None? ==> StatesCover(refs, records, states)
  {
    ghost var inp := DeltaInputs(env.getRevRegDelta, records, epochNow, order, refs0);
    DeltaLogNoProofCall(inp);
    states := map[];
    var st, deltaErr := CollectDeltas(env.getRevRegDelta, records, epochNow, order, refs0);
    refs, log, err := st.refs, st.log, deltaErr;
    if deltaErr.None? {
      DeltasReady(inp, env.tailsPath, env.createRevocationState, registries);
      var deltas := DeltasInOrder(st.keyOrder, st.entries);
      ghost var sinp := StateInputs(env.tailsPath, env.createRevocationState, registries, records, deltas);
      StatesLogNoProofCall(sinp);
      var built, stateLog, stateErr :=
        BuildRevocationStates(env.tailsPath, env.createRevocationState, registries, records, deltas);
      NoProofCallAppend(log, stateLog);
      log, err := log + stateLog, stateErr;
      states := built;
      if err.None? {
        StatesCoverTimestamps(inp, env.tailsPath, env.createRevocationState, registries);
      }
    }
  }

  /** The ledger objects are those of the credentials: a schema and a credential
      definition per id they use, a registry definition per registry of a
      revocable one, each as the ledger returned it. */
  ghost predicate LedgerObjectsOf(env: Environment, lo: LedgerObjects, records: map<CredId, CredentialRecord>) {
    && (forall s :: s in lo.schemas <==> exists c :: c in records && records[c].schemaId == s)
    && (forall d :: d in lo.credDefs <==> exists c :: c in records && records[c].credDefId == d)
    && (forall r :: r in lo.registries <==> exists c :: c in records && records[c].revRegId == Some(r))
    && (forall s :: s in lo.schemas ==> env.getSchema(s) == Success(lo.schemas[s]))
    && (forall d :: d in lo.credDefs ==> env.getCredDef(d) == Success(lo.credDefs[d]))
    && (forall r :: r in lo.registries ==> env.getRevRegDef(r) == Success(lo.registries[r]))
  }

  /** Section `t` is section `s` after the clean-up: same keys and order, and
      each item cleaned. An absent section stays absent. */
  ghost predicate Cleaned(s: Option<Section>, t: Option<Section>, records: map<CredId, CredentialRecord>) {
    && s.Some? == t.Some?
    && (s.Some? ==> s.value.Valid() && SectionCleaned(s.value, t.value, records, None))
  }

  /** Section `t` is section `s` after both edits: same keys and order, each item
      cleaned and then given its referent's resolved timestamp, if any. */
  ghost predicate Finalized(s: Option<Section>, t: Option<Section>, records: map<CredId, CredentialRecord>,
                            refs: map<Referent, Precis>) {
    && s.Some? == t.Some?
    && (s.Some? ==>
          && t.value.order == s.value.order
          && (forall r :: r in t.value.items <==> r in s.value.items)
          && (forall r :: r in s.value.items ==>
                s.value.items[r].credId in records &&
                t.value.items[r] == MergeItem(CleanItem(s.value.items[r], records), r, refs)))
  }

  /** Cleaning and then merging over every referent of the section finalizes it. */
  lemma CleanThenMerge(s: Section, m: Section, t: Section, records: map<CredId, CredentialRecord>,
                       refs: map<Referent, Precis>, order: seq<Referent>)
    requires s.Valid() && SectionCleaned(s, m, records, None)
    requires MergedWithin(m, t, refs, order)
    requires forall r :: r in s.items ==> r in order
    ensures Finalized(Some(s), Some(t), records, refs)
  {
  }

  /** The credential pass fetched exactly `ids`, each as the wallet returned it. */
  ghost predicate CredentialsFetched(env: Environment, ids: seq<CredId>, records: map<CredId, CredentialRecord>) {
    && (forall c :: c in records <==> c in ids)
    && (forall c :: c in records ==> env.getCredential(c) == Success(records[c]))
  }

  /** The first four stages succeeded on sections `a0`, `p0`: one referent per
      name, none stamped yet; the credentials fetched are exactly those of the
      referents; the clean-up found all of them; `ledgerLog` is exactly the ledger
      pass's lookups in the order it makes them, and the ledger objects are those
      of the credentials. */
  ghost predicate Gathered(env: Environment, a0: Option<Section>, p0: Option<Section>, order: seq<Referent>,
                           refs: map<Referent, Precis>, records: map<CredId, CredentialRecord>,
                           lo: LedgerObjects, ledgerLog: seq<Call>) {
    && (forall r :: r in refs <==> r in order)
    && (forall r :: r in refs ==> refs[r].credId in records && refs[r].timestamp.None?)
    && CredentialsFetched(env, Dedup(CredIdsOf(order, refs)), records)
    && CleanupSucceeds(a0, p0, records)
    && Tracked(env, lo, ledgerLog)
    && ledgerLog == LedgerCalls(Dedup(CredIdsOf(order, refs)), records)
    && LedgerObjectsOf(env, lo, records)
  }

  /** The first four stages stopped with `e`: a credential fetch failed, or the
      credentials were fetched and the clean-up met an unfetched one, or both
      passed and a ledger lookup failed, the first refused one of `LedgerCalls`.
      `log` holds the calls made up to there. */
  ghost predicate GatherFailed(env: Environment, a0: Option<Section>, p0: Option<Section>, order: seq<Referent>,
                               refs: map<Referent, Precis>, records: map<CredId, CredentialRecord>,
                               log: seq<Call>, e: Error) {
    && (forall r :: r in order ==> r in refs)
    && var ids := Dedup(CredIdsOf(order, refs));
       || (exists k :: FetchFailedAt(env, ids, k, log, e))
       || (CredentialsFetched(env, ids, records) && log == CredentialCalls(ids) && CleanupFails(a0, p0, records, e))
       || (&& CredentialsFetched(env, ids, records)
           && CleanupSucceeds(a0, p0, records)
           && exists ll :: log == CredentialCalls(ids) + ll && exists k :: LookupFailedAt(env, LedgerCalls(ids, records), k, ll, e))
  }

  /** A failed credential fetch stops the first four stages. */
  lemma FetchStopsGather(env: Environment, a0: Option<Section>, p0: Option<Section>, order: seq<Referent>,
                         refs: map<Referent, Precis>, records: map<CredId, CredentialRecord>, log: seq<Call>, e: Error)
    requires forall r :: r in order ==> r in refs
    requires exists k :: FetchFailedAt(env, Dedup(CredIdsOf(order, refs)), k, log, e)
    ensures GatherFailed(env, a0, p0, order, refs, records, log, e)
  {
  }

  /** A clean-up that meets an unfetched credential stops the first four stages. */
  lemma CleanupStopsGather(env: Environment, a0: Option<Section>, p0: Option<Section>, order: seq<Referent>,
                           refs: map<Referent, Precis>, records: map<CredId, CredentialRecord>, log: seq<Call>, e: Error)
    requires forall r :: r in order ==> r in refs
    requires CredentialsFetched(env, Dedup(CredIdsOf(order, refs)), records)
    requires log == CredentialCalls(Dedup(CredIdsOf(order, refs)))
    requires CleanupFails(a0, p0, records, e)
    ensures GatherFailed(env, a0, p0, order, refs, records, log, e)
  {
  }

  /** A failed ledger lookup after the clean-up stops the first four stages. */
  lemma LedgerStopsGather(env: Environment, a0: Option<Section>, p0: Option<Section>, order: seq<Referent>,
                          refs: map<Referent, Precis>, records: map<CredId, CredentialRecord>,
                          ledgerLog: seq<Call>, e: Error)
    requires forall r :: r in order ==> r in refs
    requires CredentialsFetched(env, Dedup(CredIdsOf(order, refs)), records)
    requires CleanupSucceeds(a0, p0, records)
    requires exists k :: LookupFailedAt(env, LedgerCalls(Dedup(CredIdsOf(order, refs)), records), k, ledgerLog, e)
    ensures GatherFailed(env, a0, p0, order, refs, records,
                         CredentialCalls(Dedup(CredIdsOf(order, refs))) + ledgerLog, e)
  {
  }

  /** A ledger pass that follows a successful clean-up completes the first four stages. */
  lemma LedgerEndsGather(env: Environment, a0: Option<Section>, p0: Option<Section>, order: seq<Referent>,
                         refs: map<Referent, Precis>, records: map<CredId, CredentialRecord>,
                         lo: LedgerObjects, ledgerLog: seq<Call>)
    requires forall r :: r in refs <==> r in order
    requires forall r :: r in refs ==> refs[r].credId in records && refs[r].timestamp.None?
    requires CredentialsFetched(env, Dedup(CredIdsOf(order, refs)), records)
    requires CleanupSucceeds(a0, p0, records)
    requires Tracked(env, lo, ledgerLog)
    requires ledgerLog == LedgerCalls(Dedup(CredIdsOf(order, refs)), records)
    requires forall s :: s in lo.schemas <==> exists c :: c in records && records[c].schemaId == s
    requires forall d :: d in lo.credDefs <==> exists c :: c in records && records[c].credDefId == d
    requires forall r :: r in lo.registries <==> exists c :: c in records && records[c].revRegId == Some(r)
    ensures Gathered(env, a0, p0, order, refs, records, lo, ledgerLog)
  {
  }

  /** Stages three and four: the clean-up of the requested credentials, then the
      ledger lookups. On success both sections are cleaned and `ledgerLog` is
      exactly `LedgerCalls` of the credentials; on failure the error is the
      clean-up's, with no lookup made, or that of the first refused lookup of
      `LedgerCalls` after a clean-up that succeeded. */
  method CleanAndLookUp(env: Environment, rc: RequestedCredentials, credOrder: seq<CredId>,
                        records: map<CredId, CredentialRecord>)
    returns (lo: LedgerObjects, ledgerLog: seq<Call>, err: Option<Error>)
    requires rc.Valid()
    requires forall c :: c in records <==> c in credOrder
    modifies rc
    ensures rc.Valid()
    ensures NoProofCall(ledgerLog)
    ensures err.None? ==>
      && CleanupSucceeds(old(rc.attributes), old(rc.predicates), records)
      && Tracked(env, lo, ledgerLog)
      && ledgerLog == LedgerCalls(credOrder, records)
      && (forall s :: s in lo.schemas <==> exists c :: c in records && records[c].schemaId == s)
      && (forall d :: d in lo.credDefs <==> exists c :: c in records && records[c].credDefId == d)
      && (forall r :: r in lo.registries <==> exists c :: c in records && records[c].revRegId == Some(r))
      && Cleaned(old(rc.attributes), rc.attributes, records)
      && Cleaned(old(rc.predicates), rc.predicates, records)
    ensures err.Some? ==>
      || (ledgerLog == [] && CleanupFails(old(rc.attributes), old(rc.predicates), records, err.value))
      || (CleanupSucceeds(old(rc.attributes), old(rc.predicates), records) 
          && exists k :: LookupFailedAt(env, LedgerCalls(credOrder, records), k, ledgerLog, err.value))
  {
    lo, ledgerLog := NoLedgerObjects, [];
    err := rc.DropUnrevocableTimestamps(records);
    if err.None? {
      var ledger;
      ledger, ledgerLog := FetchLedgerObjects(env, credOrder, records);
      LedgerLogNoProofCall(env, LedgerCalls(credOrder, records), ledger, ledgerLog);
      if ledger.Failure? {
        err := Some(ledger.error);
      } else {
        lo := ledger.value;
      }
    }
  }

  /** The first four stages: the referents, their credentials, the clean-up of the
      requested credentials and the ledger objects. On success the log is the
      credential fetches followed by the ledger lookups `ledgerLog`, and both
      sections are cleaned; on failure the error is the first stage's that
      failed. Either way no proof was asked for. */
  method GatherInputs(env: Environment, request: ProofRequest, intervals: map<Referent, Interval>,
                      rc: RequestedCredentials)
    returns (order: seq<Referent>, refs: map<Referent, Precis>, records: map<CredId, CredentialRecord>,
             lo: LedgerObjects, log: seq<Call>, err: Option<Error>, ghost ledgerLog: seq<Call>)
    requires rc.Valid()
    modifies rc
    ensures rc.Valid()
    ensures order == Dedup(old(rc.attributes).GetOr(EmptySection).order + old(rc.predicates).GetOr(EmptySection).order)
    ensures refs == ReferentsOf(old(rc.attributes).GetOr(EmptySection), old(rc.predicates).GetOr(EmptySection),
                                request, intervals)
    ensures forall r :: r in refs <==> r in order
    ensures NoProofCall(log)
    ensures err.None? ==>
      && Gathered(env, old(rc.attributes), old(rc.predicates), order, refs, records, lo, ledgerLog)
      && log == CredentialCalls(Dedup(CredIdsOf(order, refs))) + ledgerLog
      && Cleaned(old(rc.attributes), rc.attributes, records)
      && Cleaned(old(rc.predicates), rc.predicates, records)
    ensures err.Some? ==> GatherFailed(env, old(rc.attributes), old(rc.predicates), order, refs, records, log, err.value)
  {
    lo, records, ledgerLog := NoLedgerObjects, map[], [];
    var attrCreds := rc.attributes.GetOr(EmptySection);
    var predCreds := rc.predicates.GetOr(EmptySection);
    order, refs := ExtractReferents(attrCreds, predCreds, request, intervals);

    var fetched;
    fetched, log := FetchCredentials(env, order, refs);
    CredentialLogNoProofCall(env, order, refs, fetched, log);
    ghost var a0, p0 := rc.attributes, rc.predicates;
    if fetched.Failure? {
      err := Some(fetched.error);
      FetchStopsGather(env, a0, p0, order, refs, records, log, fetched.error);
    } else {
      records := fetched.value.records;
      ReferentsFetched(order, refs, records);
      var ll;
      lo, ll, err := CleanAndLookUp(env, rc, fetched.value.order, records);
      ledgerLog := ll;
      NoProofCallAppend(log, ll);
      if err.None? {
        LedgerEndsGather(env, a0, p0, order, refs, records, lo, ledgerLog);
      } else if ledgerLog == [] && CleanupFails(a0, p0, records, err.value) {
        assert log + ledgerLog == log;
        CleanupStopsGather(env, a0, p0, order, refs, records, log, err.value);
      } else {
        LedgerStopsGather(env, a0, p0, order, refs, records, ledgerLog, err.value);
      }
      log := log + ll;
    }
  }

  /** The referents after the revocation stages: one per name in `order`, each
      credential fetched as the wallet returned it, referents sharing a credential
      sharing a timestamp, and those of non-revocable credentials without one. */
  ghost predicate ResolvedReferents(env: Environment, order: seq<Referent>, refs: map<Referent, Precis>,
                                    records: map<CredId, CredentialRecord>) {
    && (forall r :: r in refs <==> r in order)
    && (forall c :: c in records ==> env.getCredential(c) == Success(records[c]))
    && (forall r :: r in refs ==> refs[r].credId in records)
    && (forall r1, r2 :: r1 in refs && r2 in refs && refs[r1].credId == refs[r2].credId ==>
          refs[r1].timestamp == refs[r2].timestamp)
    && (forall r :: r in refs && records[refs[r].credId].revRegId.None? ==> refs[r].timestamp.None?)
  }

  /** Each item of the section whose referent has a resolved timestamp carries it. */
  ghost predicate CarriesTimestamps(sec: Option<Section>, refs: map<Referent, Precis>) {
    sec.Some? ==>
      forall r :: r in sec.value.items && r in refs && refs[r].timestamp.Some? ==>
        sec.value.items[r].timestamp == refs[r].timestamp
  }

  lemma ResolvedAfterDeltas(env: Environment, inp: DeltaInputs)
    requires WellFormed(inp) && DeltaFold(inp, |inp.order|).err.None?
    requires forall c :: c in inp.records ==> env.getCredential(c) == Success(inp.records[c])
    ensures ResolvedReferents(env, inp.order, DeltaFold(inp, |inp.order|).state.refs, inp.records)
  {
    DeltaPassSucceeds(inp);
  }

  lemma MergedCarries(s: Section, t: Section, refs: map<Referent, Precis>, order: seq<Referent>)
    requires forall r :: r in refs ==> r in order
    requires MergedWithin(s, t, refs, order)
    ensures CarriesTimestamps(Some(t), refs)
  {
  }

  /** Both sections, cleaned and then merged over the referents, are finalized
      and carry the resolved timestamps. */
  lemma SectionsFinalized(a0: Option<Section>, p0: Option<Section>, am: Option<Section>, pm: Option<Section>,
                          a: Option<Section>, p: Option<Section>, records: map<CredId, CredentialRecord>,
                          refs: map<Referent, Precis>, order: seq<Referent>)
    requires OptValid(a0) && OptValid(p0)
    requires order == Dedup(a0.GetOr(EmptySection).order + p0.GetOr(EmptySection).order)
    requires forall r :: r in refs ==> r in order
    requires Cleaned(a0, am, records) && Cleaned(p0, pm, records)
    requires am.Some? == a.Some? && (a.Some? ==> MergedWithin(am.value, a.value, refs, order))
    requires pm.Some? == p.Some? && (p.Some? ==> MergedWithin(pm.value, p.value, refs, order))
    ensures Finalized(a0, a, records, refs) && Finalized(p0, p, records, refs)
    ensures CarriesTimestamps(a, refs) && CarriesTimestamps(p, refs)
  {
    DedupProperties(a0.GetOr(EmptySection).order + p0.GetOr(EmptySection).order);
    if a.Some? {
      MergedCarries(am.value, a.value, refs, order);
      CleanThenMerge(a0.value, am.value, a.value, records, refs, order);
    }
    if p.Some? {
      MergedCarries(pm.value, p.value, refs, order);
      CleanThenMerge(p0.value, pm.value, p.value, records, refs, order);
    }
  }

  /** What the holder is given to build the proof from: the resolved referents,
      the credentials' ledger objects, a revocation state for every resolved
      timestamp, and both sections (`a0`, `p0` before the build, `a`, `p` after
      it) cleaned and carrying the resolved timestamps. */
  ghost predicate Prepared(env: Environment, order: seq<Referent>, refs: map<Referent, Precis>,
                           records: map<CredId, CredentialRecord>, lo: LedgerObjects, states: RevStates,
                           a0: Option<Section>, p0: Option<Section>, a: Option<Section>, p: Option<Section>) {
    && ResolvedReferents(env, order, refs, records)
    && LedgerObjectsOf(env, lo, records)
    && StatesCover(refs, records, states)
    && Finalized(a0, a, records, refs) && Finalized(p0, p, records, refs)
    && CarriesTimestamps(a, refs) && CarriesTimestamps(p, refs)
  }

  /** The delta pass's inputs for a build over sections `a0`, `p0`: the referents
      as the first stage extracts them, over the fetched credentials `records`. */
  function BuildInputs(env: Environment, request: ProofRequest, intervals: map<Referent, Interval>,
                       epochNow: Timestamp, a0: Option<Section>, p0: Option<Section>,
                       records: map<CredId, CredentialRecord>): DeltaInputs {
    DeltaInputs(env.getRevRegDelta, records, epochNow,
                Dedup(a0.GetOr(EmptySection).order + p0.GetOr(EmptySection).order),
                ReferentsOf(a0.GetOr(EmptySection), p0.GetOr(EmptySection), request, intervals))
  }

  /** The merge stage failed: some referent is stamped, and the first missing
      section is named in the key error. */
  ghost predicate MergeFailed(refs: map<Referent, Precis>, a0: Option<Section>, p0: Option<Section>, e: Error) {
    && AnyStamped(refs)
    && (a0.None? || p0.None?)
    && e == (if a0.None? then KeyError("requested_attributes") else KeyError("requested_predicates"))
  }

  /** The calls of a successful build: the credential fetches, the ledger
      lookups, the revocation stages' calls and the proof request, in that order. */
  ghost predicate Built(env: Environment, inp: DeltaInputs, a0: Option<Section>, p0: Option<Section>,
                        refs: map<Referent, Precis>, lo: LedgerObjects, states: RevStates, log: seq<Call>) {
    && (forall r :: r in inp.order ==> r in inp.refs)
    && exists ll, rl ::
         && Gathered(env, a0, p0, inp.order, inp.refs, inp.records, lo, ll)
         && Resolution(env, inp, lo.registries, refs, states, rl, None)
         && log == CredentialCalls(Dedup(CredIdsOf(inp.order, inp.refs))) + ll + rl + [Call.CreatePresentation]
  }

  /** The build stopped with `e`: in the first four stages, or after them in the
      revocation stages, or after those in the merge. */
  ghost predicate BuildFailed(env: Environment, inp: DeltaInputs, a0: Option<Section>, p0: Option<Section>,
                              refs: map<Referent, Precis>, lo: LedgerObjects, states: RevStates,
                              log: seq<Call>, e: Error) {
    && (forall r :: r in inp.order ==> r in inp.refs)
    && (|| GatherFailed(env, a0, p0, inp.order, inp.refs, inp.records, log, e)
        || exists ll, rl, re ::
             && Gathered(env, a0, p0, inp.order, inp.refs, inp.records, lo, ll)
             && Resolution(env, inp, lo.registries, refs, states, rl, re)
             && log == CredentialCalls(Dedup(CredIdsOf(inp.order, inp.refs))) + ll + rl
             && (re.Some? ==> e == re.value)
             && (re.None? ==> MergeFailed(refs, a0, p0, e)))
  }

  /** A failure in the first four stages stops the build. */
  lemma GatherStopsBuild(env: Environment, inp: DeltaInputs, a0: Option<Section>, p0: Option<Section>,
                         refs: map<Referent, Precis>, lo: LedgerObjects, states: RevStates, log: seq<Call>, e: Error)
    requires GatherFailed(env, a0, p0, inp.order, inp.refs, inp.records, log, e)
    requires NoProofCall(log)
    ensures !ProofCallLast(log)
    ensures BuildFailed(env, inp, a0, p0, refs, lo, states, log, e)
  {
  }

  /** The first four stages succeeded and `tail` is what the later stages did. */
  ghost predicate ContinuedFrom(env: Environment, inp: DeltaInputs, a0: Option<Section>, p0: Option<Section>,
                                refs: map<Referent, Precis>, lo: LedgerObjects, states: RevStates,
                                gatherLog: seq<Call>, ledgerLog: seq<Call>, revLog: seq<Call>, revErr: Option<Error>) {
    && Gathered(env, a0, p0, inp.order, inp.refs, inp.records, lo, ledgerLog)
    && gatherLog == CredentialCalls(Dedup(CredIdsOf(inp.order, inp.refs))) + ledgerLog
    && NoProofCall(gatherLog) && NoProofCall(revLog)
    && Resolution(env, inp, lo.registries, refs, states, revLog, revErr)
  }

  /** Every stage succeeded and the proof was asked for last: the build is complete. */
  lemma BuildCompletes(env: Environment, inp: DeltaInputs, a0: Option<Section>, p0: Option<Section>,
                       refs: map<Referent, Precis>, lo: LedgerObjects, states: RevStates,
                       gatherLog: seq<Call>, ledgerLog: seq<Call>, revLog: seq<Call>)
    requires ContinuedFrom(env, inp, a0, p0, refs, lo, states, gatherLog, ledgerLog, revLog, None)
    ensures ProofCallLast(gatherLog + (revLog + [Call.CreatePresentation]))
    ensures Built(env, inp, a0, p0, refs, lo, states, gatherLog + (revLog + [Call.CreatePresentation]))
  {
    ProofAskedLast(gatherLog, revLog);
    assert gatherLog + (revLog + [Call.CreatePresentation])
        == CredentialCalls(Dedup(CredIdsOf(inp.order, inp.refs))) + ledgerLog + revLog + [Call.CreatePresentation];
  }

  /** A failure after the first four stages, in the revocation stages (`revErr`)
      or in the merge, stops the build without a proof request. */
  lemma LaterStageStopsBuild(env: Environment, inp: DeltaInputs, a0: Option<Section>, p0: Option<Section>,
                             refs: map<Referent, Precis>, lo: LedgerObjects, states: RevStates,
                             gatherLog: seq<Call>, ledgerLog: seq<Call>, revLog: seq<Call>, revErr: Option<Error>,
                             e: Error)
    requires ContinuedFrom(env, inp, a0, p0, refs, lo, states, gatherLog, ledgerLog, revLog, revErr)
    requires revErr.Some? ==> e == revErr.value
    requires revErr.None? ==> MergeFailed(refs, a0, p0, e)
    ensures NoProofCall(gatherLog + revLog) && !ProofCallLast(gatherLog + revLog)
    ensures BuildFailed(env, inp, a0, p0, refs, lo, states, gatherLog + revLog, e)
  {
    NoProofCallAppend(gatherLog, revLog);
    assert gatherLog + revLog == CredentialCalls(Dedup(CredIdsOf(inp.order, inp.refs))) + ledgerLog + revLog;
  }

  /** The last two stages: the resolved timestamps are merged into the cleaned
      sections `rc`, then the holder is asked for the proof. `a0`, `p0` are the
      sections before the clean-up. The log holds the proof request exactly when
      the merge succeeded; otherwise the result is the merge's error. */
  method MergeAndAsk(env: Environment, request: ProofRequest, rc: RequestedCredentials,
                     order: seq<Referent>, refs: map<Referent, Precis>,
                     records: map<CredId, CredentialRecord>, lo: LedgerObjects, states: RevStates,
                     ghost a0: Option<Section>, ghost p0: Option<Section>)
    returns (result: Result<Proof, Error>, log: seq<Call>)
    requires rc.Valid() && OptValid(a0) && OptValid(p0)
    requires order == Dedup(a0.GetOr(EmptySection).order + p0.GetOr(EmptySection).order)
    requires ResolvedReferents(env, order, refs, records)
    requires LedgerObjectsOf(env, lo, records) && StatesCover(refs, records, states)
    requires Cleaned(a0, rc.attributes, records) && Cleaned(p0, rc.predicates, records)
    modifies rc
    ensures rc.Valid()
    ensures log == [] || log == [Call.CreatePresentation]
    ensures log == [Call.CreatePresentation] ==>
      && result == env.createPresentation(request, rc.attributes, rc.predicates, lo.schemas, lo.credDefs, states)
      && Prepared(env, order, refs, records, lo, states, a0, p0, rc.attributes, rc.predicates)
    ensures log == [] ==> result.Failure? && MergeFailed(refs, a0, p0, result.error)
  {
    log := [];
    ghost var cleanedAttrs, cleanedPreds := rc.attributes, rc.predicates;
    var err := rc.MergeTimestamps(order, refs);
    if err.Some? {
      result := Failure(err.value);
    } else {
      SectionsFinalized(a0, p0, cleanedAttrs, cleanedPreds, rc.attributes, rc.predicates, records, refs, order);
      log := [Call.CreatePresentation];
      result := env.createPresentation(request, rc.attributes, rc.predicates, lo.schemas, lo.credDefs, states);
    }
  }

  /** The stages after the first four, which succeeded on sections `a0`, `p0`
      with the calls `gatherLog`: the revocation stages, the merge and the proof
      request. Appended to `gatherLog`, the calls either end with the one proof
      request, made after every stage succeeded with the prepared inputs, or
      stop at the first failing stage with its error. */
  method FinishPresentation(env: Environment, request: ProofRequest, epochNow: Timestamp, rc: RequestedCredentials,
                            order: seq<Referent>, refs0: map<Referent, Precis>,
                            records: map<CredId, CredentialRecord>, lo: LedgerObjects,
                            ghost a0: Option<Section>, ghost p0: Option<Section>,
                            ghost gatherLog: seq<Call>, ghost ledgerLog: seq<Call>)
    returns (result: Result<Proof, Error>, refs: map<Referent, Precis>, states: RevStates, log: seq<Call>)
    requires rc.Valid() && OptValid(a0) && OptValid(p0)
    requires order == Dedup(a0.GetOr(EmptySection).order + p0.GetOr(EmptySection).order)
    requires Gathered(env, a0, p0, order, refs0, records, lo, ledgerLog)
    requires gatherLog == CredentialCalls(Dedup(CredIdsOf(order, refs0))) + ledgerLog && NoProofCall(gatherLog)
    requires Cleaned(a0, rc.attributes, records) && Cleaned(p0, rc.predicates, records)
    modifies rc
    ensures rc.Valid()
    ensures ProofCallLast(gatherLog + log) || (NoProofCall(gatherLog + log) && result.Failure?)
    ensures ProofCallLast(gatherLog + log) ==>
      && result == env.createPresentation(request, rc.attributes, rc.predicates, lo.schemas, lo.credDefs, states)
      && Prepared(env, order, refs, records, lo, states, a0, p0, rc.attributes, rc.predicates)
      && Built(env, DeltaInputs(env.getRevRegDelta, records, epochNow, order, refs0), a0, p0, refs, lo, states,
               gatherLog + log)
    ensures !ProofCallLast(gatherLog + log) ==>
      && result.Failure?
      && BuildFailed(env, DeltaInputs(env.getRevRegDelta, records, epochNow, order, refs0), a0, p0, refs, lo, states,
                     gatherLog + log, result.error)
  {
    ghost var inp := DeltaInputs(env.getRevRegDelta, records, epochNow, order, refs0);
    var revLog, err;
    refs, states, revLog, err := ResolveRevocation(env, records, epochNow, order, refs0, lo.registries);
    if err.Some? {
      result, log := Failure(err.value), revLog;
      LaterStageStopsBuild(env, inp, a0, p0, refs, lo, states, gatherLog, ledgerLog, revLog, err, err.value);
    } else {
      ResolvedAfterDeltas(env, inp);
      var askLog;
      result, askLog := MergeAndAsk(env, request, rc, order, refs, records, lo, states, a0, p0);
      if askLog == [] {
        log := revLog;
        LaterStageStopsBuild(env, inp, a0, p0, refs, lo, states, gatherLog, ledgerLog, revLog, None, result.error);
      } else {
        log := revLog + [Call.CreatePresentation];
        BuildCompletes(env, inp, a0, p0, refs, lo, states, gatherLog, ledgerLog, revLog);
      }
    }
  }

  /** The whole build. `intervals` is the interval map derived from the proof
      request and `epochNow` the time read once for the delta pass. Either the
      holder was asked for the proof once, as the last call, after every stage
      succeeded, with the prepared inputs, and its answer is the result; or the
      build stopped at the first stage that failed, with that stage's error, and
      never asked for a proof. */
  method CreatePresentation(env: Environment, request: ProofRequest, intervals: map<Referent, Interval>,
                            epochNow: Timestamp, rc: RequestedCredentials)
    returns (result: Result<Proof, Error>, log: seq<Call>,
             order: seq<Referent>, refs: map<Referent, Precis>,
             records: map<CredId, CredentialRecord>, lo: LedgerObjects, states: RevStates)
    requires rc.Valid()
    modifies rc
    ensures rc.Valid()
    ensures order == Dedup(old(rc.attributes).GetOr(EmptySection).order + old(rc.predicates).GetOr(EmptySection).order)
    ensures ProofCallLast(log) || (NoProofCall(log) && result.Failure?)
    ensures ProofCallLast(log) ==>
      && result == env.createPresentation(request, rc.attributes, rc.predicates, lo.schemas, lo.credDefs, states)
      && Prepared(env, order, refs, records, lo, states, old(rc.attributes), old(rc.predicates),
                  rc.attributes, rc.predicates)
      && Built(env, BuildInputs(env, request, intervals, epochNow, old(rc.attributes), old(rc.predicates), records),
               old(rc.attributes), old(rc.predicates), refs, lo, states, log)
    ensures !ProofCallLast(log) ==>
      && result.Failure?
      && BuildFailed(env, BuildInputs(env, request, intervals, epochNow, old(rc.attributes), old(rc.predicates), records),
                     old(rc.attributes), old(rc.predicates), refs, lo, states, log, result.error)
  {
    ghost var attrs0, preds0 := rc.attributes, rc.predicates;
    var refs0, err;
    ghost var ledgerLog;
    order, refs0, records, lo, log, err, ledgerLog := GatherInputs(env, request, intervals, rc);
    ghost var inp := DeltaInputs(env.getRevRegDelta, records, epochNow, order, refs0);
    assert inp == BuildInputs(env, request, intervals, epochNow, attrs0, preds0, records);
    refs, states := refs0, map[];
    if err.Some? {
      result := Failure(err.value);
      GatherStopsBuild(env, inp, attrs0, preds0, refs, lo, states, log, err.value);
    } else {
      var tail;
      result, refs, states, tail :=
        FinishPresentation(env, request, epochNow, rc, order, refs0, records, lo, attrs0, preds0, log, ledgerLog);
      log := log + tail;
    }
  }
}
