/** The revocation-delta pass: for each referent whose credential is revocable and
    whose request carries a non-revocation interval, the delta for that registry
    and interval is fetched once, and the delta's timestamp is stamped onto every
    referent that uses the same credential. */
module Deltas {
  import opened Wrappers
  import opened Seqs
  import opened ProofTypes

  /** The key of the delta cache, `f"{rev_reg_id}_{from}_{to}"`: both bounds are
      integers, so the string is determined by the triple and determines it. */
  datatype DeltaKey = DeltaKey(revRegId: RevRegId, from: Timestamp, to: Timestamp)

  /** A cached delta: the registry, the credential whose referent asked for it,
      the delta and the ledger's timestamp for it. */
  datatype DeltaEntry = DeltaEntry(revRegId: RevRegId, credId: CredId, delta: Delta, timestamp: Timestamp)

  /** The `requested_referents` being stamped, the `revoc_reg_deltas` cache with its
      key order, and the ledger calls made so far. */
  datatype DeltaState = DeltaState(
    refs: map<Referent, Precis>,
    keyOrder: seq<DeltaKey>,
    entries: map<DeltaKey, DeltaEntry>,
    log: seq<Call>)

  /** A state after some referents, and the error that stopped the pass if any. */
  datatype DeltaOutcome = DeltaOutcome(state: DeltaState, err: Option<Error>)

  /** What the pass reads: the ledger's delta lookup, the fetched credentials, the
      time captured once for the whole pass, and the referents in dictionary order. */
  datatype DeltaInputs = DeltaInputs(
    fetch: DeltaFetcher,
    records: map<CredId, CredentialRecord>,
    epochNow: Timestamp,
    order: seq<Referent>,
    refs: map<Referent, Precis>)

  /** The referents as the first pass builds them: one entry per name in `order`,
      every credential fetched, no timestamp yet. */
  ghost predicate WellFormed(inp: DeltaInputs) {
    && (forall r :: r in inp.refs <==> r in inp.order)
    && (forall r :: r in inp.refs ==> inp.refs[r].credId in inp.records && inp.refs[r].timestamp.None?)
  }

  /** A `non_revoked` value drives a fetch only when it is a non-empty dictionary. */
  predicate HasInterval(iv: Option<Interval>) {
    iv.Some? && (iv.value.from.Some? || iv.value.to.Some?)
  }

  /** The cache key: absent bounds default to 0 and to the captured time. */
  function KeyFor(revRegId: RevRegId, iv: Interval, epochNow: Timestamp): DeltaKey {
    DeltaKey(revRegId, iv.from.GetOr(0), iv.to.GetOr(epochNow))
  }

  /** The ledger call that fetches the delta of key `k`. */
  function DeltaCall(k: DeltaKey): Call {
    GetRevRegDelta(k.revRegId, k.from, k.to)
  }

  function DeltaCalls(keys: seq<DeltaKey>): seq<Call> {
    seq(|keys|, i requires 0 <= i < |keys| => DeltaCall(keys[i]))
  }

  /** Referent `q` asks for a delta on its own: its credential is revocable and it
      carries an interval. */
  ghost predicate Qualifies(inp: DeltaInputs, q: Referent)
    requires WellFormed(inp)
  {
    q in inp.refs && inp.records[inp.refs[q].credId].revRegId.Some? && HasInterval(inp.refs[q].nonRevoked)
  }

  /** The cache key of a qualifying referent. */
  ghost function QualKey(inp: DeltaInputs, q: Referent): DeltaKey
    requires WellFormed(inp) && Qualifies(inp, q)
  {
    var p := inp.refs[q];
    KeyFor(inp.records[p.credId].revRegId.value, p.nonRevoked.value, inp.epochNow)
  }

  /** `b` has the same referents as `a`, each with the same credential and
      interval; only timestamps may differ. */
  ghost predicate SameReferents(a: map<Referent, Precis>, b: map<Referent, Precis>) {
    && (forall r :: r in a <==> r in b)
    && (forall r :: r in a ==> b[r].credId == a[r].credId && b[r].nonRevoked == a[r].nonRevoked)
  }

  /** Every referent using credential `c` gets timestamp `ts`; the others keep theirs. */
  function Stamp(refs: map<Referent, Precis>, c: CredId, ts: Timestamp): map<Referent, Precis> {
    map r | r in refs :: if refs[r].credId == c then refs[r].(timestamp := Some(ts)) else refs[r]
  }

  /** Stamping changes timestamps only, and exactly those of the credential's referents. */
  lemma StampProperties(refs: map<Referent, Precis>, c: CredId, ts: Timestamp)
    ensures SameReferents(refs, Stamp(refs, c, ts))
    ensures forall r :: r in refs ==>
      Stamp(refs, c, ts)[r].timestamp == if refs[r].credId == c then Some(ts) else refs[r].timestamp
  {
  }

  /** The handling of one referent (the body of the outer loop). In the pass the
      referent and its credential are always known; the first guard only makes
      the function total. */
  function DeltaStep(fetch: DeltaFetcher, records: map<CredId, CredentialRecord>, epochNow: Timestamp,
                     st: DeltaState, reft: Referent): DeltaOutcome
  {
    if reft !in st.refs || st.refs[reft].credId !in records then
      DeltaOutcome(st, None)
    else
    var precis := st.refs[reft];
    var rec := records[precis.credId];
    if rec.revRegId.None? || precis.timestamp.Some? || !HasInterval(precis.nonRevoked) then
      DeltaOutcome(st, None)
    else
      var key := KeyFor(rec.revRegId.value, precis.nonRevoked.value, epochNow);
      if key in st.entries then
        DeltaOutcome(st.(refs := Stamp(st.refs, precis.credId, st.entries[key].timestamp)), None)
      else
        var fetched := fetch(key.revRegId, key.from, key.to);
        if fetched.Failure? then
          DeltaOutcome(st.(log := st.log + [DeltaCall(key)]), Some(fetched.error))
        else
          var entry := DeltaEntry(key.revRegId, precis.credId, fetched.value.0, fetched.value.1);
          DeltaOutcome(
            DeltaState(Stamp(st.refs, precis.credId, entry.timestamp), st.keyOrder + [key],
                       st.entries[key := entry], st.log + [DeltaCall(key)]),
            None)
  }

  /** The pass over the first `n` referents; the first failed fetch ends it. */
  function DeltaFold(inp: DeltaInputs, n: nat): (o: DeltaOutcome)
    requires n <= |inp.order|
    decreases n
  {
    if n == 0 then
      DeltaOutcome(DeltaState(inp.refs, [], map[], []), None)
    else
      var prev := DeltaFold(inp, n - 1);
      if prev.err.Some? then prev else DeltaStep(inp.fetch, inp.records, inp.epochNow, prev.state, inp.order[n - 1])
  }

  /** A failure is final. */
  lemma {:induction false} FoldFailureSticks(inp: DeltaInputs, i: nat, n: nat)
    requires i <= n <= |inp.order| && DeltaFold(inp, i).err.Some?
    ensures DeltaFold(inp, n) == DeltaFold(inp, i)
    decreases n - i
  {
    if i < n {
      FoldFailureSticks(inp, i, n - 1);
    }
  }

  /** The pass changes timestamps only. */
  lemma {:induction false} FoldSameReferents(inp: DeltaInputs, n: nat)
    requires n <= |inp.order|
    ensures SameReferents(inp.refs, DeltaFold(inp, n).state.refs)
  {
    if n > 0 {
      FoldSameReferents(inp, n - 1);
      var prev := DeltaFold(inp, n - 1);
      forall c, ts {
        StampProperties(prev.state.refs, c, ts);
      }
    }
  }

  /** The inner loop: give the timestamp `ts` to every referent whose
      credential is `c`. */
  method StampReferents(order: seq<Referent>, refs: map<Referent, Precis>, c: CredId, ts: Timestamp)
    returns (stamped: map<Referent, Precis>)
    requires forall r :: r in refs <==> r in order
    ensures stamped == Stamp(refs, c, ts)
  {
    stamped := refs;
    for j := 0 to |order|
      invariant forall r :: r in stamped <==> r in refs
      invariant forall r :: r in stamped ==>
        stamped[r] == if r in order[..j] && refs[r].credId == c then refs[r].(timestamp := Some(ts)) else refs[r]
    {
      var stampMe := stamped[order[j]];
      if stampMe.credId == c {
        stamped := stamped[order[j] := stampMe.(timestamp := Some(ts))];
      }
      SliceSnoc(order, j);
    }
    assert order[..|order|] == order;
  }

  /** The body of the outer loop for one referent, in the source's order of checks. */
  method ProcessReferent(fetch: DeltaFetcher, records: map<CredId, CredentialRecord>, epochNow: Timestamp,
                         order: seq<Referent>, st: DeltaState, reft: Referent)
    returns (o: DeltaOutcome)
    requires forall r :: r in st.refs <==> r in order
    requires reft in st.refs && st.refs[reft].credId in records
    ensures o == DeltaStep(fetch, records, epochNow, st, reft)
  {
    o := DeltaOutcome(st, None);
    var precis := st.refs[reft];
    var credentialId := precis.credId;
    if records[credentialId].revRegId.None? {
      return;
    }
    if precis.timestamp.Some? {
      return;
    }
    var revRegId := records[credentialId].revRegId.value;
    if HasInterval(precis.nonRevoked) {
      var interval := precis.nonRevoked.value;
      var key := DeltaKey(revRegId, interval.from.GetOr(0), interval.to.GetOr(epochNow));
      var cur := st;
      if key !in cur.entries {
        cur := cur.(log := cur.log + [GetRevRegDelta(revRegId, key.from, key.to)]);
        var fetched := fetch(revRegId, key.from, key.to);
        if fetched.Failure? {
          return DeltaOutcome(cur, Some(fetched.error));
        }
        var (delta, deltaTimestamp) := fetched.value;
        cur := cur.(keyOrder := cur.keyOrder + [key],
                    entries := cur.entries[key := DeltaEntry(revRegId, credentialId, delta, deltaTimestamp)]);
      }
      var stamped := StampReferents(order, cur.refs, credentialId, cur.entries[key].timestamp);
      o := DeltaOutcome(cur.(refs := stamped), None);
    }
  }

  /** The pass over all referents; it is the fold `DeltaFold`. */
  method CollectDeltas(fetch: DeltaFetcher, records: map<CredId, CredentialRecord>, epochNow: Timestamp,
                       order: seq<Referent>, refs: map<Referent, Precis>)
    returns (st: DeltaState, err: Option<Error>)
    requires WellFormed(DeltaInputs(fetch, records, epochNow, order, refs))
    ensures DeltaOutcome(st, err) == DeltaFold(DeltaInputs(fetch, records, epochNow, order, refs), |order|)
  {
    ghost var inp := DeltaInputs(fetch, records, epochNow, order, refs);
    st := DeltaState(refs, [], map[], []);
    err := None;
    for i := 0 to |order|
      invariant DeltaFold(inp, i) == DeltaOutcome(st, None)
    {
      FoldSameReferents(inp, i);
      var o := ProcessReferent(fetch, records, epochNow, order, st, order[i]);
      if o.err.Some? {
        st, err := o.state, o.err;
        FoldFailureSticks(inp, i + 1, |order|);
        return;
      }
      st := o.state;
    }
  }
}
