/** What the delta pass achieves. Each credential takes its timestamp from the
    first referent, in dictionary order, that uses it and asks for a delta on its
    own (`FirstQualifier`); the cache holds one fetched delta per key. */
module DeltaProperties {
  import opened Wrappers
  import opened Seqs
  import opened ProofTypes
  import opened Deltas

  /** The cache key of the first referent among `order[..n]` that uses
      credential `c` and qualifies. */
  ghost function FirstKey(inp: DeltaInputs, c: CredId, n: nat): Option<DeltaKey>
    requires WellFormed(inp) && n <= |inp.order|
    decreases n
  {
    if n == 0 then None
    else
      var prev := FirstKey(inp, c, n - 1);
      var q := inp.order[n - 1];
      if prev.Some? then prev
      else if Qualifies(inp, q) && inp.refs[q].credId == c then Some(QualKey(inp, q))
      else None
  }

  /** `order[j]` is the first referent among the referents in order that uses
      credential `c` and qualifies. */
  ghost predicate FirstQualifierAt(inp: DeltaInputs, c: CredId, j: int)
    requires WellFormed(inp)
  {
    && 0 <= j < |inp.order|
    && Qualifies(inp, inp.order[j]) && inp.refs[inp.order[j]].credId == c
    && forall i :: 0 <= i < j ==> !(Qualifies(inp, inp.order[i]) && inp.refs[inp.order[i]].credId == c)
  }

  /** A first key is the key of the first qualifier of `c`; there is none exactly
      when no referent among `order[..n]` both qualifies and uses `c`. */
  lemma {:induction false} FirstKeySpec(inp: DeltaInputs, c: CredId, n: nat)
    requires WellFormed(inp) && n <= |inp.order|
    ensures FirstKey(inp, c, n).Some? ==>
      exists j :: 0 <= j < n && FirstQualifierAt(inp, c, j) && QualKey(inp, inp.order[j]) == FirstKey(inp, c, n).value
    ensures FirstKey(inp, c, n).None? <==>
      forall j :: 0 <= j < n ==> !(Qualifies(inp, inp.order[j]) && inp.refs[inp.order[j]].credId == c)
    decreases n
  {
    if n > 0 {
      FirstKeySpec(inp, c, n - 1);
    }
  }

  /** The timestamp that goes with first key `fk` in the cache of `st`. */
  ghost function Expected(st: DeltaState, fk: Option<DeltaKey>): Option<Timestamp> {
    if fk.Some? && fk.value in st.entries then Some(st.entries[fk.value].timestamp) else None
  }

  /** The cache holds each key once, in the order of the ledger calls, each as the
      ledger answered it; the referents keep their credentials and intervals. */
  ghost predicate CacheShape(inp: DeltaInputs, st: DeltaState) {
    && SameReferents(inp.refs, st.refs)
    && Distinct(st.keyOrder)
    && (forall k :: k in st.entries <==> k in st.keyOrder)
    && st.log == DeltaCalls(st.keyOrder)
    && (forall k :: k in st.entries ==>
          && st.entries[k].revRegId == k.revRegId
          && inp.fetch(k.revRegId, k.from, k.to) == Success((st.entries[k].delta, st.entries[k].timestamp)))
  }

  /** After `n` referents a key is cached exactly when it is the first key of some
      credential, and it is cached for that credential. */
  ghost predicate CacheFirst(inp: DeltaInputs, st: DeltaState, n: nat)
    requires WellFormed(inp) && n <= |inp.order|
  {
    && (forall k :: k in st.entries ==> FirstKey(inp, st.entries[k].credId, n) == Some(k))
    && (forall c :: FirstKey(inp, c, n).Some? ==> FirstKey(inp, c, n).value in st.entries)
  }

  /** After `n` referents every referent holds the timestamp cached under its
      credential's first key, and none if its credential has none yet. */
  ghost predicate StampsFirst(inp: DeltaInputs, st: DeltaState, n: nat)
    requires WellFormed(inp) && n <= |inp.order|
  {
    forall r :: r in st.refs ==> st.refs[r].timestamp == Expected(st, FirstKey(inp, st.refs[r].credId, n))
  }

  /** The state of the pass after `n` referents. */
  ghost predicate Tracks(inp: DeltaInputs, st: DeltaState, n: nat)
    requires WellFormed(inp) && n <= |inp.order|
  {
    CacheShape(inp, st) && CacheFirst(inp, st, n) && StampsFirst(inp, st, n)
  }

  lemma DeltaCallsSnoc(keys: seq<DeltaKey>, k: DeltaKey)
    ensures DeltaCalls(keys + [k]) == DeltaCalls(keys) + [DeltaCall(k)]
  {
  }

  /** The step skips a referent that does not qualify or is already stamped. */
  lemma StepIsSkip(inp: DeltaInputs, st: DeltaState, n: nat)
    requires WellFormed(inp) && n < |inp.order| && SameReferents(inp.refs, st.refs)
    requires !Qualifies(inp, inp.order[n]) || st.refs[inp.order[n]].timestamp.Some?
    ensures DeltaStep(inp.fetch, inp.records, inp.epochNow, st, inp.order[n]) == DeltaOutcome(st, None)
  {
  }

  /** The step stamps an unstamped qualifying referent whose key is cached. */
  lemma StepIsHit(inp: DeltaInputs, st: DeltaState, n: nat)
    requires WellFormed(inp) && n < |inp.order| && SameReferents(inp.refs, st.refs)
    requires Qualifies(inp, inp.order[n]) && st.refs[inp.order[n]].timestamp.None?
    requires QualKey(inp, inp.order[n]) in st.entries
    ensures var reft := inp.order[n];
      DeltaStep(inp.fetch, inp.records, inp.epochNow, st, reft) ==
      DeltaOutcome(st.(refs := Stamp(st.refs, inp.refs[reft].credId, st.entries[QualKey(inp, reft)].timestamp)), None)
  {
  }

  /** The step fetches the delta of an unstamped qualifying referent whose key is new. */
  lemma StepIsFetch(inp: DeltaInputs, st: DeltaState, n: nat)
    requires WellFormed(inp) && n < |inp.order| && SameReferents(inp.refs, st.refs)
    requires Qualifies(inp, inp.order[n]) && st.refs[inp.order[n]].timestamp.None?
    requires QualKey(inp, inp.order[n]) !in st.entries
    ensures var reft := inp.order[n];
      var c, key := inp.refs[reft].credId, QualKey(inp, reft);
      var fetched := inp.fetch(key.revRegId, key.from, key.to);
      DeltaStep(inp.fetch, inp.records, inp.epochNow, st, reft) ==
        if fetched.Failure? then DeltaOutcome(st.(log := st.log + [DeltaCall(key)]), Some(fetched.error))
        else DeltaOutcome(
          DeltaState(Stamp(st.refs, c, fetched.value.1), st.keyOrder + [key],
                     st.entries[key := DeltaEntry(key.revRegId, c, fetched.value.0, fetched.value.1)],
                     st.log + [DeltaCall(key)]),
          None)
  {
  }

  /** Skipping keeps the state tracked. */
  lemma TracksSkip(inp: DeltaInputs, st: DeltaState, n: nat)
    requires WellFormed(inp) && n < |inp.order| && Tracks(inp, st, n)
    requires var reft := inp.order[n];
      !Qualifies(inp, reft) || FirstKey(inp, inp.refs[reft].credId, n).Some?
    ensures Tracks(inp, st, n + 1)
  {
    var m := n + 1;
    forall c
      ensures FirstKey(inp, c, m) == FirstKey(inp, c, n)
    {
    }
    assert CacheFirst(inp, st, m);
    assert StampsFirst(inp, st, m);
  }

  /** Past a referent that qualifies where no earlier one with its credential did,
      that credential gets the referent's key and every other keeps its own. */
  lemma FirstKeyAdvance(inp: DeltaInputs, n: nat)
    requires WellFormed(inp) && n < |inp.order|
    requires var reft := inp.order[n];
      Qualifies(inp, reft) && FirstKey(inp, inp.refs[reft].credId, n).None?
    ensures var reft := inp.order[n];
      FirstKey(inp, inp.refs[reft].credId, n + 1) == Some(QualKey(inp, reft))
    ensures var reft := inp.order[n];
      forall c :: c != inp.refs[reft].credId ==> FirstKey(inp, c, n + 1) == FirstKey(inp, c, n)
  {
  }

  /** The state after a cache hit on the key of the first qualifier `order[n]`. */
  ghost function HitState(inp: DeltaInputs, st: DeltaState, n: nat): DeltaState
    requires WellFormed(inp) && n < |inp.order| && Qualifies(inp, inp.order[n])
    requires QualKey(inp, inp.order[n]) in st.entries
  {
    var reft := inp.order[n];
    st.(refs := Stamp(st.refs, inp.refs[reft].credId, st.entries[QualKey(inp, reft)].timestamp))
  }

  lemma HitShape(inp: DeltaInputs, st: DeltaState, n: nat)
    requires WellFormed(inp) && n < |inp.order| && CacheShape(inp, st)
    requires Qualifies(inp, inp.order[n]) && QualKey(inp, inp.order[n]) in st.entries
    ensures CacheShape(inp, HitState(inp, st, n))
  {
    var reft := inp.order[n];
    StampProperties(st.refs, inp.refs[reft].credId, st.entries[QualKey(inp, reft)].timestamp);
  }

  lemma HitFirst(inp: DeltaInputs, st: DeltaState, n: nat)
    requires WellFormed(inp) && n < |inp.order| && CacheFirst(inp, st, n)
    requires var reft := inp.order[n];
      Qualifies(inp, reft) && FirstKey(inp, inp.refs[reft].credId, n).None? &&
      QualKey(inp, reft) in st.entries
    ensures CacheFirst(inp, HitState(inp, st, n), n + 1)
  {
    var c := inp.refs[inp.order[n]].credId;
    var m := n + 1;
    assert HitState(inp, st, n).entries == st.entries;
    FirstKeyAdvance(inp, n);
    forall k | k in st.entries
      ensures FirstKey(inp, st.entries[k].credId, m) == Some(k)
    {
      assert st.entries[k].credId != c;
    }
    forall c' | FirstKey(inp, c', m).Some?
      ensures FirstKey(inp, c', m).value in st.entries
    {
    }
  }

  lemma HitStamps(inp: DeltaInputs, st: DeltaState, n: nat)
    requires WellFormed(inp) && n < |inp.order| && StampsFirst(inp, st, n)
    requires var reft := inp.order[n];
      Qualifies(inp, reft) && FirstKey(inp, inp.refs[reft].credId, n).None? &&
      QualKey(inp, reft) in st.entries
    ensures StampsFirst(inp, HitState(inp, st, n), n + 1)
  {
    var reft := inp.order[n];
    var c, key := inp.refs[reft].credId, QualKey(inp, reft);
    var st' := HitState(inp, st, n);
    StampProperties(st.refs, c, st.entries[key].timestamp);
    FirstKeyAdvance(inp, n);
    forall r | r in st'.refs
      ensures st'.refs[r].timestamp == Expected(st', FirstKey(inp, st'.refs[r].credId, n + 1))
    {
    }
  }

  /** Stamping the first qualifier's credential with its cached timestamp keeps the
      state tracked. */
  lemma TracksHit(inp: DeltaInputs, st: DeltaState, n: nat)
    requires WellFormed(inp) && n < |inp.order| && Tracks(inp, st, n)
    requires var reft := inp.order[n];
      Qualifies(inp, reft) && FirstKey(inp, inp.refs[reft].credId, n).None? &&
      QualKey(inp, reft) in st.entries
    ensures Tracks(inp, HitState(inp, st, n), n + 1)
  {
    HitShape(inp, st, n);
    HitFirst(inp, st, n);
    HitStamps(inp, st, n);
  }

  /** The state after fetching `delta` and `ts` for the key of the first qualifier
      `order[n]`. */
  ghost function FetchState(inp: DeltaInputs, st: DeltaState, n: nat, delta: Delta, ts: Timestamp): DeltaState
    requires WellFormed(inp) && n < |inp.order| && Qualifies(inp, inp.order[n])
  {
    var reft := inp.order[n];
    var c, key := inp.refs[reft].credId, QualKey(inp, reft);
    DeltaState(Stamp(st.refs, c, ts), st.keyOrder + [key],
               st.entries[key := DeltaEntry(key.revRegId, c, delta, ts)], st.log + [DeltaCall(key)])
  }

  lemma FetchShape(inp: DeltaInputs, st: DeltaState, n: nat, delta: Delta, ts: Timestamp)
    requires WellFormed(inp) && n < |inp.order| && CacheShape(inp, st)
    requires Qualifies(inp, inp.order[n]) && QualKey(inp, inp.order[n]) !in st.entries
    requires var key := QualKey(inp, inp.order[n]);
      inp.fetch(key.revRegId, key.from, key.to) == Success((delta, ts))
    ensures CacheShape(inp, FetchState(inp, st, n, delta, ts))
  {
    var reft := inp.order[n];
    var c, key := inp.refs[reft].credId, QualKey(inp, reft);
    StampProperties(st.refs, c, ts);
    DistinctSnoc(st.keyOrder, key);
    DeltaCallsSnoc(st.keyOrder, key);
  }

  lemma FetchFirst(inp: DeltaInputs, st: DeltaState, n: nat, delta: Delta, ts: Timestamp)
    requires WellFormed(inp) && n < |inp.order| && CacheFirst(inp, st, n)
    requires var reft := inp.order[n];
      Qualifies(inp, reft) && FirstKey(inp, inp.refs[reft].credId, n).None? &&
      QualKey(inp, reft) !in st.entries
    ensures CacheFirst(inp, FetchState(inp, st, n, delta, ts), n + 1)
  {
    var c, key := inp.refs[inp.order[n]].credId, QualKey(inp, inp.order[n]);
    var st' := FetchState(inp, st, n, delta, ts);
    var m := n + 1;
    FirstKeyAdvance(inp, n);
    forall k | k in st'.entries
      ensures FirstKey(inp, st'.entries[k].credId, m) == Some(k)
    {
      if k != key {
        assert st.entries[k].credId != c;
      }
    }
    forall c' | FirstKey(inp, c', m).Some?
      ensures FirstKey(inp, c', m).value in st'.entries
    {
    }
  }

  lemma FetchStamps(inp: DeltaInputs, st: DeltaState, n: nat, delta: Delta, ts: Timestamp)
    requires WellFormed(inp) && n < |inp.order| && CacheFirst(inp, st, n) && StampsFirst(inp, st, n)
    requires var reft := inp.order[n];
      Qualifies(inp, reft) && FirstKey(inp, inp.refs[reft].credId, n).None? &&
      QualKey(inp, reft) !in st.entries
    ensures StampsFirst(inp, FetchState(inp, st, n, delta, ts), n + 1)
  {
    var c, key := inp.refs[inp.order[n]].credId, QualKey(inp, inp.order[n]);
    var st' := FetchState(inp, st, n, delta, ts);
    StampProperties(st.refs, c, ts);
    FirstKeyAdvance(inp, n);
    forall r | r in st'.refs
      ensures st'.refs[r].timestamp == Expected(st', FirstKey(inp, st'.refs[r].credId, n + 1))
    {
      if st.refs[r].credId != c {
        var fk := FirstKey(inp, st.refs[r].credId, n);
        assert fk.Some? ==> fk.value != key;
      }
    }
  }

  /** Caching a newly fetched delta under the first qualifier's key and stamping its
      credential keeps the state tracked. */
  lemma TracksFetch(inp: DeltaInputs, st: DeltaState, n: nat, delta: Delta, ts: Timestamp)
    requires WellFormed(inp) && n < |inp.order| && Tracks(inp, st, n)
    requires var reft := inp.order[n];
      Qualifies(inp, reft) && FirstKey(inp, inp.refs[reft].credId, n).None? &&
      QualKey(inp, reft) !in st.entries
    requires var key := QualKey(inp, inp.order[n]);
      inp.fetch(key.revRegId, key.from, key.to) == Success((delta, ts))
    ensures Tracks(inp, FetchState(inp, st, n, delta, ts), n + 1)
  {
    FetchShape(inp, st, n, delta, ts);
    FetchFirst(inp, st, n, delta, ts);
    FetchStamps(inp, st, n, delta, ts);
  }

  /** One referent more keeps the state tracked, unless its fetch fails. */
  lemma StepTracks(inp: DeltaInputs, st: DeltaState, n: nat)
    requires WellFormed(inp) && n < |inp.order| && Tracks(inp, st, n)
    ensures var o := DeltaStep(inp.fetch, inp.records, inp.epochNow, st, inp.order[n]);
      o.err.None? ==> Tracks(inp, o.state, n + 1)
  {
    var reft := inp.order[n];
    var c := inp.refs[reft].credId;
    if !Qualifies(inp, reft) {
      StepIsSkip(inp, st, n);
      TracksSkip(inp, st, n);
    } else if FirstKey(inp, c, n).Some? {
      assert st.refs[reft].timestamp == Expected(st, FirstKey(inp, c, n));
      StepIsSkip(inp, st, n);
      TracksSkip(inp, st, n);
    } else if QualKey(inp, reft) in st.entries {
      StepIsHit(inp, st, n);
      TracksHit(inp, st, n);
    } else {
      StepIsFetch(inp, st, n);
      var key := QualKey(inp, reft);
      var fetched := inp.fetch(key.revRegId, key.from, key.to);
      if fetched.Success? {
        TracksFetch(inp, st, n, fetched.value.0, fetched.value.1);
      }
    }
  }

  /** The pass over the first `n` referents, when no fetch failed, is tracked. */
  lemma {:induction false} FoldTracks(inp: DeltaInputs, n: nat)
    requires WellFormed(inp) && n <= |inp.order| && DeltaFold(inp, n).err.None?
    ensures Tracks(inp, DeltaFold(inp, n).state, n)
    decreases n
  {
    if n > 0 {
      var prev := DeltaFold(inp, n - 1);
      FoldTracks(inp, n - 1);
      StepTracks(inp, prev.state, n - 1);
    }
  }

  /** The ledger call that fetches the delta of `k` happens once, or not at all. */
  lemma DeltaCallsDistinct(keys: seq<DeltaKey>)
    requires Distinct(keys)
    ensures Distinct(DeltaCalls(keys))
  {
    var calls := DeltaCalls(keys);
    forall i, j | 0 <= i < j < |calls|
      ensures calls[i] != calls[j]
    {
      assert keys[i] != keys[j];
    }
  }

  /** What a pass that completes achieves:
      - one ledger call per cached key, each key fetched once, each as the ledger
        answered it, and only for a referent that qualifies;
      - a referent has a timestamp exactly when some referent with its credential
        qualifies, and it is the timestamp cached under the key of the first such
        referent;
      - hence referents that share a credential share their timestamp, and a
        non-revocable credential's referents stay unstamped. */
  lemma DeltaPassSucceeds(inp: DeltaInputs)
    requires WellFormed(inp)
    ensures var o := DeltaFold(inp, |inp.order|);
      o.err.None? ==>
        && SameReferents(inp.refs, o.state.refs)
        && o.state.log == DeltaCalls(o.state.keyOrder)
        && Distinct(o.state.log)
        && (forall k :: k in o.state.entries <==> k in o.state.keyOrder)
        && (forall k :: k in o.state.entries ==>
              && o.state.entries[k].revRegId == k.revRegId
              && inp.fetch(k.revRegId, k.from, k.to) == Success((o.state.entries[k].delta, o.state.entries[k].timestamp))
              && exists j :: FirstQualifierAt(inp, o.state.entries[k].credId, j) && QualKey(inp, inp.order[j]) == k)
        && (forall r :: r in o.state.refs ==>
              (o.state.refs[r].timestamp.Some? <==>
                 exists j :: 0 <= j < |inp.order| && Qualifies(inp, inp.order[j]) &&
                             inp.refs[inp.order[j]].credId == inp.refs[r].credId))
        && (forall r :: r in o.state.refs && o.state.refs[r].timestamp.Some? ==>
              exists j :: FirstQualifierAt(inp, inp.refs[r].credId, j) &&
                          QualKey(inp, inp.order[j]) in o.state.entries &&
                          o.state.refs[r].timestamp == Some(o.state.entries[QualKey(inp, inp.order[j])].timestamp))
        && (forall r1, r2 :: r1 in o.state.refs && r2 in o.state.refs && inp.refs[r1].credId == inp.refs[r2].credId ==>
              o.state.refs[r1].timestamp == o.state.refs[r2].timestamp)
        && (forall r :: r in o.state.refs && inp.records[inp.refs[r].credId].revRegId.None? ==>
              o.state.refs[r].timestamp.None?)
  {
    var n := |inp.order|;
    var o := DeltaFold(inp, n);
    if o.err.None? {
      FoldTracks(inp, n);
      var st := o.state;
      DeltaCallsDistinct(st.keyOrder);
      forall k | k in st.entries
        ensures exists j :: FirstQualifierAt(inp, st.entries[k].credId, j) && QualKey(inp, inp.order[j]) == k
      {
        FirstKeySpec(inp, st.entries[k].credId, n);
      }
      forall r | r in st.refs
        ensures st.refs[r].timestamp.Some? <==>
          exists j :: 0 <= j < n && Qualifies(inp, inp.order[j]) && inp.refs[inp.order[j]].credId == inp.refs[r].credId
        ensures st.refs[r].timestamp.Some? ==>
          exists j :: FirstQualifierAt(inp, inp.refs[r].credId, j) &&
                      QualKey(inp, inp.order[j]) in st.entries &&
                      st.refs[r].timestamp == Some(st.entries[QualKey(inp, inp.order[j])].timestamp)
      {
        FirstKeySpec(inp, inp.refs[r].credId, n);
      }
      forall r | r in st.refs && inp.records[inp.refs[r].credId].revRegId.None?
        ensures st.refs[r].timestamp.None?
      {
        FirstKeySpec(inp, inp.refs[r].credId, n);
      }
    }
  }

  /** A step fails only on a qualifying referent that is the first of its
      credential, whose key is new and whose fetch fails; the call is logged and
      nothing else changes. */
  lemma StepFails(inp: DeltaInputs, st: DeltaState, n: nat)
    requires WellFormed(inp) && n < |inp.order| && Tracks(inp, st, n)
    requires DeltaStep(inp.fetch, inp.records, inp.epochNow, st, inp.order[n]).err.Some?
    ensures FailsAt(inp, st, n)
  {
    var reft := inp.order[n];
    var c := inp.refs[reft].credId;
    if !Qualifies(inp, reft) {
      StepIsSkip(inp, st, n);
    } else if FirstKey(inp, c, n).Some? {
      assert false;
    } else if QualKey(inp, reft) in st.entries {
      StepIsHit(inp, st, n);
    } else {
      StepIsFetch(inp, st, n);
      FirstKeySpec(inp, c, n);
    }
  }

  /** The pass stopped at `order[n]`: from state `st`, the referent qualifies, no
      earlier referent with its credential did, its key is not cached, and the fetch
      of that key failed. */
  ghost predicate FailsAt(inp: DeltaInputs, st: DeltaState, n: nat)
    requires WellFormed(inp) && n < |inp.order|
  {
    var reft := inp.order[n];
    && FirstQualifierAt(inp, inp.refs[reft].credId, n)
    && reft in st.refs && st.refs[reft].timestamp.None?
    && QualKey(inp, reft) !in st.entries
    && var key := QualKey(inp, reft);
       var fetched := inp.fetch(key.revRegId, key.from, key.to);
       && fetched.Failure?
       && DeltaStep(inp.fetch, inp.records, inp.epochNow, st, reft) ==
            DeltaOutcome(st.(log := st.log + [DeltaCall(key)]), Some(fetched.error))
  }

  /** A failed pass has a first failing step, and its outcome is that step's. */
  lemma {:induction false} FoldFailurePoint(inp: DeltaInputs, n: nat)
    requires n <= |inp.order| && DeltaFold(inp, n).err.Some?
    ensures exists i :: 0 <= i < n && DeltaFold(inp, i).err.None? && DeltaFold(inp, i + 1) == DeltaFold(inp, n)
    decreases n
  {
    if DeltaFold(inp, n - 1).err.Some? {
      FoldFailurePoint(inp, n - 1);
    } else {
      assert DeltaFold(inp, n - 1 + 1) == DeltaFold(inp, n);
    }
  }

  /** What a pass that fails leaves behind: the failing referent is the first
      qualifier of its credential, its (new) key's fetch is the last ledger call,
      every key before it was fetched once, and the ledger's error is the result. */
  lemma DeltaPassFails(inp: DeltaInputs)
    requires WellFormed(inp)
    ensures var o := DeltaFold(inp, |inp.order|);
      o.err.Some? ==>
        exists n :: 0 <= n < |inp.order| && DeltaFold(inp, n).err.None? &&
          var st := DeltaFold(inp, n).state;
          && FailsAt(inp, st, n)
          && st.log == DeltaCalls(st.keyOrder) && Distinct(st.keyOrder)
          && o.state == st.(log := st.log + [DeltaCall(QualKey(inp, inp.order[n]))])
          && DeltaFold(inp, n + 1) == o
          && var key := QualKey(inp, inp.order[n]);
             o.err == Some(inp.fetch(key.revRegId, key.from, key.to).error)
  {
    var o := DeltaFold(inp, |inp.order|);
    if o.err.Some? {
      FoldFailurePoint(inp, |inp.order|);
      var n :| 0 <= n < |inp.order| && DeltaFold(inp, n).err.None? && DeltaFold(inp, n + 1) == o;
      FoldTracks(inp, n);
      StepFails(inp, DeltaFold(inp, n).state, n);
    }
  }

  /** A pass in which every qualifying referent's fetch succeeds completes. */
  lemma PassCompletes(inp: DeltaInputs)
    requires WellFormed(inp)
    requires forall j :: 0 <= j < |inp.order| && Qualifies(inp, inp.order[j]) ==>
      var k := QualKey(inp, inp.order[j]);
      inp.fetch(k.revRegId, k.from, k.to).Success?
    ensures DeltaFold(inp, |inp.order|).err.None?
  {
    DeltaPassFails(inp);
  }

  /** After a completed pass, a referent holds the timestamp the ledger gave for the
      key of the first qualifier of its credential. */
  lemma TimestampOfFirstQualifier(inp: DeltaInputs, r: Referent, j: int)
    requires WellFormed(inp) && DeltaFold(inp, |inp.order|).err.None?
    requires r in inp.refs && FirstQualifierAt(inp, inp.refs[r].credId, j)
    ensures var st, k := DeltaFold(inp, |inp.order|).state, QualKey(inp, inp.order[j]);
      && inp.fetch(k.revRegId, k.from, k.to).Success?
      && r in st.refs && st.refs[r].timestamp == Some(inp.fetch(k.revRegId, k.from, k.to).value.1)
  {
    var n, c := |inp.order|, inp.refs[r].credId;
    var st := DeltaFold(inp, n).state;
    FoldTracks(inp, n);
    FirstKeySpec(inp, c, n);
    assert Qualifies(inp, inp.order[j]) && inp.refs[inp.order[j]].credId == c;
    var j' :| 0 <= j' < n && FirstQualifierAt(inp, c, j') && QualKey(inp, inp.order[j']) == FirstKey(inp, c, n).value;
    assert j' == j;
    var k := QualKey(inp, inp.order[j]);
    assert k in st.entries;
    assert st.refs[r].timestamp == Some(st.entries[k].timestamp);
  }

  /** Referents whose keys coincide need not share a timestamp. Here `rc` (credential
      `y`, interval `ivJ`) comes first, then `ra` (credential `x`, interval `ivI`),
      then `rb` (credential `y`, interval `ivI`), all in registry `rr`. `ra` and `rb`
      both have the key of `ivI`, yet `rb` was already stamped through `rc` with
      the timestamp of `ivJ`. */
  lemma SharedKeyTimestampsDiffer(inp: DeltaInputs, rc: Referent, ra: Referent, rb: Referent, x: CredId, y: CredId,
                                  rr: RevRegId, ivI: Interval, ivJ: Interval, dI: Delta, tI: Timestamp, dJ: Delta, tJ: Timestamp)
    requires inp.order == [rc, ra, rb] && rc != ra && rc != rb && ra != rb && x != y
    requires inp.refs == map[rc := Precis(y, Some(ivJ), None), ra := Precis(x, Some(ivI), None),
                             rb := Precis(y, Some(ivI), None)]
    requires x in inp.records && inp.records[x].revRegId == Some(rr)
    requires y in inp.records && inp.records[y].revRegId == Some(rr)
    requires HasInterval(Some(ivI)) && HasInterval(Some(ivJ))
    requires var kI, kJ := KeyFor(rr, ivI, inp.epochNow), KeyFor(rr, ivJ, inp.epochNow);
      inp.fetch(kI.revRegId, kI.from, kI.to) == Success((dI, tI)) &&
      inp.fetch(kJ.revRegId, kJ.from, kJ.to) == Success((dJ, tJ))
    ensures WellFormed(inp)
    ensures QualKey(inp, ra) == QualKey(inp, rb)
    ensures var o := DeltaFold(inp, |inp.order|);
      && o.err.None? && ra in o.state.refs && rb in o.state.refs
      && o.state.refs[ra].timestamp == Some(tI) && o.state.refs[rb].timestamp == Some(tJ)
  {
    assert WellFormed(inp);
    assert Qualifies(inp, rc) && Qualifies(inp, ra) && Qualifies(inp, rb);
    assert QualKey(inp, rc) == KeyFor(rr, ivJ, inp.epochNow);
    assert QualKey(inp, ra) == KeyFor(rr, ivI, inp.epochNow) == QualKey(inp, rb);
    PassCompletes(inp);
    assert FirstQualifierAt(inp, y, 0);
    assert FirstQualifierAt(inp, x, 1);
    TimestampOfFirstQualifier(inp, ra, 1);
    TimestampOfFirstQualifier(inp, rb, 0);
  }

  /** A witness that a cache hit crosses credentials: a second credential in the
      same registry with the same interval is stamped with the cached key's
      timestamp, and the only cached delta names the first credential. */
  lemma CacheHitAcrossCredentials(inp: DeltaInputs, ra: Referent, rb: Referent, x: CredId, y: CredId,
                                  rr: RevRegId, iv: Interval, d: Delta, t: Timestamp)
    requires inp.order == [ra, rb] && ra != rb && x != y
    requires inp.refs == map[ra := Precis(x, Some(iv), None), rb := Precis(y, Some(iv), None)]
    requires x in inp.records && inp.records[x].revRegId == Some(rr)
    requires y in inp.records && inp.records[y].revRegId == Some(rr)
    requires HasInterval(Some(iv))
    requires var k := KeyFor(rr, iv, inp.epochNow); inp.fetch(k.revRegId, k.from, k.to) == Success((d, t))
    ensures var o, k := DeltaFold(inp, |inp.order|), KeyFor(rr, iv, inp.epochNow);
      && o.err.None?
      && o.state.keyOrder == [k]
      && o.state.entries == map[k := DeltaEntry(rr, x, d, t)]
      && o.state.log == [DeltaCall(k)]
      && ra in o.state.refs && rb in o.state.refs
      && o.state.refs[ra].timestamp == Some(t) && o.state.refs[rb].timestamp == Some(t)
  {
    var k := KeyFor(rr, iv, inp.epochNow);
    var s1 := DeltaFold(inp, 1);
    assert s1 == DeltaStep(inp.fetch, inp.records, inp.epochNow, DeltaFold(inp, 0).state, ra);
    assert s1.err.None? && s1.state.entries == map[k := DeltaEntry(rr, x, d, t)] && s1.state.keyOrder == [k];
    assert s1.state.refs[rb] == Precis(y, Some(iv), None);
    assert DeltaFold(inp, 2) == DeltaStep(inp.fetch, inp.records, inp.epochNow, s1.state, rb);
  }
}
