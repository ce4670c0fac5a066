/** Building `revocation_states`: one holder call per cached delta, filed under the
    delta's registry and timestamp. */
module RevocationStates {
  import opened Wrappers
  import opened Seqs
  import opened ProofTypes
  import opened Deltas

  /** `revocation_states`: registry id, then timestamp, to revocation state. */
  type RevStates = map<RevRegId, map<Timestamp, RevState>>

  /** What the pass reads: the tails cache, the holder, the fetched registry
      definitions and credentials, and the cached deltas in the order they were
      cached. */
  datatype StateInputs = StateInputs(
    tailsPath: TailsLookup,
    build: StateBuilder,
    registries: map<RevRegId, RevRegDef>,
    records: map<CredId, CredentialRecord>,
    deltas: seq<DeltaEntry>)

  /** The states built so far, the holder calls made, and the error that stopped
      the pass if any. */
  datatype StatesOutcome = StatesOutcome(states: RevStates, log: seq<Call>, err: Option<Error>)

  /** Every delta's registry and credential were fetched by the earlier stages. */
  ghost predicate Ready(inp: StateInputs) {
    forall i :: 0 <= i < |inp.deltas| ==>
      inp.deltas[i].revRegId in inp.registries && inp.deltas[i].credId in inp.records
  }

  /** The holder call that builds the state of delta `d`. */
  function StateCall(d: DeltaEntry): Call {
    CreateRevocationState(d.revRegId, d.credId, d.timestamp)
  }

  function StateCalls(ds: seq<DeltaEntry>): seq<Call> {
    seq(|ds|, i requires 0 <= i < |ds| => StateCall(ds[i]))
  }

  /** The handling of one cached delta (the body of the loop): open the registry's
      table, find the tails file, read the credential's revocation index (a
      `KeyError` when absent), and ask the holder for the state. */
  function StatesStep(inp: StateInputs, o: StatesOutcome, d: DeltaEntry): StatesOutcome
    requires d.revRegId in inp.registries && d.credId in inp.records
  {
    var rr := d.revRegId;
    var states := if rr in o.states then o.states else o.states[rr := map[]];
    var regDef := inp.registries[rr];
    var tails := inp.tailsPath(regDef);
    if tails.Failure? then StatesOutcome(states, o.log, Some(tails.error))
    else
      var credRevId := inp.records[d.credId].credRevId;
      if credRevId.None? then StatesOutcome(states, o.log, Some(KeyError("cred_rev_id")))
      else
        var built := inp.build(credRevId.value, regDef, d.delta, d.timestamp, tails.value);
        var log := o.log + [StateCall(d)];
        if built.Failure? then StatesOutcome(states, log, Some(built.error))
        else StatesOutcome(states[rr := states[rr][d.timestamp := built.value]], log, None)
  }

  /** The pass over the first `n` deltas; the first error ends it. */
  function StatesFold(inp: StateInputs, n: nat): StatesOutcome
    requires Ready(inp) && n <= |inp.deltas|
    decreases n
  {
    if n == 0 then StatesOutcome(map[], [], None)
    else
      var prev := StatesFold(inp, n - 1);
      if prev.err.Some? then prev else StatesStep(inp, prev, inp.deltas[n - 1])
  }

  /** A failure is final. */
  lemma {:induction false} StatesFailureSticks(inp: StateInputs, i: nat, n: nat)
    requires Ready(inp) && i <= n <= |inp.deltas| && StatesFold(inp, i).err.Some?
    ensures StatesFold(inp, n) == StatesFold(inp, i)
    decreases n - i
  {
    if i < n {
      StatesFailureSticks(inp, i, n - 1);
    }
  }

  /** The body of the loop for one cached delta, in the source's order of steps. */
  method BuildState(tailsPath: TailsLookup, build: StateBuilder, registries: map<RevRegId, RevRegDef>,
                    records: map<CredId, CredentialRecord>, deltas: seq<DeltaEntry>, i: nat,
                    states0: RevStates, log0: seq<Call>)
    returns (o: StatesOutcome)
    requires Ready(StateInputs(tailsPath, build, registries, records, deltas)) && i < |deltas|
    ensures o == StatesStep(StateInputs(tailsPath, build, registries, records, deltas),
                            StatesOutcome(states0, log0, None), deltas[i])
  {
    var d := deltas[i];
    var states, log := states0, log0;
    if d.revRegId !in states {
      states := states[d.revRegId := map[]];
    }
    var regDef := registries[d.revRegId];
    var tails := tailsPath(regDef);
    if tails.Failure? {
      return StatesOutcome(states, log, Some(tails.error));
    }
    var credRevId := records[d.credId].credRevId;
    if credRevId.None? {
      return StatesOutcome(states, log, Some(KeyError("cred_rev_id")));
    }
    log := log + [CreateRevocationState(d.revRegId, d.credId, d.timestamp)];
    var built := build(credRevId.value, regDef, d.delta, d.timestamp, tails.value);
    if built.Failure? {
      return StatesOutcome(states, log, Some(built.error));
    }
    states := states[d.revRegId := states[d.revRegId][d.timestamp := built.value]];
    o := StatesOutcome(states, log, None);
  }

  /** The loop over `revoc_reg_deltas.values()`; it is the fold `StatesFold`. */
  method BuildRevocationStates(tailsPath: TailsLookup, build: StateBuilder, registries: map<RevRegId, RevRegDef>,
                               records: map<CredId, CredentialRecord>, deltas: seq<DeltaEntry>)
    returns (states: RevStates, log: seq<Call>, err: Option<Error>)
    requires Ready(StateInputs(tailsPath, build, registries, records, deltas))
    ensures StatesOutcome(states, log, err) == StatesFold(StateInputs(tailsPath, build, registries, records, deltas), |deltas|)
  {
    ghost var inp := StateInputs(tailsPath, build, registries, records, deltas);
    states, log, err := map[], [], None;
    for i := 0 to |deltas|
      invariant StatesFold(inp, i) == StatesOutcome(states, log, None)
    {
      var o := BuildState(tailsPath, build, registries, records, deltas, i, states, log);
      assert StatesFold(inp, i + 1) == o;
      states, log := o.states, o.log;
      if o.err.Some? {
        err := o.err;
        StatesFailureSticks(inp, i + 1, |deltas|);
        return;
      }
    }
  }

  /** The tails file of delta `i`'s registry, its credential's revocation index
      and the holder's state for it are all available. */
  ghost predicate EntryBuilt(inp: StateInputs, i: int)
    requires Ready(inp) && 0 <= i < |inp.deltas|
  {
    var d := inp.deltas[i];
    var regDef := inp.registries[d.revRegId];
    var credRevId := inp.records[d.credId].credRevId;
    && inp.tailsPath(regDef).Success?
    && credRevId.Some?
    && inp.build(credRevId.value, regDef, d.delta, d.timestamp, inp.tailsPath(regDef).value).Success?
  }

  /** The holder's state for delta `i`. */
  ghost function BuiltState(inp: StateInputs, i: int): RevState
    requires Ready(inp) && 0 <= i < |inp.deltas| && EntryBuilt(inp, i)
  {
    var d := inp.deltas[i];
    var regDef := inp.registries[d.revRegId];
    inp.build(inp.records[d.credId].credRevId.value, regDef, d.delta, d.timestamp, inp.tailsPath(regDef).value).value
  }

  /** No later delta among the first `n` has the registry and timestamp of delta `i`. */
  ghost predicate LastOfItsSlot(inp: StateInputs, i: int, n: int)
    requires 0 <= i < |inp.deltas| && n <= |inp.deltas|
  {
    forall j :: i < j < n ==>
      inp.deltas[j].revRegId != inp.deltas[i].revRegId || inp.deltas[j].timestamp != inp.deltas[i].timestamp
  }

  lemma StateCallsSnoc(ds: seq<DeltaEntry>, n: nat)
    requires n < |ds|
    ensures StateCalls(ds[..n + 1]) == StateCalls(ds[..n]) + [StateCall(ds[n])]
  {
  }

  /** The timestamp table of registry `rr`, empty when it has none yet. */
  function Table(states: RevStates, rr: RevRegId): map<Timestamp, RevState> {
    if rr in states then states[rr] else map[]
  }

  /** A step that succeeds built delta `n`, logged its holder call and filed its
      state under its registry and timestamp. */
  lemma StepBuilt(inp: StateInputs, n: nat)
    requires Ready(inp) && n < |inp.deltas| && StatesFold(inp, n + 1).err.None?
    ensures StatesFold(inp, n).err.None? && EntryBuilt(inp, n)
    ensures var prev, o, d := StatesFold(inp, n), StatesFold(inp, n + 1), inp.deltas[n];
      && o.log == prev.log + [StateCall(d)]
      && o.states == prev.states[d.revRegId := Table(prev.states, d.revRegId)[d.timestamp := BuiltState(inp, n)]]
  {
  }


  /** When none of the first `n` deltas fails, the holder was called once per
      delta, in order, and every one of them was built. */
  lemma {:induction false} FoldLog(inp: StateInputs, n: nat)
    requires Ready(inp) && n <= |inp.deltas| && StatesFold(inp, n).err.None?
    ensures StatesFold(inp, n).log == StateCalls(inp.deltas[..n])
    ensures forall i :: 0 <= i < n ==> EntryBuilt(inp, i)
    decreases n
  {
    if n > 0 {
      var m := n - 1;
      StepBuilt(inp, m);
      FoldLog(inp, m);
      StateCallsSnoc(inp.deltas, m);
    }
  }

  /** A registry has a table exactly when some delta is in that registry. */
  lemma {:induction false} FoldRegistries(inp: StateInputs, n: nat)
    requires Ready(inp) && n <= |inp.deltas| && StatesFold(inp, n).err.None?
    ensures StatesFold(inp, n).states.Keys == (set i | 0 <= i < n :: inp.deltas[i].revRegId)
    decreases n
  {
    if n > 0 {
      var m := n - 1;
      StepBuilt(inp, m);
      FoldRegistries(inp, m);
      var before := set i | 0 <= i < m :: inp.deltas[i].revRegId;
      assert (set i | 0 <= i < n :: inp.deltas[i].revRegId) == before + {inp.deltas[m].revRegId};
    }
  }

  /** The timestamps of registry `rr` among the first `n` deltas. */
  ghost function TimestampsOf(inp: StateInputs, rr: RevRegId, n: nat): set<Timestamp>
    requires n <= |inp.deltas|
  {
    set i | 0 <= i < n && inp.deltas[i].revRegId == rr :: inp.deltas[i].timestamp
  }

  lemma TimestampsOfSnoc(inp: StateInputs, rr: RevRegId, m: nat)
    requires m < |inp.deltas|
    ensures TimestampsOf(inp, rr, m + 1) ==
      TimestampsOf(inp, rr, m) + if inp.deltas[m].revRegId == rr then {inp.deltas[m].timestamp} else {}
  {
  }

  /** The table of a registry holds exactly the timestamps of its deltas. */
  lemma {:induction false} FoldTimestamps(inp: StateInputs, n: nat)
    requires Ready(inp) && n <= |inp.deltas| && StatesFold(inp, n).err.None?
    ensures forall rr :: rr in StatesFold(inp, n).states ==> StatesFold(inp, n).states[rr].Keys == TimestampsOf(inp, rr, n)
    ensures forall rr :: rr !in StatesFold(inp, n).states ==> TimestampsOf(inp, rr, n) == {}
    decreases n
  {
    if n > 0 {
      var m := n - 1;
      StepBuilt(inp, m);
      FoldTimestamps(inp, m);
      forall rr
        ensures TimestampsOf(inp, rr, n) ==
          TimestampsOf(inp, rr, m) + if inp.deltas[m].revRegId == rr then {inp.deltas[m].timestamp} else {}
      {
        TimestampsOfSnoc(inp, rr, m);
      }
    }
  }

  /** Under each registry and timestamp is the state built for the last delta
      with that registry and timestamp. */
  lemma {:induction false} FoldValues(inp: StateInputs, n: nat)
    requires Ready(inp) && n <= |inp.deltas| && StatesFold(inp, n).err.None?
    ensures forall i :: 0 <= i < n && LastOfItsSlot(inp, i, n) ==>
      && inp.deltas[i].revRegId in StatesFold(inp, n).states
      && inp.deltas[i].timestamp in StatesFold(inp, n).states[inp.deltas[i].revRegId]
      && EntryBuilt(inp, i)
      && StatesFold(inp, n).states[inp.deltas[i].revRegId][inp.deltas[i].timestamp] == BuiltState(inp, i)
    decreases n
  {
    if n > 0 {
      var m := n - 1;
      StepBuilt(inp, m);
      FoldValues(inp, m);
      forall i | 0 <= i < m && LastOfItsSlot(inp, i, n)
        ensures LastOfItsSlot(inp, i, m)
      {
      }
    }
  }

  /** Where a failed pass stopped: delta `n`'s tails file, its credential's
      revocation index, or the holder call for it failed, in that order; the holder
      calls before it are logged, and its own only when it was made. */
  ghost predicate StoppedAt(inp: StateInputs, n: int, o: StatesOutcome)
    requires Ready(inp) && 0 <= n < |inp.deltas|
  {
    var d := inp.deltas[n];
    var regDef := inp.registries[d.revRegId];
    var tails := inp.tailsPath(regDef);
    var credRevId := inp.records[d.credId].credRevId;
    if tails.Failure? then o.err == Some(tails.error) && o.log == StateCalls(inp.deltas[..n])
    else if credRevId.None? then o.err == Some(KeyError("cred_rev_id")) && o.log == StateCalls(inp.deltas[..n])
    else
      var built := inp.build(credRevId.value, regDef, d.delta, d.timestamp, tails.value);
      built.Failure? && o.err == Some(built.error) && o.log == StateCalls(inp.deltas[..n + 1])
  }

  /** A failed pass stopped at its first delta that could not be built, and the
      error is that delta's. */
  lemma {:induction false} StatesFoldFails(inp: StateInputs, n: nat)
    requires Ready(inp) && n <= |inp.deltas| && StatesFold(inp, n).err.Some?
    ensures exists k :: 0 <= k < n && (forall i :: 0 <= i < k ==> EntryBuilt(inp, i)) &&
                        StoppedAt(inp, k, StatesFold(inp, n))
    decreases n
  {
    var prev := StatesFold(inp, n - 1);
    if prev.err.Some? {
      StatesFoldFails(inp, n - 1);
    } else {
      FoldLog(inp, n - 1);
      StateCallsSnoc(inp.deltas, n - 1);
      assert StoppedAt(inp, n - 1, StatesFold(inp, n));
    }
  }

  /** Two deltas of one registry that resolve to the same timestamp cause two
      holder calls, and the second state replaces the first. */
  lemma RepeatedSlotBuiltTwice(inp: StateInputs)
    requires Ready(inp) && |inp.deltas| == 2
    requires inp.deltas[0].revRegId == inp.deltas[1].revRegId && inp.deltas[0].timestamp == inp.deltas[1].timestamp
    requires StatesFold(inp, 2).err.None?
    ensures var o, rr, ts := StatesFold(inp, 2), inp.deltas[0].revRegId, inp.deltas[0].timestamp;
      && o.log == [StateCall(inp.deltas[0]), StateCall(inp.deltas[1])]
      && o.states.Keys == {rr} && o.states[rr].Keys == {ts}
      && EntryBuilt(inp, 1) && o.states[rr][ts] == BuiltState(inp, 1)
  {
    FoldLog(inp, 2);
    FoldRegistries(inp, 2);
    FoldTimestamps(inp, 2);
    FoldValues(inp, 2);
    assert inp.deltas[..2] == inp.deltas;
    assert LastOfItsSlot(inp, 1, 2);
    assert (set i | 0 <= i < 2 :: inp.deltas[i].revRegId) == {inp.deltas[0].revRegId};
    assert TimestampsOf(inp, inp.deltas[0].revRegId, 2) == {inp.deltas[0].timestamp};
  }

  /** With a single cached delta, the one state under its registry and timestamp
      is built from the revocation index of the credential the delta names, and
      from no other credential's. */
  lemma SingleDeltaUsesItsCredential(inp: StateInputs, e: DeltaEntry, path: string)
    requires inp.deltas == [e] && e.revRegId in inp.registries && e.credId in inp.records
    requires inp.records[e.credId].credRevId.Some?
    requires inp.tailsPath(inp.registries[e.revRegId]) == Success(path)
    requires inp.build(inp.records[e.credId].credRevId.value, inp.registries[e.revRegId], e.delta, e.timestamp, path).Success?
    ensures var o := StatesFold(inp, 1);
      && o.err.None?
      && o.log == [StateCall(e)]
      && o.states == map[e.revRegId := map[e.timestamp :=
           inp.build(inp.records[e.credId].credRevId.value, inp.registries[e.revRegId], e.delta, e.timestamp, path).value]]
  {
    assert Ready(inp);
    assert StatesFold(inp, 1) == StatesStep(inp, StatesOutcome(map[], [], None), e);
  }
}
