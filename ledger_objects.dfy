/** Fetching the schemas, credential definitions and revocation-registry definitions
    the fetched credentials refer to, each distinct id once. */
module LedgerObjects {
  import opened Wrappers
  import opened Seqs
  import opened ProofTypes

  /** The `schemas`, `cred_defs` and `revocation_registries` dictionaries. */
  datatype LedgerObjects = LedgerObjects(
    schemas: map<SchemaId, Schema>,
    credDefs: map<CredDefId, CredDef>,
    registries: map<RevRegId, RevRegDef>)

  const NoLedgerObjects := LedgerObjects(map[], map[], map[])

  /** A ledger lookup that the ledger answers. */
  ghost predicate LedgerCallSucceeds(env: Environment, c: Call) {
    match c
    case GetSchema(s) => env.getSchema(s).Success?
    case GetCredDef(d) => env.getCredDef(d).Success?
    case GetRevRegDef(r) => env.getRevRegDef(r).Success?
    case _ => false
  }

  /** A ledger lookup that the ledger refuses with `e`. */
  ghost predicate LedgerCallFails(env: Environment, c: Call, e: Error) {
    match c
    case GetSchema(s) => env.getSchema(s) == Failure(e)
    case GetCredDef(d) => env.getCredDef(d) == Failure(e)
    case GetRevRegDef(r) => env.getRevRegDef(r) == Failure(e)
    case _ => false
  }

  /** `log` holds each lookup that filled `lo`, once, and nothing else; every
      entry of `lo` is what the ledger returned for its id. */
  ghost predicate Tracked(env: Environment, lo: LedgerObjects, log: seq<Call>) {
    && Distinct(log)
    && (forall k :: 0 <= k < |log| ==> LedgerCallSucceeds(env, log[k]))
    && (forall s :: GetSchema(s) in log <==> s in lo.schemas)
    && (forall d :: GetCredDef(d) in log <==> d in lo.credDefs)
    && (forall r :: GetRevRegDef(r) in log <==> r in lo.registries)
    && (forall s :: s in lo.schemas ==> env.getSchema(s) == Success(lo.schemas[s]))
    && (forall d :: d in lo.credDefs ==> env.getCredDef(d) == Success(lo.credDefs[d]))
    && (forall r :: r in lo.registries ==> env.getRevRegDef(r) == Success(lo.registries[r]))
  }

  /** The lookups for a credential definition `d` and, when present, the registry `r`. */
  function DefinitionLookups(d: CredDefId, r: Option<RevRegId>): seq<Call> {
    [GetCredDef(d)] + (if r.Some? then [GetRevRegDef(r.value)] else [])
  }

  /** The lookups one credential asks for, in the order the pass makes them: its
      schema, its credential definition and, when it is revocable, its registry
      definition. */
  function CredentialLookups(rec: CredentialRecord): seq<Call> {
    [GetSchema(rec.schemaId)] + DefinitionLookups(rec.credDefId, rec.revRegId)
  }

  /** The lookups of the credentials `ids`, credential after credential, repeats included. */
  function AllLookups(ids: seq<CredId>, records: map<CredId, CredentialRecord>): seq<Call>
    requires forall c :: c in ids ==> c in records
    decreases |ids|
  {
    if ids == [] then []
    else AllLookups(ids[..|ids| - 1], records) + CredentialLookups(records[ids[|ids| - 1]])
  }

  /** The ledger calls of a pass that the ledger answers throughout: each lookup is
      made at its first use only, since a filled dictionary entry is not asked for
      again. */
  function LedgerCalls(ids: seq<CredId>, records: map<CredId, CredentialRecord>): seq<Call>
    requires forall c :: c in ids ==> c in records
  {
    Dedup(AllLookups(ids, records))
  }

  /** The lookup `calls[k]` was refused with `e` after `calls[..k]` were answered,
      and `log` holds exactly these calls. */
  ghost predicate LookupFailedAt(env: Environment, calls: seq<Call>, k: int, log: seq<Call>, e: Error) {
    && 0 <= k < |calls|
    && log == calls[..k + 1]
    && LedgerCallFails(env, calls[k], e)
    && (forall j :: 0 <= j < k ==> LedgerCallSucceeds(env, calls[j]))
  }

  /** A failure found in a prefix of a call sequence is a failure in the whole one. */
  lemma LookupFailedInLonger(env: Environment, calls: seq<Call>, longer: seq<Call>, k: int, log: seq<Call>, e: Error)
    requires calls <= longer && LookupFailedAt(env, calls, k, log, e)
    ensures LookupFailedAt(env, longer, k, log, e)
  {
    assert longer[..k + 1] == calls[..k + 1];
  }

  /** `log` after the lookups `calls` in turn, each made only when it is not already there. */
  function WithNew(log: seq<Call>, calls: seq<Call>): seq<Call>
    decreases |calls|
  {
    if calls == [] then log
    else WithNew(if calls[0] in log then log else log + [calls[0]], calls[1..])
  }

  /** Lookups only ever add to the log. */
  lemma {:induction false} WithNewExtends(log: seq<Call>, calls: seq<Call>)
    ensures log <= WithNew(log, calls)
    decreases |calls|
  {
    if calls != [] {
      WithNewExtends(if calls[0] in log then log else log + [calls[0]], calls[1..]);
    }
  }

  /** Making the lookups `calls` after those of `asked` is taking first occurrences throughout. */
  lemma {:induction false} DedupAppend(asked: seq<Call>, calls: seq<Call>)
    ensures Dedup(asked + calls) == WithNew(Dedup(asked), calls)
    decreases |calls|
  {
    if calls == [] {
      assert asked + calls == asked;
    } else {
      DedupSnoc(asked, calls[0]);
      assert asked + calls == (asked + [calls[0]]) + calls[1..];
      DedupAppend(asked + [calls[0]], calls[1..]);
    }
  }

  /** One lookup `c` among answered ones, followed by the lookups `rest`: if it
      was answered, the remaining log is the continuation's; if it was new and
      refused, it is the first failure of the whole sequence. */
  lemma LookupStep(env: Environment, log: seq<Call>, c: Call, rest: seq<Call>, log': seq<Call>, failed: Option<Error>)
    requires forall j :: 0 <= j < |log| ==> LedgerCallSucceeds(env, log[j])
    requires log' == if c in log then log else log + [c]
    requires failed.Some? ==> c !in log && LedgerCallFails(env, c, failed.value)
    ensures failed.None? ==> WithNew(log, [c] + rest) == WithNew(log', rest)
    ensures failed.Some? ==> LookupFailedAt(env, WithNew(log, [c] + rest), |log|, log', failed.value)
  {
    assert ([c] + rest)[0] == c && ([c] + rest)[1..] == rest;
    if failed.Some? {
      WithNewExtends(log', rest);
      assert WithNew(log, [c] + rest)[..|log| + 1] == log';
    }
  }

  /** The lookups of a prefix of the credentials are a prefix of all their lookups. */
  lemma {:induction false} AllLookupsPrefix(ids: seq<CredId>, i: nat, records: map<CredId, CredentialRecord>)
    requires i <= |ids| && forall c :: c in ids ==> c in records
    ensures AllLookups(ids[..i], records) <= AllLookups(ids, records)
    decreases |ids| - i
  {
    if i < |ids| {
      var p := ids[..|ids| - 1];
      assert p[..i] == ids[..i];
      AllLookupsPrefix(p, i, records);
    } else {
      assert ids[..i] == ids;
    }
  }

  /** One more credential appends its lookups. */
  lemma AllLookupsSnoc(ids: seq<CredId>, i: nat, records: map<CredId, CredentialRecord>)
    requires i < |ids| && forall c :: c in ids ==> c in records
    ensures AllLookups(ids[..i + 1], records) == AllLookups(ids[..i], records) + CredentialLookups(records[ids[i]])
  {
    assert ids[..i + 1][..i] == ids[..i];
  }

  /** The ledger calls of one more credential are the earlier ones extended by its new lookups. */
  lemma LookupsOfNext(ids: seq<CredId>, i: nat, records: map<CredId, CredentialRecord>)
    requires i < |ids| && forall c :: c in ids ==> c in records
    ensures LedgerCalls(ids[..i + 1], records) == WithNew(LedgerCalls(ids[..i], records), CredentialLookups(records[ids[i]]))
  {
    AllLookupsSnoc(ids, i, records);
    DedupAppend(AllLookups(ids[..i], records), CredentialLookups(records[ids[i]]));
  }

  /** A failure among the lookups of the first `n` credentials is a failure of the whole pass. */
  lemma FailureInPass(env: Environment, ids: seq<CredId>, n: nat, records: map<CredId, CredentialRecord>,
                      log: seq<Call>, e: Error)
    requires n <= |ids| && forall c :: c in ids ==> c in records
    requires exists k :: LookupFailedAt(env, LedgerCalls(ids[..n], records), k, log, e)
    ensures exists k :: LookupFailedAt(env, LedgerCalls(ids, records), k, log, e)
  {
    var k :| LookupFailedAt(env, LedgerCalls(ids[..n], records), k, log, e);
    AllLookupsPrefix(ids, n, records);
    DedupOfPrefix(AllLookups(ids[..n], records), AllLookups(ids, records));
    LookupFailedInLonger(env, LedgerCalls(ids[..n], records), LedgerCalls(ids, records), k, log, e);
  }

  /** The ids of the credentials `ids`, in the three kinds the ledger serves. */
  ghost function SchemaIdsOf(ids: seq<CredId>, records: map<CredId, CredentialRecord>): set<SchemaId>
    requires forall c :: c in ids ==> c in records
  {
    if ids == [] then {}
    else SchemaIdsOf(ids[..|ids| - 1], records) + {records[ids[|ids| - 1]].schemaId}
  }

  ghost function CredDefIdsOf(ids: seq<CredId>, records: map<CredId, CredentialRecord>): set<CredDefId>
    requires forall c :: c in ids ==> c in records
  {
    if ids == [] then {}
    else CredDefIdsOf(ids[..|ids| - 1], records) + {records[ids[|ids| - 1]].credDefId}
  }

  ghost function RevRegIdsOf(ids: seq<CredId>, records: map<CredId, CredentialRecord>): set<RevRegId>
    requires forall c :: c in ids ==> c in records
  {
    if ids == [] then {}
    else
      var last := records[ids[|ids| - 1]].revRegId;
      RevRegIdsOf(ids[..|ids| - 1], records) + (if last.Some? then {last.value} else {})
  }

  /** The gathered ids are those of the credentials, revocable ones for registries. */
  lemma {:induction false} IdsOfMembers(ids: seq<CredId>, records: map<CredId, CredentialRecord>)
    requires forall c :: c in ids ==> c in records
    ensures forall s :: s in SchemaIdsOf(ids, records) <==> exists c :: c in ids && records[c].schemaId == s
    ensures forall d :: d in CredDefIdsOf(ids, records) <==> exists c :: c in ids && records[c].credDefId == d
    ensures forall r :: r in RevRegIdsOf(ids, records) <==> exists c :: c in ids && records[c].revRegId == Some(r)
    decreases |ids|
  {
    if ids != [] {
      var p := ids[..|ids| - 1];
      assert ids == p + [ids[|ids| - 1]];
      IdsOfMembers(p, records);
    }
  }

  /** One more credential adds its ids. */
  lemma IdsOfSnoc(order: seq<CredId>, i: nat, records: map<CredId, CredentialRecord>)
    requires i < |order| && forall c :: c in order ==> c in records
    ensures SchemaIdsOf(order[..i + 1], records) == SchemaIdsOf(order[..i], records) + {records[order[i]].schemaId}
    ensures CredDefIdsOf(order[..i + 1], records) == CredDefIdsOf(order[..i], records) + {records[order[i]].credDefId}
    ensures RevRegIdsOf(order[..i + 1], records) ==
      RevRegIdsOf(order[..i], records) + (if records[order[i]].revRegId.Some? then {records[order[i]].revRegId.value} else {})
  {
    assert order[..i + 1][..i] == order[..i];
  }

  /** Look the schema up and add it unless it is already present, so the log
      grows by its lookup exactly when that lookup is new. */
  method EnsureSchema(env: Environment, lo: LedgerObjects, log: seq<Call>, s: SchemaId)
    returns (lo': LedgerObjects, log': seq<Call>, err: Option<Error>)
    requires Tracked(env, lo, log)
    ensures log' == if GetSchema(s) in log then log else log + [GetSchema(s)]
    ensures err.None? ==>
      && Tracked(env, lo', log')
      && lo'.schemas.Keys == lo.schemas.Keys + {s}
      && lo'.credDefs == lo.credDefs && lo'.registries == lo.registries
    ensures err.Some? ==> s !in lo.schemas && log' == log + [GetSchema(s)] && env.getSchema(s) == Failure(err.value)
  {
    lo', log', err := lo, log, None;
    if s !in lo.schemas {
      log' := log + [GetSchema(s)];
      DistinctSnoc(log, GetSchema(s));
      var fetched := env.getSchema(s);
      if fetched.Failure? {
        err := Some(fetched.error);
      } else {
        lo' := lo.(schemas := lo.schemas[s := fetched.value]);
      }
    }
  }

  /** Look the credential definition up and add it unless it is already present, so the log
      grows by its lookup exactly when that lookup is new. */
  method EnsureCredDef(env: Environment, lo: LedgerObjects, log: seq<Call>, d: CredDefId)
    returns (lo': LedgerObjects, log': seq<Call>, err: Option<Error>)
    requires Tracked(env, lo, log)
    ensures log' == if GetCredDef(d) in log then log else log + [GetCredDef(d)]
    ensures err.None? ==>
      && Tracked(env, lo', log')
      && lo'.credDefs.Keys == lo.credDefs.Keys + {d}
      && lo'.schemas == lo.schemas && lo'.registries == lo.registries
    ensures err.Some? ==> d !in lo.credDefs && log' == log + [GetCredDef(d)] && env.getCredDef(d) == Failure(err.value)
  {
    lo', log', err := lo, log, None;
    if d !in lo.credDefs {
      log' := log + [GetCredDef(d)];
      DistinctSnoc(log, GetCredDef(d));
      var fetched := env.getCredDef(d);
      if fetched.Failure? {
        err := Some(fetched.error);
      } else {
        lo' := lo.(credDefs := lo.credDefs[d := fetched.value]);
      }
    }
  }

  /** Look the registry definition up and add it unless it is already present, so the log
      grows by its lookup exactly when that lookup is new. */
  method EnsureRegistry(env: Environment, lo: LedgerObjects, log: seq<Call>, r: RevRegId)
    returns (lo': LedgerObjects, log': seq<Call>, err: Option<Error>)
    requires Tracked(env, lo, log)
    ensures log' == if GetRevRegDef(r) in log then log else log + [GetRevRegDef(r)]
    ensures err.None? ==>
      && Tracked(env, lo', log')
      && lo'.registries.Keys == lo.registries.Keys + {r}
      && lo'.schemas == lo.schemas && lo'.credDefs == lo.credDefs
    ensures err.Some? ==> r !in lo.registries && log' == log + [GetRevRegDef(r)] && env.getRevRegDef(r) == Failure(err.value)
  {
    lo', log', err := lo, log, None;
    if r !in lo.registries {
      log' := log + [GetRevRegDef(r)];
      DistinctSnoc(log, GetRevRegDef(r));
      var fetched := env.getRevRegDef(r);
      if fetched.Failure? {
        err := Some(fetched.error);
      } else {
        lo' := lo.(registries := lo.registries[r := fetched.value]);
      }
    }
  }

  /** The credential definition and, for a revocable credential, the registry
      definition of one credential, looked up in that order. */
  method AddDefinitions(env: Environment, lo: LedgerObjects, log: seq<Call>, d: CredDefId, r: Option<RevRegId>)
    returns (lo': LedgerObjects, log': seq<Call>, err: Option<Error>)
    requires Tracked(env, lo, log)
    ensures err.None? ==>
      && Tracked(env, lo', log')
      && log' == WithNew(log, DefinitionLookups(d, r))
      && lo'.schemas == lo.schemas
      && lo'.credDefs.Keys == lo.credDefs.Keys + {d}
      && lo'.registries.Keys == lo.registries.Keys + (if r.Some? then {r.value} else {})
    ensures err.Some? ==> exists k :: LookupFailedAt(env, WithNew(log, DefinitionLookups(d, r)), k, log', err.value)
  {
    var tail := if r.Some? then [GetRevRegDef(r.value)] else [];
    assert DefinitionLookups(d, r) == [GetCredDef(d)] + tail;
    lo', log', err := EnsureCredDef(env, lo, log, d);
    LookupStep(env, log, GetCredDef(d), tail, log', err);
    if err.None? && r.Some? {
      ghost var log1 := log';
      lo', log', err := EnsureRegistry(env, lo', log', r.value);
      LookupStep(env, log1, GetRevRegDef(r.value), [], log', err);
      assert [GetRevRegDef(r.value)] + [] == tail;
    }
  }

  /** The lookups for one credential, in the order of `CredentialLookups`. On
      success the log is extended by its new lookups; on failure the error is
      that of its first refused lookup, which ends the log. */
  method AddCredentialObjects(env: Environment, lo: LedgerObjects, log: seq<Call>, credential: CredentialRecord)
    returns (lo': LedgerObjects, log': seq<Call>, err: Option<Error>)
    requires Tracked(env, lo, log)
    ensures err.None? ==>
      && Tracked(env, lo', log')
      && log' == WithNew(log, CredentialLookups(credential))
      && lo'.schemas.Keys == lo.schemas.Keys + {credential.schemaId}
      && lo'.credDefs.Keys == lo.credDefs.Keys + {credential.credDefId}
      && lo'.registries.Keys ==
         lo.registries.Keys + (if credential.revRegId.Some? then {credential.revRegId.value} else {})
    ensures err.Some? ==>
      exists k :: LookupFailedAt(env, WithNew(log, CredentialLookups(credential)), k, log', err.value)
  {
    var rest := DefinitionLookups(credential.credDefId, credential.revRegId);
    assert CredentialLookups(credential) == [GetSchema(credential.schemaId)] + rest;
    lo', log', err := EnsureSchema(env, lo, log, credential.schemaId);
    LookupStep(env, log, GetSchema(credential.schemaId), rest, log', err);
    if err.None? {
      lo', log', err := AddDefinitions(env, lo', log', credential.credDefId, credential.revRegId);
    }
  }

  /** The pass over the fetched credentials in their dictionary order. On success
      the three dictionaries hold exactly the ids the credentials use (registries
      only for revocable ones), each as the ledger returned it, and the log is
      `LedgerCalls`; otherwise the error is that of the first refused lookup of
      that sequence, which ends the log. */
  method FetchLedgerObjects(env: Environment, order: seq<CredId>, records: map<CredId, CredentialRecord>)
    returns (outcome: Result<LedgerObjects, Error>, log: seq<Call>)
    requires forall c :: c in records <==> c in order
    ensures outcome.Success? ==>
      && Tracked(env, outcome.value, log)
      && log == LedgerCalls(order, records)
      && (forall s :: s in outcome.value.schemas <==> exists c :: c in records && records[c].schemaId == s)
      && (forall d :: d in outcome.value.credDefs <==> exists c :: c in records && records[c].credDefId == d)
      && (forall r :: r in outcome.value.registries <==> exists c :: c in records && records[c].revRegId == Some(r))
    ensures outcome.Failure? ==> exists k :: LookupFailedAt(env, LedgerCalls(order, records), k, log, outcome.error)
  {
    var lo := NoLedgerObjects;
    log := [];
    for i := 0 to |order|
      invariant Tracked(env, lo, log)
      invariant log == LedgerCalls(order[..i], records)
      invariant lo.schemas.Keys == SchemaIdsOf(order[..i], records)
      invariant lo.credDefs.Keys == CredDefIdsOf(order[..i], records)
      invariant lo.registries.Keys == RevRegIdsOf(order[..i], records)
    {
      IdsOfSnoc(order, i, records);
      LookupsOfNext(order, i, records);
      var err;
      lo, log, err := AddCredentialObjects(env, lo, log, records[order[i]]);
      if err.Some? {
        FailureInPass(env, order, i + 1, records, log, err.value);
        return Failure(err.value), log;
      }
    }
    assert order[..|order|] == order;
    IdsOfMembers(order, records);
    outcome := Success(lo);
  }
}
