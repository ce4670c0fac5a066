# Static-proof presentation assembly, modelled in Dafny

This project models two parts of the Aries Cloud Agent (Python).

The first is `StaticProofManager.create_presentation`. It creates an Indy presentation from a proof request and the holder's requested credentials, in six stages:

1. Build the per-referent summary `requested_referents`: the credential id, and a non-revocation interval where the request asks for one.
2. Fetch each distinct credential from the wallet once.
3. Drop the timestamps of items whose credential is not revocable. This edits the requested credentials in place.
4. Fetch each distinct schema, credential definition and revocation-registry definition from the ledger once.
5. Fetch each distinct revocation delta once, keyed by registry and interval. Stamp the delta's timestamp onto every referent that uses the same credential.
6. Build one revocation state per cached delta. Write the resolved timestamps back into the requested credentials, again in place. Hand everything to the holder.

The second is `DefaultVerificationKeyStrategy.get_verification_method_id_for_did`. It picks the verification method of a DID by its method prefix.

How the model is built:

- The wallet, the ledger, the tails cache and the holder are function fields of an `Environment` value.
- Every stage returns the sequence of its wallet, ledger and holder calls, in order. "Fetched once" statements are statements about that call log. The tails lookup is not logged: it is a plain function of the registry definition.
- Python dictionaries keep insertion order. A dictionary is therefore a key sequence beside a map, and `Seqs.Dedup` gives the first-insertion order.
- The requested credentials are a class whose two sections are edited by its methods.
- The delta and state passes are loops. Each is proved equal to a fold function (`Deltas.DeltaFold`, `RevocationStates.StatesFold`), and the properties are proved about the fold.

Modules, by entity:

| module | contents |
|---|---|
| `ProofTypes` | shared types |
| `Referents` | stage 1 |
| `Credentials` | stage 2 |
| `RequestedCredentialsStore` | stages 3 and 6b |
| `LedgerObjects` | stage 4 |
| `Deltas` | stage 5, the loop and its fold |
| `DeltaProperties` | stage 5, what the fold achieves |
| `RevocationStates` | stage 6a |
| `StaticProofManager` | the whole build |
| `VerificationKeyStrategy` | the verification-key strategy |

Behaviour of the code worth noting:

- **Stamping reaches referents without an interval.** Referents without an interval of their own still receive a timestamp when a referent sharing their credential fetched a delta (`DeltaProperties.DeltaPassSucceeds`).
- **Equal delta keys do not imply equal timestamps.** A credential takes the timestamp of its *first* qualifying referent. So two referents with the same (registry, from, to) key can end up with different timestamps (`DeltaProperties.SharedKeyTimestampsDiffer`).
- **A cache hit crosses credentials.** A second credential in the same registry with the same interval hits the cached key and takes that key's timestamp. The cached delta names the first credential, so the only state under that (registry, timestamp) is built from the first credential's `cred_rev_id`, and none from the second's (`DeltaProperties.CacheHitAcrossCredentials`, `RevocationStates.SingleDeltaUsesItsCredential`).
- **One holder call per cached delta.** The holder is called once per cached delta, not once per (registry, timestamp). Two deltas with the same registry and timestamp cause two calls, and the later state replaces the earlier one (`RevocationStates.RepeatedSlotBuiltTwice`).
- **The clean-up can fail on a shared referent name.** It looks up each item's credential among the fetched ones. An attribute and a predicate may share a referent name with different credential ids; the predicate's id then wins in `requested_referents`. The attribute's credential is then fetched only if another referent uses it; when none does, the lookup fails (`Error.UnknownCredential`). The exact condition is that some item's credential is not among the fetched ones (`RequestedCredentialsStore.AllFetched`).
- **The merge-back fails on a missing section.** It indexes both sections directly. As soon as one referent has a timestamp, a missing `requested_attributes` or `requested_predicates` section is a `KeyError`.
- **A missing revocation index is a `KeyError`.** When a credential has none (`cred_rev_id`), building its revocation state raises `KeyError("cred_rev_id")`.

## Model

| member | source | states |
|---|---|---|
| Referents.IntervalFor | aries_cloudagent/protocols/static_proof/v1_0/manager.py:62-63 | a referent gets an interval exactly when the request's matching section names it and the interval map has it, and then it is that map entry |
| Referents.AddSectionReferents | aries_cloudagent/protocols/static_proof/v1_0/manager.py:60-63 | after one section's loop, the referents are the old ones plus the section's names; each of the section's referents holds its item's credential id and its interval, and other referents are unchanged |
| Referents.ExtractReferents | aries_cloudagent/protocols/static_proof/v1_0/manager.py:56-69 | one referent per name in either section, in first-insertion dictionary order; a predicate entry overwrites an attribute entry of the same name; none has a timestamp; the map is `ReferentsOf` of the two sections |
| Credentials.FetchOne | aries_cloudagent/protocols/static_proof/v1_0/manager.py:71-76 | one loop step keeps the fetched-so-far invariant, or its fetch is the first failing one and is the last logged call |
| Credentials.FetchCredentials | aries_cloudagent/protocols/static_proof/v1_0/manager.py:71-76 | on success, the fetched ids are exactly the distinct credential ids of the referents, in first-reference order; the log holds one wallet fetch per id, in that order; each record is what the wallet returned. On failure, the error is that of the first failing fetch and the log ends with it |
| Credentials.CredentialFetchedOnce | aries_cloudagent/protocols/static_proof/v1_0/manager.py:73-76 | the wallet is asked once for each referenced credential and never for another |
| RequestedCredentialsStore.CleanItem | aries_cloudagent/protocols/static_proof/v1_0/manager.py:80-82 | a cleaned item keeps its credential; it has no timestamp when the credential is non-revocable and is unchanged when it is revocable |
| RequestedCredentialsStore.CleanSection | aries_cloudagent/protocols/static_proof/v1_0/manager.py:79-86 | the section keeps its keys and order. It succeeds exactly when every item's credential was fetched, and then every item is cleaned. Otherwise the error names the first unfetched credential in key order, and the items before it are cleaned |
| RequestedCredentialsStore.CleanFailureNamesFirst | aries_cloudagent/protocols/static_proof/v1_0/manager.py:79-82 | a failed section clean-up means some item's credential was not fetched, and the error names the first such credential in key order |
| RequestedCredentialsStore.RequestedCredentials.DropUnrevocableTimestamps | aries_cloudagent/protocols/static_proof/v1_0/manager.py:78-86 | attributes are cleaned first, then predicates; a failure in the attributes leaves the predicates untouched; an absent section stays absent; it succeeds exactly when every item's credential in both sections was fetched, and otherwise the error names the first unfetched credential of the first failing section |
| RequestedCredentialsStore.MergeItem | aries_cloudagent/protocols/static_proof/v1_0/manager.py:197-204 | a merged item carries its referent's resolved timestamp when there is one, and is otherwise unchanged |
| RequestedCredentialsStore.RequestedCredentials.MergeTimestamps | aries_cloudagent/protocols/static_proof/v1_0/manager.py:194-204 | it fails exactly when some referent has a timestamp and a section is absent; the error is `KeyError` for the first absent section, reached at the first stamped referent; on success each section is merged over all referents |
| LedgerObjects.EnsureSchema | aries_cloudagent/protocols/static_proof/v1_0/manager.py:106-107 | the schema lookup is made exactly when the schema is not yet in the dictionary, so it is appended to the log exactly when it is new. On success the schema is added as the ledger returned it and the other dictionaries are unchanged. On failure the lookup was new, it ends the log, and the error is the ledger's |
| LedgerObjects.EnsureCredDef | aries_cloudagent/protocols/static_proof/v1_0/manager.py:108-112 | the same for a credential definition |
| LedgerObjects.EnsureRegistry | aries_cloudagent/protocols/static_proof/v1_0/manager.py:113-120 | the same for a revocation-registry definition |
| LedgerObjects.AddDefinitions | aries_cloudagent/protocols/static_proof/v1_0/manager.py:108-120 | the credential definition, then the registry definition when there is one. On success the log is extended by exactly the new ones of these lookups, in that order. On failure the error is that of the first refused lookup, which ends the log |
| LedgerObjects.AddCredentialObjects | aries_cloudagent/protocols/static_proof/v1_0/manager.py:92-120 | one credential's lookups in the source's order: schema, credential definition, then the registry when revocable (`CredentialLookups`). On success the log is extended by exactly the new ones, and each dictionary gains this credential's id. On failure the error is that of the first refused lookup of that sequence, and the log ends with it (`LookupFailedAt`) |
| LedgerObjects.LookupStep | aries_cloudagent/protocols/static_proof/v1_0/manager.py:106-120 | one lookup against the log so far: if it is answered, the rest of the sequence continues from the new log; if it is new and refused, it is the first failure of the whole sequence |
| LedgerObjects.DedupAppend | aries_cloudagent/protocols/static_proof/v1_0/manager.py:92-120 | making lookups only when they are new, after earlier lookups, gives the first-occurrence order of all lookups made, repeats included |
| LedgerObjects.LookupsOfNext | aries_cloudagent/protocols/static_proof/v1_0/manager.py:92-120 | the ledger calls for one more credential are the earlier ones extended by that credential's new lookups |
| LedgerObjects.FailureInPass | aries_cloudagent/protocols/static_proof/v1_0/manager.py:92-120 | a first refused lookup among the first credentials' calls is the first refused lookup of the whole pass's call sequence |
| LedgerObjects.IdsOfMembers | aries_cloudagent/protocols/static_proof/v1_0/manager.py:92-120 | the gathered id sets are exactly the ids the credentials use, registries only for revocable ones |
| LedgerObjects.FetchLedgerObjects | aries_cloudagent/protocols/static_proof/v1_0/manager.py:88-120 | on success, the three dictionaries hold exactly the schema ids, credential-definition ids and present registry ids of the credentials, each as the ledger returned it, and the log is exactly `LedgerCalls`: each credential's schema, credential-definition and registry lookups in turn, each made only at its first use. On failure, the error is that of the first refused lookup of `LedgerCalls`, and the log is that sequence's prefix ending with it |
| Deltas.StampProperties | aries_cloudagent/protocols/static_proof/v1_0/manager.py:163-166 | stamping changes only timestamps, and exactly those of the credential's referents |
| Deltas.StampReferents | aries_cloudagent/protocols/static_proof/v1_0/manager.py:163-166 | the inner loop stamps every referent of the credential |
| Deltas.ProcessReferent | aries_cloudagent/protocols/static_proof/v1_0/manager.py:126-166 | one outer-loop step is `DeltaStep`: skip non-revocable or stamped referents and those without an interval; reuse a cached key; otherwise fetch, log and cache |
| Deltas.CollectDeltas | aries_cloudagent/protocols/static_proof/v1_0/manager.py:123-166 | the loop is the fold `DeltaFold` over the referents in order, stopping at the first failed fetch |
| Deltas.FoldFailureSticks | aries_cloudagent/protocols/static_proof/v1_0/manager.py:152-156 | a failed fetch ends the pass: later referents change nothing |
| Deltas.FoldSameReferents | aries_cloudagent/protocols/static_proof/v1_0/manager.py:125-166 | the pass keeps every referent's credential and interval |
| DeltaProperties.FirstKeySpec | aries_cloudagent/protocols/static_proof/v1_0/manager.py:125-151 | a credential's first key is the key of the first referent that uses it and qualifies; there is none exactly when no such referent exists |
| DeltaProperties.FoldTracks | aries_cloudagent/protocols/static_proof/v1_0/manager.py:125-166 | the loop invariant holds after every referent: the cache holds each credential's first key, fetched once; every referent holds the timestamp under its credential's first key |
| DeltaProperties.DeltaCallsDistinct | aries_cloudagent/protocols/static_proof/v1_0/manager.py:151-156 | distinct keys give distinct ledger calls |
| DeltaProperties.DeltaPassSucceeds | aries_cloudagent/protocols/static_proof/v1_0/manager.py:123-166 | after a completed pass: one ledger call per cached key, each key fetched once and only for a qualifying referent; a referent is stamped exactly when some referent with its credential qualifies, with that credential's first qualifier's timestamp; referents sharing a credential share it; non-revocable ones stay unstamped |
| DeltaProperties.DeltaPassFails | aries_cloudagent/protocols/static_proof/v1_0/manager.py:151-156 | a failed pass stopped at the first qualifier of some credential whose new key could not be fetched; that call is the last in the log, the outcome is that of the step after which the pass ends, and the pass's error is exactly the ledger's error for that key's fetch |
| DeltaProperties.PassCompletes | aries_cloudagent/protocols/static_proof/v1_0/manager.py:151-162 | when every qualifying referent's fetch succeeds, the pass completes |
| DeltaProperties.TimestampOfFirstQualifier | aries_cloudagent/protocols/static_proof/v1_0/manager.py:163-166 | a referent holds the ledger's timestamp for its credential's first qualifying key |
| DeltaProperties.SharedKeyTimestampsDiffer | aries_cloudagent/protocols/static_proof/v1_0/manager.py:146-166 | two referents with the same delta key can hold different timestamps |
| DeltaProperties.CacheHitAcrossCredentials | aries_cloudagent/protocols/static_proof/v1_0/manager.py:150-166 | two credentials in one registry with one interval: one fetch, one cached delta naming the first credential, and both stamped with its timestamp |
| RevocationStates.BuildState | aries_cloudagent/protocols/static_proof/v1_0/manager.py:175-188 | one loop step is `StatesStep`: open the registry's table, get the tails file, read `cred_rev_id`, call the holder and file the state under its timestamp |
| RevocationStates.BuildRevocationStates | aries_cloudagent/protocols/static_proof/v1_0/manager.py:168-193 | the loop is the fold `StatesFold` over the cached deltas in order, stopping at the first error |
| RevocationStates.StatesFailureSticks | aries_cloudagent/protocols/static_proof/v1_0/manager.py:189-193 | an error ends the pass |
| RevocationStates.StepBuilt | aries_cloudagent/protocols/static_proof/v1_0/manager.py:175-188 | a successful step logged one holder call and filed that delta's state under its registry and timestamp |
| RevocationStates.FoldLog | aries_cloudagent/protocols/static_proof/v1_0/manager.py:169-188 | on success, one holder call per cached delta, in order, and all were built |
| RevocationStates.FoldRegistries | aries_cloudagent/protocols/static_proof/v1_0/manager.py:175-176 | a registry has a table exactly when some cached delta is in it |
| RevocationStates.FoldTimestamps | aries_cloudagent/protocols/static_proof/v1_0/manager.py:175-188 | each registry's table holds exactly the timestamps of its deltas |
| RevocationStates.FoldValues | aries_cloudagent/protocols/static_proof/v1_0/manager.py:180-188 | under each registry and timestamp is the state built for the last delta with that slot |
| RevocationStates.StatesFoldFails | aries_cloudagent/protocols/static_proof/v1_0/manager.py:177-193 | a failed pass stopped at its first delta that could not be built. The error is the tails error, `KeyError("cred_rev_id")` or the holder's error, in that order. The holder call is logged only when it was made |
| RevocationStates.SingleDeltaUsesItsCredential | aries_cloudagent/protocols/static_proof/v1_0/manager.py:169-188 | with one cached delta, the only holder call and the only state use the revocation index of the credential the delta names |
| RevocationStates.RepeatedSlotBuiltTwice | aries_cloudagent/protocols/static_proof/v1_0/manager.py:180-188 | two deltas with one registry and timestamp cause two holder calls, and the second state is kept |
| StaticProofManager.ReferentsFetched | aries_cloudagent/protocols/static_proof/v1_0/manager.py:125-127 | every referent's credential was fetched |
| StaticProofManager.DeltasReady | aries_cloudagent/protocols/static_proof/v1_0/manager.py:177-182 | every cached delta's registry definition and credential were fetched, so the lookups at these lines succeed |
| StaticProofManager.CachedDeltaOf | aries_cloudagent/protocols/static_proof/v1_0/manager.py:163-166 | a resolved timestamp is that of a cached delta in the registry of the referent's credential |
| StaticProofManager.StatesCoverTimestamps | aries_cloudagent/protocols/static_proof/v1_0/manager.py:163-193 | for every resolved timestamp, a revocation state exists under the credential's registry and that timestamp |
| StaticProofManager.CleanAndLookUp | aries_cloudagent/protocols/static_proof/v1_0/manager.py:78-120 | stages 3-4. On success: the clean-up found every credential, both sections are cleaned, the ledger objects are those of the credentials, and the lookup log is exactly `LedgerCalls` of the credentials. On failure: either the clean-up failed and no lookup was made, or it succeeded and the log is `LedgerCalls` up to and including its first refused lookup, whose error is returned |
| StaticProofManager.GatherInputs | aries_cloudagent/protocols/static_proof/v1_0/manager.py:51-120 | stages 1-4. The referents are `ReferentsOf` the sections. On success (`Gathered`): the credentials are exactly those the referents name, as the wallet returned them; the log is their fetches followed by exactly `LedgerCalls` of them; the ledger objects are those of the credentials; both sections are cleaned. On failure (`GatherFailed`): the error is that of the first failing fetch, else of the clean-up, else of the first refused lookup of `LedgerCalls`, with the log up to it. No proof was asked for |
| StaticProofManager.ResolveRevocation | aries_cloudagent/protocols/static_proof/v1_0/manager.py:123-193 | stage 5 then stage 6a (`Resolution`). The referents are the delta fold's. If the delta fold failed, its error and calls are the outcome; otherwise the state fold runs over the cached deltas, and its error is the outcome and the log is the delta calls followed by the holder calls. On success the states are the state fold's and every resolved timestamp has a state. No proof was asked for |
| StaticProofManager.ResolvedAfterDeltas | aries_cloudagent/protocols/static_proof/v1_0/manager.py:123-166 | after the delta pass, referents sharing a credential share a timestamp and non-revocable ones have none |
| StaticProofManager.MergedCarries | aries_cloudagent/protocols/static_proof/v1_0/manager.py:194-204 | after the merge-back, each item of a resolved referent carries its timestamp |
| StaticProofManager.SectionsFinalized | aries_cloudagent/protocols/static_proof/v1_0/manager.py:78-86 | each section ends as its original with every item cleaned and then given its referent's resolved timestamp |
| StaticProofManager.MergeAndAsk | aries_cloudagent/protocols/static_proof/v1_0/manager.py:194-213 | the proof is asked for exactly when the merge succeeded, with the prepared inputs, and its answer is the result; otherwise the error is the merge's `KeyError` |
| StaticProofManager.FinishPresentation | aries_cloudagent/protocols/static_proof/v1_0/manager.py:123-213 | after the first four stages: the proof is asked for once, last, only when the revocation stages and the merge succeeded; otherwise the build stops with the first failing stage's error |
| StaticProofManager.CreatePresentation | aries_cloudagent/protocols/static_proof/v1_0/manager.py:35-213 | either the holder was asked once, last, with the prepared inputs (`Prepared`), and its answer is the result, and the log is the credential fetches, exactly `LedgerCalls` of the credentials and the revocation calls of the stages run on the extracted referents (`Built`); or no proof was asked for and the error is that of the first failing stage, with the log up to it (`BuildFailed`) |
| VerificationKeyStrategy.GetVerificationMethodIdForDid | aries_cloudagent/wallet/default_verification_key_strategy.py:29-43 | `did:key:` gives the decoded key id, `did:sov:` gives the DID plus `#key-1`, and the result is None exactly when neither prefix matches |
| VerificationKeyStrategy.PrefixesExclusive | aries_cloudagent/wallet/default_verification_key_strategy.py:37-41 | no DID starts with both prefixes |
| VerificationKeyStrategy.BranchOrderIrrelevant | aries_cloudagent/wallet/default_verification_key_strategy.py:37-43 | testing the prefixes in the other order gives the same result |
| VerificationKeyStrategy.SovKeyIdExtendsDid | aries_cloudagent/wallet/default_verification_key_strategy.py:39-41 | for `did:sov:` the DID is a prefix of the result, which is 6 characters longer and ends in `#key-1` |
| VerificationKeyStrategy.SovKeyIdInjective | aries_cloudagent/wallet/default_verification_key_strategy.py:39-41 | distinct `did:sov:` DIDs get distinct ids |
| VerificationKeyStrategy.SovExample | aries_cloudagent/wallet/tests/test_default_verification_key_strategy.py:14-16 | the expected id for the test's `did:sov:` DID |
| VerificationKeyStrategy.KeyExample | aries_cloudagent/wallet/tests/test_default_verification_key_strategy.py:18-23 | the expected id for the test's `did:key:` DID |
| VerificationKeyStrategy.UnsupportedExample | aries_cloudagent/wallet/tests/test_default_verification_key_strategy.py:25-27 | `did:test:test` gives None |

## Left out

- Asynchrony, `async with ledger` scoping and logging are not modelled; each await is an ordinary call.
- Multitenant ledger selection is not modelled. It only chooses which ledger serves a lookup, and the ledger is a single set of lookup functions.
- JSON decoding of wallet and holder answers is not modelled. Answers are already-decoded values.
- The stored credential's fields other than `schema_id`, `cred_def_id`, `rev_reg_id` and `cred_rev_id` are not modelled. An empty `rev_reg_id` counts as absent.
- `time.time()` is a parameter (`epochNow`), read once per build as in the source.
- The interval map from `indy_proof_req2non_revoc_intervals`, which is not part of this model, is a parameter. The proof request is reduced to the referent names of its two sections.
- `RevocationRegistry.from_definition` and the tails-file download are one function from a registry definition to a tails path or an error (`TailsLookup`). This moves where a `from_definition` failure shows. In the source it ends the ledger stage (manager.py:116-120), before any delta is fetched. In the model it can only show in the revocation-state stage, after the delta calls, and only for a registry that has a cached delta.
- The holder's `create_revocation_state` and `create_presentation` are uninterpreted functions, since they are cryptography. So is the did:key decoder `DIDKey.from_did(...).key_id`.
- The distinction between `IndyHolderError` and other exceptions is not modelled. Every error ends the build the same way, and the log line at 190-192 is not modelled.
- Interval bounds are unbounded integers; the source's integers are also unbounded.
- StaticProofManager.CreatePresentation, StaticProofManager.CleanAndLookUp, StaticProofManager.GatherInputs, StaticProofManager.MergeAndAsk and StaticProofManager.FinishPresentation: on failure, the contract does not say what the requested credentials are left holding. `DropUnrevocableTimestamps` and `MergeTimestamps` state that for their own stages.
- Of the requested credentials, only the two sections are modelled, and of their items only `cred_id` and `timestamp`. The whole dictionary goes to the holder, but its other top-level entries (such as `self_attested_attributes`) and other item fields (such as `revealed`) are not modelled. The manager neither reads nor changes them; they pass through to the holder.
- The HTTP routes, the settings module and the logging configuration are not part of this model.
