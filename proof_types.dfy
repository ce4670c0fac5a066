/** The data the static-proof manager works on: the holder's requested credentials,
    the proof request, credential records fetched from the wallet, and the outside
    collaborators (credential store, ledger, tails cache, cryptographic holder). */
module ProofTypes {
  import opened Wrappers
  import opened Seqs

  /** Identifiers (strings in the wallet and on the ledger); the manager only
      compares them and uses them as dictionary keys. */
  type Referent(==,!new)
  type CredId(==,!new)
  type SchemaId(==,!new)
  type CredDefId(==,!new)
  type RevRegId(==,!new)
  /** Epoch seconds. */
  type Timestamp = int

  /** Ledger and holder payloads; the manager passes them along without looking inside. */
  type Schema(==)
  type CredDef(==)
  type RevRegDef(==)
  type Delta(==)
  type RevState(==)
  type Proof

  /** A non-revocation interval; either bound may be absent. */
  datatype Interval = Interval(from: Option<Timestamp>, to: Option<Timestamp>)

  /** A credential as the wallet returns it. An absent (or empty) `rev_reg_id`
      marks the credential as non-revocable. */
  datatype CredentialRecord = CredentialRecord(
    schemaId: SchemaId,
    credDefId: CredDefId,
    revRegId: Option<RevRegId>,
    credRevId: Option<string>)

  /** One entry of a section of the requested credentials: `{cred_id, timestamp?}`. */
  datatype Item = Item(credId: CredId, timestamp: Option<Timestamp>)

  /** A section (requested_attributes or requested_predicates) of the requested
      credentials: a dictionary, so its keys have an insertion order. */
  datatype Section = Section(order: seq<Referent>, items: map<Referent, Item>) {
    ghost predicate Valid() {
      Distinct(order) && forall r :: r in items <==> r in order
    }
  }

  const EmptySection := Section([], map[])

  /** The parts of an Indy proof request the manager reads: the referent names of
      its two sections. */
  datatype ProofRequest = ProofRequest(
    requestedAttributes: set<Referent>,
    requestedPredicates: set<Referent>)

  /** The exceptions that abort a build. */
  datatype Error =
    | HolderError(code: int, message: string)
    | LedgerError(message: string)
    | StorageError(message: string)
    | KeyError(key: string)
    /** A lookup in the fetched-credentials dictionary for an id that was not fetched. */
    | UnknownCredential(credId: CredId)

  /** One call into a collaborator, as recorded in the call log of a build. */
  datatype Call =
    | GetCredential(credId: CredId)
    | GetSchema(schemaId: SchemaId)
    | GetCredDef(credDefId: CredDefId)
    | GetRevRegDef(revRegId: RevRegId)
    | GetRevRegDelta(revRegId: RevRegId, from: Timestamp, to: Timestamp)
    | CreateRevocationState(revRegId: RevRegId, credId: CredId, timestamp: Timestamp)
    | CreatePresentation

  /** The ledger's delta lookup: the delta of a registry over an interval, with
      the ledger's timestamp for it. */
  type DeltaFetcher = (RevRegId, Timestamp, Timestamp) -> Result<(Delta, Timestamp), Error>

  /** The tails file of a registry: a local path, fetched and cached on first use. */
  type TailsLookup = RevRegDef -> Result<string, Error>

  /** The holder's `create_revocation_state(cred_rev_id, reg_def, delta, timestamp,
      tails_path)`. */
  type StateBuilder = (string, RevRegDef, Delta, Timestamp, string) -> Result<RevState, Error>

  /** The collaborators, as functions of their arguments. */
  datatype Environment = Environment(
    getCredential: CredId -> Result<CredentialRecord, Error>,
    getSchema: SchemaId -> Result<Schema, Error>,
    getCredDef: CredDefId -> Result<CredDef, Error>,
    getRevRegDef: RevRegId -> Result<RevRegDef, Error>,
    getRevRegDelta: DeltaFetcher,
    tailsPath: TailsLookup,
    createRevocationState: StateBuilder,
    createPresentation: (ProofRequest, Option<Section>, Option<Section>,
                         map<SchemaId, Schema>, map<CredDefId, CredDef>,
                         map<RevRegId, map<Timestamp, RevState>>) -> Result<Proof, Error>)

  /** An entry of `requested_referents`: the credential a referent uses, the interval
      it must prove non-revocation for, and the timestamp resolved for it. */
  datatype Precis = Precis(credId: CredId, nonRevoked: Option<Interval>, timestamp: Option<Timestamp>)
}
