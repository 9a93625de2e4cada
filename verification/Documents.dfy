/** The document registry: documents with an index by content id, an index by property and a
    pinned-size account per property, as functions from storage to storage. */
module Documents {
  import opened Common

  datatype Error =
    | Unauthorized | InvalidMetadata | SizeLimitExceeded | InvalidIpfsCid | FileTypeNotAllowed | PinLimitExceeded
    | DocumentNotFound | DocumentAlreadyExists | ContentHashMismatch

  datatype Document = Document(
    property: nat, cid: string, hash: nat, size: nat, mimeType: string, pinned: bool, encrypted: bool,
    uploader: Address, uploadedAt: nat, verifiedAt: nat)

  datatype Rules = Rules(maxFileSize: nat, mimeTypes: seq<string>, maxDocuments: nat, maxPinned: nat)

  datatype Access = NoAccess | Read | Write | FullAccess

  datatype State = State(
    admin: Address, documents: map<nat, Document>, lists: map<nat, seq<nat>>, cids: map<string, nat>, count: nat,
    rules: Rules, pinned: map<nat, nat>, access: map<(nat, Address), Access>)

  datatype Env = Env(caller: Address, now: nat)

  datatype Receipt =
    | Done
    | Registered(id: nat)
    | Reported(id: nat, property: nat, lost: nat)

  type Answer = Result<(State, Receipt), Error>

  /** The rules of a registry that is created without any. */
  const DEFAULT_RULES: Rules := Rules(100_000_000, [], 100, 500_000_000)

  function New(admin: Address, rules: Rules): State {
    State(admin, map[], map[], map[], 0, rules, map[], map[])
  }

  /** A version 0 id starts with "Qm" and has 46 characters; a version 1 id starts with "b"
      and has at least 10. */
  predicate ValidCid(cid: string) {
    if "Qm" <= cid then |cid| == 46 else "b" <= cid && |cid| >= 10
  }

  function AccessOf(s: State, property: nat, account: Address): Access {
    if (property, account) in s.access then s.access[(property, account)] else NoAccess
  }

  predicate CanRead(s: State, property: nat, account: Address) {
    account == s.admin || AccessOf(s, property, account) != NoAccess
  }

  predicate CanWrite(s: State, property: nat, account: Address) {
    account == s.admin || AccessOf(s, property, account) == Write || AccessOf(s, property, account) == FullAccess
  }

  predicate CanGrant(s: State, property: nat, account: Address) {
    account == s.admin || AccessOf(s, property, account) == FullAccess
  }

  /** Registering metadata gives the caller full access; `valid` says whether the
      metadata itself, which is not kept here, passes its rules. */
  function RegisterMetadata(s: State, e: Env, property: nat, valid: bool): Answer {
    if !valid then Err(InvalidMetadata)
    else Ok((s.(access := s.access[(property, e.caller) := FullAccess]), Done))
  }

  datatype Upload = Upload(property: nat, cid: string, hash: nat, size: nat, mimeType: string, encrypted: bool)

  function RegisterFault(s: State, e: Env, u: Upload): Option<Error> {
    if !CanWrite(s, u.property, e.caller) then Some(Unauthorized)
    else if !ValidCid(u.cid) then Some(InvalidIpfsCid)
    else if u.cid in s.cids then Some(DocumentAlreadyExists)
    else if u.size > s.rules.maxFileSize then Some(SizeLimitExceeded)
    else if |ListAt(s.lists, u.property)| >= s.rules.maxDocuments then Some(SizeLimitExceeded)
    else if s.rules.mimeTypes != [] && u.mimeType !in s.rules.mimeTypes then Some(FileTypeNotAllowed)
    else None
  }

  function Register(s: State, e: Env, u: Upload): Answer {
    var fault := RegisterFault(s, e, u);
    if fault.Some? then Err(fault.value)
    else
      var id := s.count + 1;
      var d := Document(u.property, u.cid, u.hash, u.size, u.mimeType, false, u.encrypted, e.caller, e.now, e.now);
      Ok((s.(count := id,
             documents := s.documents[id := d],
             cids := s.cids[u.cid := id],
             lists := s.lists[u.property := ListAt(s.lists, u.property) + [id]]),
          Registered(id)))
  }

  /** Marks a document and stores its property's new pinned size. */
  function Mark(s: State, id: nat, pinned: bool, size: nat): State
    requires id in s.documents
  {
    s.(documents := s.documents[id := s.documents[id].(pinned := pinned)],
       pinned := s.pinned[s.documents[id].property := size])
  }

  function Pin(s: State, e: Env, id: nat): Answer {
    if id !in s.documents then Err(DocumentNotFound)
    else
      var d := s.documents[id];
      var size := WrapU64(CountAt(s.pinned, d.property) + d.size);
      if !CanWrite(s, d.property, e.caller) then Err(Unauthorized)
      else if d.pinned then Ok((s, Done))
      else if size > s.rules.maxPinned then Err(PinLimitExceeded)
      else Ok((Mark(s, id, true, size), Done))
  }

  function Unpin(s: State, e: Env, id: nat): Answer {
    if id !in s.documents then Err(DocumentNotFound)
    else
      var d := s.documents[id];
      var size := CountAt(s.pinned, d.property);
      if !CanWrite(s, d.property, e.caller) then Err(Unauthorized)
      else if !d.pinned then Ok((s, Done))
      else if size >= d.size then Ok((Mark(s, id, false, size - d.size), Done))
      else Ok((s.(documents := s.documents[id := d.(pinned := false)]), Done))
  }

  function VerifyHash(s: State, e: Env, id: nat, hash: nat): Answer {
    if id !in s.documents then Err(DocumentNotFound)
    else
      var d := s.documents[id];
      if !CanRead(s, d.property, e.caller) then Err(Unauthorized)
      else if d.hash != hash then Err(ContentHashMismatch)
      else Ok((s.(documents := s.documents[id := d.(verifiedAt := e.now)]), Done))
  }

  function Grant(s: State, e: Env, property: nat, account: Address, level: Access): Answer {
    if !CanGrant(s, property, e.caller) then Err(Unauthorized)
    else Ok((s.(access := s.access[(property, account) := level]), Done))
  }

  function Revoke(s: State, e: Env, property: nat, account: Address): Answer {
    if !CanGrant(s, property, e.caller) then Err(Unauthorized)
    else Ok((s.(access := s.access - {(property, account)}), Done))
  }

  function UpdateRules(s: State, e: Env, rules: Rules): Answer {
    if e.caller != s.admin then Err(Unauthorized) else Ok((s.(rules := rules), Done))
  }

  function AddMimeType(s: State, e: Env, mimeType: string): Answer {
    if e.caller != s.admin then Err(Unauthorized)
    else if mimeType in s.rules.mimeTypes then Ok((s, Done))
    else Ok((s.(rules := s.rules.(mimeTypes := s.rules.mimeTypes + [mimeType])), Done))
  }

  /** Removes a reported document from the registry and both indexes. The pinned size is left
      as it is, so the size of a document reported while pinned stays counted. */
  function Report(s: State, e: Env, id: nat): Answer {
    if e.caller != s.admin then Err(Unauthorized)
    else if id !in s.documents then Err(DocumentNotFound)
    else
      var d := s.documents[id];
      Ok((s.(documents := s.documents - {id},
             cids := s.cids - {d.cid},
             lists := s.lists[d.property := Without(ListAt(s.lists, d.property), id)]),
          Reported(id, d.property, if d.pinned then d.size else 0)))
  }

  // ---------------------------------------------------------------------------------------
  // Runs
  // ---------------------------------------------------------------------------------------

  datatype Message =
    | MMetadata(property: nat, valid: bool)
    | MRegister(upload: Upload)
    | MPin(id: nat)
    | MUnpin(id: nat)
    | MVerify(id: nat, hash: nat)
    | MGrant(property: nat, account: Address, level: Access)
    | MRevoke(property: nat, account: Address)
    | MRules(rules: Rules)
    | MMimeType(mimeType: string)
    | MReport(id: nat)

  function Handle(s: State, e: Env, m: Message): Answer {
    match m
    case MMetadata(property, valid) => RegisterMetadata(s, e, property, valid)
    case MRegister(upload) => Register(s, e, upload)
    case MPin(id) => Pin(s, e, id)
    case MUnpin(id) => Unpin(s, e, id)
    case MVerify(id, hash) => VerifyHash(s, e, id, hash)
    case MGrant(property, account, level) => Grant(s, e, property, account, level)
    case MRevoke(property, account) => Revoke(s, e, property, account)
    case MRules(rules) => UpdateRules(s, e, rules)
    case MMimeType(mimeType) => AddMimeType(s, e, mimeType)
    case MReport(id) => Report(s, e, id)
  }
}
