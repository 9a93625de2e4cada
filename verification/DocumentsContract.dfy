/** The document registry as an object: its storage maps and the messages that update them in
    place. Every method is tied to the function of the same message. */
module DocumentsContract {
  import opened Common
  import opened Documents

  class IpfsMetadataRegistry {
    const admin: Address
    var documents: map<nat, Document>
    var propertyDocuments: map<nat, seq<nat>>
    var cidToDocument: map<string, nat>
    var documentCount: nat
    var rules: Rules
    var propertyPinnedSize: map<nat, nat>
    var accessPermissions: map<(nat, Address), Access>

    ghost function View(): State
      reads this
    {
      State(admin, documents, propertyDocuments, cidToDocument, documentCount, rules, propertyPinnedSize, accessPermissions)
    }

    constructor WithRules(deployer: Address, validationRules: Rules)
      ensures View() == New(deployer, validationRules)
    {
      admin, rules := deployer, validationRules;
      documents, propertyDocuments, cidToDocument, documentCount := map[], map[], map[], 0;
      propertyPinnedSize, accessPermissions := map[], map[];
    }

    method CheckWriteAccess(property: nat, account: Address) returns (ok: bool)
      ensures ok == CanWrite(View(), property, account)
    {
      if account == admin {
        return true;
      }
      var level := NoAccess;
      if (property, account) in accessPermissions {
        level := accessPermissions[(property, account)];
      }
      return level == Write || level == FullAccess;
    }

    method CheckReadAccess(property: nat, account: Address) returns (ok: bool)
      ensures ok == CanRead(View(), property, account)
    {
      if account == admin {
        return true;
      }
      return (property, account) in accessPermissions && accessPermissions[(property, account)] != NoAccess;
    }

    /** Accepts a content id by its prefix and length. */
    method ValidateIpfsCid(cid: string) returns (ok: bool)
      ensures ok == ValidCid(cid)
    {
      if cid == "" {
        return false;
      }
      if "Qm" <= cid {
        return |cid| == 46;
      } else if cid[0] == 'b' {
        return |cid| >= 10;
      }
      return false;
    }

    method ValidateAndRegisterMetadata(e: Env, property: nat, valid: bool) returns (r: Result<Receipt, Error>)
      modifies `accessPermissions
      ensures Commits(RegisterMetadata(old(View()), e, property, valid), old(View()), View(), r)
    {
      if !valid {
        return Err(InvalidMetadata);
      }
      accessPermissions := accessPermissions[(property, e.caller) := FullAccess];
      return Ok(Done);
    }

    method RegisterIpfsDocument(e: Env, u: Upload) returns (r: Result<Receipt, Error>)
      modifies `documents, `propertyDocuments, `cidToDocument, `documentCount
      ensures Commits(Register(old(View()), e, u), old(View()), View(), r)
    {
      hide CanWrite, ValidCid;
      var writable := CheckWriteAccess(u.property, e.caller);
      if !writable {
        return Err(Unauthorized);
      }
      var valid := ValidateIpfsCid(u.cid);
      if !valid {
        return Err(InvalidIpfsCid);
      }
      if u.cid in cidToDocument {
        return Err(DocumentAlreadyExists);
      }
      if u.size > rules.maxFileSize {
        return Err(SizeLimitExceeded);
      }
      var listed := ListAt(propertyDocuments, u.property);
      if |listed| >= rules.maxDocuments {
        return Err(SizeLimitExceeded);
      }
      if |rules.mimeTypes| > 0 {
        if u.mimeType !in rules.mimeTypes {
          return Err(FileTypeNotAllowed);
        }
      }
      documentCount := documentCount + 1;
      var id := documentCount;
      documents := documents[id := Document(u.property, u.cid, u.hash, u.size, u.mimeType, false, u.encrypted, e.caller,
                                            e.now, e.now)];
      cidToDocument := cidToDocument[u.cid := id];
      listed := listed + [id];
      propertyDocuments := propertyDocuments[u.property := listed];
      return Ok(Registered(id));
    }

    method PinDocument(e: Env, id: nat) returns (r: Result<Receipt, Error>)
      modifies `documents, `propertyPinnedSize
      ensures Commits(Pin(old(View()), e, id), old(View()), View(), r)
    {
      hide CanWrite, WrapU64;
      if id !in documents {
        return Err(DocumentNotFound);
      }
      var document := documents[id];
      var writable := CheckWriteAccess(document.property, e.caller);
      if !writable {
        return Err(Unauthorized);
      }
      if document.pinned {
        return Ok(Done);
      }
      var current := CountAt(propertyPinnedSize, document.property);
      if WrapU64(current + document.size) > rules.maxPinned {
        return Err(PinLimitExceeded);
      }
      document := document.(pinned := true);
      documents := documents[id := document];
      propertyPinnedSize := propertyPinnedSize[document.property := WrapU64(current + document.size)];
      return Ok(Done);
    }

    method UnpinDocument(e: Env, id: nat) returns (r: Result<Receipt, Error>)
      modifies `documents, `propertyPinnedSize
      ensures Commits(Unpin(old(View()), e, id), old(View()), View(), r)
    {
      hide CanWrite;
      if id !in documents {
        return Err(DocumentNotFound);
      }
      var document := documents[id];
      var writable := CheckWriteAccess(document.property, e.caller);
      if !writable {
        return Err(Unauthorized);
      }
      if !document.pinned {
        return Ok(Done);
      }
      document := document.(pinned := false);
      documents := documents[id := document];
      var current := CountAt(propertyPinnedSize, document.property);
      if current >= document.size {
        propertyPinnedSize := propertyPinnedSize[document.property := current - document.size];
      }
      return Ok(Done);
    }

    method VerifyContentHash(e: Env, id: nat, hash: nat) returns (r: Result<Receipt, Error>)
      modifies `documents
      ensures Commits(VerifyHash(old(View()), e, id, hash), old(View()), View(), r)
    {
      hide CanRead;
      if id !in documents {
        return Err(DocumentNotFound);
      }
      var document := documents[id];
      var readable := CheckReadAccess(document.property, e.caller);
      if !readable {
        return Err(Unauthorized);
      }
      if document.hash != hash {
        return Err(ContentHashMismatch);
      }
      documents := documents[id := document.(verifiedAt := e.now)];
      return Ok(Done);
    }

    method GrantAccess(e: Env, property: nat, account: Address, level: Access) returns (r: Result<Receipt, Error>)
      modifies `accessPermissions
      ensures Commits(Grant(old(View()), e, property, account, level), old(View()), View(), r)
    {
      if e.caller != admin {
        if (property, e.caller) !in accessPermissions || accessPermissions[(property, e.caller)] != FullAccess {
          return Err(Unauthorized);
        }
      }
      accessPermissions := accessPermissions[(property, account) := level];
      return Ok(Done);
    }

    method RevokeAccess(e: Env, property: nat, account: Address) returns (r: Result<Receipt, Error>)
      modifies `accessPermissions
      ensures Commits(Revoke(old(View()), e, property, account), old(View()), View(), r)
    {
      if e.caller != admin {
        if (property, e.caller) !in accessPermissions || accessPermissions[(property, e.caller)] != FullAccess {
          return Err(Unauthorized);
        }
      }
      accessPermissions := accessPermissions - {(property, account)};
      return Ok(Done);
    }

    method UpdateValidationRules(e: Env, newRules: Rules) returns (r: Result<Receipt, Error>)
      modifies `rules
      ensures Commits(UpdateRules(old(View()), e, newRules), old(View()), View(), r)
    {
      if e.caller != admin {
        return Err(Unauthorized);
      }
      rules := newRules;
      return Ok(Done);
    }

    method AddAllowedMimeType(e: Env, mimeType: string) returns (r: Result<Receipt, Error>)
      modifies `rules
      ensures Commits(AddMimeType(old(View()), e, mimeType), old(View()), View(), r)
    {
      if e.caller != admin {
        return Err(Unauthorized);
      }
      if mimeType !in rules.mimeTypes {
        rules := rules.(mimeTypes := rules.mimeTypes + [mimeType]);
      }
      return Ok(Done);
    }

    method ReportMaliciousFile(e: Env, id: nat) returns (r: Result<Receipt, Error>)
      modifies `documents, `propertyDocuments, `cidToDocument
      ensures Commits(Report(old(View()), e, id), old(View()), View(), r)
    {
      hide Without;
      if e.caller != admin {
        return Err(Unauthorized);
      }
      if id !in documents {
        return Err(DocumentNotFound);
      }
      var document := documents[id];
      documents := documents - {id};
      cidToDocument := cidToDocument - {document.cid};
      var listed := Without(ListAt(propertyDocuments, document.property), id);
      propertyDocuments := propertyDocuments[document.property := listed];
      return Ok(Reported(id, document.property, if document.pinned then document.size else 0));
    }
  }
}
