/** What the document registry asks of a message and what it does in return, in every reachable
    state. */
module DocumentsRules {
  import opened Common
  import opened Documents
  import opened DocumentsTheorems

  // ---------------------------------------------------------------------------------------
  // Access
  // ---------------------------------------------------------------------------------------

  /** The admin has full access everywhere; everybody else has what is on record. */
  function LevelOf(s: State, property: nat, a: Address): Access {
    if a == s.admin then FullAccess else if (property, a) in s.access then s.access[(property, a)] else NoAccess
  }

  predicate Writes(level: Access) {
    level == Write || level == FullAccess
  }

  /** Only the access of one account to one property changes. */
  ghost predicate OnlyAccess(s: State, s': State, property: nat, a: Address) {
    && s' == s.(access := s'.access)
    && (forall p: nat, x: Address | (p, x) != (property, a) :: LevelOf(s', p, x) == LevelOf(s, p, x))
  }

  /** Full access to a property is what granting and revoking take, and what registering valid
      metadata gives; the account in question then has exactly the level asked for. */
  lemma AccessRule(s: State, e: Env, property: nat, a: Address, level: Access, valid: bool)
    ensures var answer := Grant(s, e, property, a, level);
            && (answer.Ok? <==> LevelOf(s, property, e.caller) == FullAccess)
            && (answer.Ok? ==> OnlyAccess(s, answer.value.0, property, a) && answer.value.1 == Done
                               && (a != s.admin ==> LevelOf(answer.value.0, property, a) == level))
    ensures var answer := Revoke(s, e, property, a);
            && (answer.Ok? <==> LevelOf(s, property, e.caller) == FullAccess)
            && (answer.Ok? ==> OnlyAccess(s, answer.value.0, property, a) && answer.value.1 == Done
                               && (a != s.admin ==> LevelOf(answer.value.0, property, a) == NoAccess))
    ensures var answer := RegisterMetadata(s, e, property, valid);
            && (answer.Ok? <==> valid)
            && (answer.Ok? ==> OnlyAccess(s, answer.value.0, property, e.caller) && answer.value.1 == Done
                               && LevelOf(answer.value.0, property, e.caller) == FullAccess)
  {
  }

  // ---------------------------------------------------------------------------------------
  // Documents
  // ---------------------------------------------------------------------------------------

  /** The live documents of a property. */
  function DocumentsOf(s: State, property: nat): set<nat> {
    set d | d in s.documents && s.documents[d].property == property
  }

  lemma {:induction false} DistinctCounted(list: seq<nat>, items: set<nat>)
    requires NoDuplicates(list) && forall x :: x in list <==> x in items
    ensures |list| == |items|
  {
    if list == [] {
      assert items == {};
    } else {
      var last := list[|list| - 1];
      DistinctCounted(list[..|list| - 1], items - {last});
    }
  }

  /** "Qm" and 44 more characters, or "b" and at least nine more. */
  lemma CidsMean(cid: string)
    ensures ValidCid(cid) <==>
              || (|cid| == 46 && cid[0] == 'Q' && cid[1] == 'm')
              || (|cid| >= 10 && cid[0] == 'b')
  {
  }

  /** In every reachable state a document is registered exactly by somebody who may write, under a
      content id that is well-formed and names no live document, within the limits on size,
      type and number; it starts unpinned, uploaded and verified now, last in its list. */
  lemma RegistrationRule(admin: Address, rules: Rules, calls: seq<Call>, e: Env, u: Upload)
    ensures var s := Run(New(admin, rules), calls).s;
            Register(s, e, u).Ok?
            <==> && Writes(LevelOf(s, u.property, e.caller)) && ValidCid(u.cid)
                 && (forall d: nat | d in s.documents :: s.documents[d].cid != u.cid)
                 && u.size <= s.rules.maxFileSize && |DocumentsOf(s, u.property)| < s.rules.maxDocuments
                 && (s.rules.mimeTypes == [] || u.mimeType in s.rules.mimeTypes)
    ensures var s := Run(New(admin, rules), calls).s;
            Register(s, e, u).Ok? ==>
              var (s', r), id := Register(s, e, u).value, s.count + 1;
              && r == Registered(id) && id !in s.documents && s'.count == id
              && s'.admin == s.admin && s'.rules == s.rules && s'.pinned == s.pinned && s'.access == s.access
              && s'.documents.Keys == s.documents.Keys + {id}
              && (forall d: nat | d in s.documents :: s'.documents[d] == s.documents[d])
              && s'.cids == s.cids[u.cid := id]
              && s'.lists == s.lists[u.property := ListAt(s.lists, u.property) + [id]]
              && var d := s'.documents[id];
              && d.property == u.property && d.cid == u.cid && d.hash == u.hash && d.size == u.size && d.mimeType == u.mimeType
              && d.encrypted == u.encrypted && !d.pinned && d.uploader == e.caller && d.uploadedAt == d.verifiedAt == e.now
  {
    hide Run, ValidCid;
    RunAgrees(admin, rules, calls);
    var s := Run(New(admin, rules), calls).s;
    assert Lists<nat, nat>(ListAt(s.lists, u.property), Owners(s.documents), u.property);
    DistinctCounted(ListAt(s.lists, u.property), DocumentsOf(s, u.property));
    if u.cid in s.cids {
      assert s.documents[s.cids[u.cid]].cid == u.cid;
    }
  }

  /** Only document `id` is rewritten, and, when it is pinned or unpinned, its property's account. */
  ghost predicate OnlyDocument(s: State, s': State, id: nat) {
    && s' == s.(documents := s'.documents, pinned := s'.pinned)
    && s'.documents.Keys == s.documents.Keys && id in s.documents
    && (forall d: nat | d in s.documents && d != id :: s'.documents[d] == s.documents[d])
    && (forall p: nat | p != s.documents[id].property :: CountAt(s'.pinned, p) == CountAt(s.pinned, p))
  }

  /** Whoever may write pins a document as long as its property's account stays within the limit,
      and again to no effect; with room in 64 bits the account grows by its size. */
  lemma PinningRule(s: State, e: Env, id: nat)
    requires id in s.documents ==> CountAt(s.pinned, s.documents[id].property) + s.documents[id].size <= U64_MAX
    ensures Pin(s, e, id).Ok?
            <==> && id in s.documents && Writes(LevelOf(s, s.documents[id].property, e.caller))
                 && (s.documents[id].pinned
                     || CountAt(s.pinned, s.documents[id].property) + s.documents[id].size <= s.rules.maxPinned)
    ensures Pin(s, e, id).Ok? ==>
              var (s', r), d := Pin(s, e, id).value, s.documents[id];
              && r == Done
              && (d.pinned ==> s' == s)
              && (!d.pinned ==>
                    && OnlyDocument(s, s', id) && s'.documents[id] == d.(pinned := true)
                    && CountAt(s'.pinned, d.property) == CountAt(s.pinned, d.property) + d.size)
  {
  }

  /** Whoever may write unpins a document, which takes its size off the account, in every run in
      which no account can overflow. */
  lemma UnpinningRule(admin: Address, rules: Rules, calls: seq<Call>, quota: nat, file: nat, e: Env, id: nat)
    requires quota + file <= U64_MAX && RulesWithin(rules, quota, file) && CallsWithin(calls, quota, file)
    ensures var s := Run(New(admin, rules), calls).s;
            Unpin(s, e, id).Ok? <==> id in s.documents && Writes(LevelOf(s, s.documents[id].property, e.caller))
    ensures var s := Run(New(admin, rules), calls).s;
            Unpin(s, e, id).Ok? ==>
              var (s', r), d := Unpin(s, e, id).value, s.documents[id];
              && r == Done
              && (!d.pinned ==> s' == s)
              && (d.pinned ==>
                    && OnlyDocument(s, s', id) && s'.documents[id] == d.(pinned := false)
                    && CountAt(s'.pinned, d.property) == CountAt(s.pinned, d.property) - d.size)
  {
    hide Run;
    EveryRunAccountsForPins(admin, rules, calls, quota, file, 0);
  }

  /** An account that wrapped to less than the document's size is left as it is. */
  lemma WrappedAccountsStay(s: State, e: Env, id: nat)
    requires id in s.documents && s.documents[id].pinned && CountAt(s.pinned, s.documents[id].property) < s.documents[id].size
    requires Writes(LevelOf(s, s.documents[id].property, e.caller))
    ensures Unpin(s, e, id).Ok?
    ensures var s' := Unpin(s, e, id).value.0;
            OnlyDocument(s, s', id) && s'.pinned == s.pinned && s'.documents[id] == s.documents[id].(pinned := false)
  {
  }

  /** Whoever may read stamps a document whose hash is given; nothing else changes. */
  lemma VerificationRule(s: State, e: Env, id: nat, hash: nat)
    ensures VerifyHash(s, e, id, hash).Ok?
            <==> id in s.documents && LevelOf(s, s.documents[id].property, e.caller) != NoAccess && s.documents[id].hash == hash
    ensures VerifyHash(s, e, id, hash).Ok? ==>
              var (s', r) := VerifyHash(s, e, id, hash).value;
              && r == Done && OnlyDocument(s, s', id) && s'.pinned == s.pinned
              && s'.documents[id] == s.documents[id].(verifiedAt := e.now)
  {
  }

  /** The admin removes a document, which frees its content id and leaves its list in order; the
      report says what stays counted. */
  lemma ReportingRule(s: State, e: Env, id: nat)
    requires Agree(s)
    ensures Report(s, e, id).Ok? <==> e.caller == s.admin && id in s.documents
    ensures Report(s, e, id).Ok? ==>
              var (s', r), d := Report(s, e, id).value, s.documents[id];
              && r == Reported(id, d.property, if d.pinned then d.size else 0)
              && s' == s.(documents := s'.documents, cids := s'.cids, lists := s'.lists)
              && s'.documents == s.documents - {id} && d.cid !in s'.cids && Agree(s')
  {
    hide Agree;
    if Report(s, e, id).Ok? {
      ReportAgrees(s, e, id);
    }
  }

  /** The admin alone sets the rules, and lists a type once. */
  lemma RulesRule(s: State, e: Env, rules: Rules, mimeType: string)
    ensures UpdateRules(s, e, rules).Ok? <==> e.caller == s.admin
    ensures AddMimeType(s, e, mimeType).Ok? <==> e.caller == s.admin
    ensures e.caller == s.admin ==>
              && UpdateRules(s, e, rules) == Ok((s.(rules := rules), Done))
              && var (s', r) := AddMimeType(s, e, mimeType).value;
                 && r == Done && s' == s.(rules := s.rules.(mimeTypes := s'.rules.mimeTypes))
                 && s'.rules.mimeTypes == if mimeType in s.rules.mimeTypes then s.rules.mimeTypes
                                          else s.rules.mimeTypes + [mimeType]
  {
  }

  lemma StepKeepsAdmin(s: State, e: Env, m: Message)
    ensures Handle(s, e, m).Ok? ==> Handle(s, e, m).value.0.admin == s.admin
  {
    hide ValidCid, CanWrite, CanRead, CanGrant, Without, RegisterFault, WrapU64;
  }

  /** A registry keeps the admin it was created with. */
  lemma {:induction false} EveryRunKeepsTheAdmin(admin: Address, rules: Rules, calls: seq<Call>)
    ensures var s := Run(New(admin, rules), calls).s;
            && s.admin == admin
            && (calls == [] ==> s.rules == rules && s.access == map[] && s.pinned == map[] && s.documents == map[] && s.count == 0)
  {
    hide Handle, Post;
    if calls != [] {
      var before, c := calls[..|calls| - 1], calls[|calls| - 1];
      EveryRunKeepsTheAdmin(admin, rules, before);
      StepKeepsAdmin(Run(New(admin, rules), before).s, c.env, c.message);
    }
  }
}
