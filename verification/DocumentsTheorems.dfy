/** What every run of the document registry keeps: the three indexes agree with the documents,
    and the pinned size of a property is that of its pinned documents plus what reports leaked. */
module DocumentsTheorems {
  import opened Common
  import opened Documents

  /** Sizes of the documents of each property that were reported while pinned. */
  type Leaks = map<nat, nat>

  function Post(leaks: Leaks, r: Receipt): Leaks {
    match r
    case Reported(_, property, lost) => leaks[property := CountAt(leaks, property) + lost]
    case _ => leaks
  }

  // ---------------------------------------------------------------------------------------
  // Indexes
  // ---------------------------------------------------------------------------------------

  ghost predicate CidsAgree(documents: map<nat, Document>, cids: map<string, nat>) {
    && (forall c: string | c in cids :: cids[c] in documents && documents[cids[c]].cid == c)
    && (forall d: nat | d in documents :: documents[d].cid in cids && cids[documents[d].cid] == d)
  }

  /** The property of each document. */
  function Owners(documents: map<nat, Document>): map<nat, nat> {
    map d | d in documents :: documents[d].property
  }

  ghost predicate Increasing(list: seq<nat>) {
    forall i, j | 0 <= i < j < |list| :: list[i] < list[j]
  }

  ghost predicate ListsAgree(documents: map<nat, Document>, lists: map<nat, seq<nat>>, count: nat) {
    && Indexes<nat, nat>(lists, Owners(documents))
    && AllIncreasing(lists)
    && (forall d: nat | d in documents :: 1 <= d <= count)
  }

  lemma {:induction false} WithoutIncreasing(list: seq<nat>, x: nat)
    requires Increasing(list)
    ensures Increasing(Without(list, x))
  {
    if list != [] {
      var init, last := list[..|list| - 1], list[|list| - 1];
      WithoutIncreasing(init, x);
      forall i | 0 <= i < |Without(init, x)| ensures Without(init, x)[i] < last {
        assert Without(init, x)[i] in init;
      }
    }
  }

  lemma RegisterLists(documents: map<nat, Document>, lists: map<nat, seq<nat>>, count: nat, d: Document)
    requires ListsAgree(documents, lists, count)
    ensures ListsAgree(documents[count + 1 := d], lists[d.property := ListAt(lists, d.property) + [count + 1]], count + 1)
  {
    var id := count + 1;
    var documents', lists' := documents[id := d], lists[d.property := ListAt(lists, d.property) + [id]];
    IndexAdd<nat, nat>(lists, Owners(documents), id, d.property);
    assert Owners(documents') == Owners(documents)[id := d.property];
    forall p: nat ensures Increasing(ListAt(lists', p)) {
      assert Increasing(ListAt(lists, p));
      if p == d.property {
        ListedWithin(documents, lists, count, p);
        assert forall i | 0 <= i < |ListAt(lists, p)| :: ListAt(lists, p)[i] in ListAt(lists, p);
      }
    }
  }

  lemma ListedWithin(documents: map<nat, Document>, lists: map<nat, seq<nat>>, count: nat, p: nat)
    requires ListsAgree(documents, lists, count)
    ensures forall x | x in ListAt(lists, p) :: x in documents && documents[x].property == p && 1 <= x <= count
  {
    assert Lists<nat, nat>(ListAt(lists, p), Owners(documents), p);
  }

  ghost predicate AllIncreasing(lists: map<nat, seq<nat>>) {
    forall p: nat :: Increasing(ListAt(lists, p))
  }

  lemma ReportIncreases(lists: map<nat, seq<nat>>, p: nat, id: nat)
    requires AllIncreasing(lists)
    ensures AllIncreasing(lists[p := Without(ListAt(lists, p), id)])
  {
    hide Without, Increasing;
    WithoutIncreasing(ListAt(lists, p), id);
    var lists' := lists[p := Without(ListAt(lists, p), id)];
    forall q: nat ensures Increasing(ListAt(lists', q)) {
      assert Increasing(ListAt(lists, q));
    }
  }

  lemma ReportLists(documents: map<nat, Document>, lists: map<nat, seq<nat>>, count: nat, id: nat)
    requires ListsAgree(documents, lists, count) && id in documents
    ensures var p := documents[id].property;
            ListsAgree(documents - {id}, lists[p := Without(ListAt(lists, p), id)], count)
  {
    hide Without, Increasing, Indexes;
    IndexRemove<nat, nat>(lists, Owners(documents), id);
    assert Owners(documents - {id}) == Owners(documents) - {id};
    ReportIncreases(lists, documents[id].property, id);
  }

  lemma SameLists(documents: map<nat, Document>, documents': map<nat, Document>, lists: map<nat, seq<nat>>, count: nat)
    requires ListsAgree(documents, lists, count) && Owners(documents') == Owners(documents)
    ensures ListsAgree(documents', lists, count)
  {
    assert documents'.Keys == Owners(documents').Keys;
    assert documents.Keys == Owners(documents).Keys;
  }

  // ---------------------------------------------------------------------------------------
  // Pinned sizes
  // ---------------------------------------------------------------------------------------

  /** The size a document adds to the pinned size of one property. */
  function PinnedOn(p: nat): (nat, Document) -> int {
    (id: nat, d: Document) => if d.property == p && d.pinned then d.size else 0
  }

  /** The account of every property, with no file above `file` and no account above `quota`. */
  ghost predicate Accounted(documents: map<nat, Document>, pinned: map<nat, nat>, leaks: Leaks, quota: nat, file: nat) {
    && (forall p: nat :: SumBy(documents, PinnedOn(p)) + CountAt(leaks, p) == CountAt(pinned, p))
    && (forall p: nat :: CountAt(pinned, p) <= quota)
    && (forall d: nat | d in documents :: documents[d].size <= file)
  }

  lemma MarkAccounted(s: State, leaks: Leaks, quota: nat, file: nat, id: nat, pinned: bool, size: nat)
    requires Accounted(s.documents, s.pinned, leaks, quota, file) && id in s.documents && s.documents[id].pinned != pinned
    requires var d := s.documents[id];
             size <= quota
             && size == (if pinned then CountAt(s.pinned, d.property) + d.size else CountAt(s.pinned, d.property) - d.size)
    ensures var s' := Mark(s, id, pinned, size); Accounted(s'.documents, s'.pinned, leaks, quota, file)
  {
    var s' := Mark(s, id, pinned, size);
    forall p: nat ensures SumBy(s'.documents, PinnedOn(p)) + CountAt(leaks, p) == CountAt(s'.pinned, p) {
      SumInsert<nat, Document>(s.documents, id, s.documents[id].(pinned := pinned), PinnedOn(p));
    }
  }

  /** A pinned document's size is always still counted. */
  lemma PinnedWithin(documents: map<nat, Document>, pinned: map<nat, nat>, leaks: Leaks, quota: nat, file: nat, id: nat)
    requires Accounted(documents, pinned, leaks, quota, file) && id in documents && documents[id].pinned
    ensures documents[id].size <= CountAt(pinned, documents[id].property)
  {
    var p := documents[id].property;
    SumTerm<nat, Document>(documents, PinnedOn(p));
    assert PinnedOn(p)(id, documents[id]) <= SumBy(documents, PinnedOn(p));
  }

  lemma RegisterAccounted(documents: map<nat, Document>, pinned: map<nat, nat>, leaks: Leaks, quota: nat, file: nat, id: nat, d: Document)
    requires Accounted(documents, pinned, leaks, quota, file) && id !in documents && !d.pinned && d.size <= file
    ensures Accounted(documents[id := d], pinned, leaks, quota, file)
  {
    forall p: nat ensures SumBy(documents[id := d], PinnedOn(p)) == SumBy(documents, PinnedOn(p)) {
      SumInsert<nat, Document>(documents, id, d, PinnedOn(p));
    }
  }

  lemma VerifyAccounted(documents: map<nat, Document>, pinned: map<nat, nat>, leaks: Leaks, quota: nat, file: nat, id: nat, now: nat)
    requires Accounted(documents, pinned, leaks, quota, file) && id in documents
    ensures Accounted(documents[id := documents[id].(verifiedAt := now)], pinned, leaks, quota, file)
  {
    var d := documents[id].(verifiedAt := now);
    forall p: nat ensures SumBy(documents[id := d], PinnedOn(p)) == SumBy(documents, PinnedOn(p)) {
      SumInsert<nat, Document>(documents, id, d, PinnedOn(p));
    }
  }

  lemma ReportAccounted(documents: map<nat, Document>, pinned: map<nat, nat>, leaks: Leaks, quota: nat, file: nat, id: nat)
    requires Accounted(documents, pinned, leaks, quota, file) && id in documents
    ensures var d := documents[id];
            Accounted(documents - {id}, pinned, Post(leaks, Reported(id, d.property, if d.pinned then d.size else 0)), quota, file)
  {
    var d := documents[id];
    var leaks' := Post(leaks, Reported(id, d.property, if d.pinned then d.size else 0));
    forall p: nat ensures SumBy(documents - {id}, PinnedOn(p)) + CountAt(leaks', p) == CountAt(pinned, p) {
      SumRemove<nat, Document>(documents, id, PinnedOn(p));
      assert SumBy(documents, PinnedOn(p)) + CountAt(leaks, p) == CountAt(pinned, p);
    }
  }

  // ---------------------------------------------------------------------------------------
  // Every run
  // ---------------------------------------------------------------------------------------

  datatype Call = Call(env: Env, message: Message)

  datatype World = World(s: State, leaks: Leaks)

  function Exec(w: World, c: Call): World {
    match Handle(w.s, c.env, c.message)
    case Ok((s, r)) => World(s, Post(w.leaks, r))
    case Err(_) => w
  }

  function Run(start: State, calls: seq<Call>): World {
    if calls == [] then World(start, map[]) else Exec(Run(start, calls[..|calls| - 1]), calls[|calls| - 1])
  }

  ghost predicate Agree(s: State) {
    CidsAgree(s.documents, s.cids) && ListsAgree(s.documents, s.lists, s.count)
  }

  lemma UpdateAgrees(s: State, s': State, id: nat, d: Document)
    requires Agree(s) && id in s.documents && d.cid == s.documents[id].cid && d.property == s.documents[id].property
    requires s'.documents == s.documents[id := d] && s'.cids == s.cids && s'.lists == s.lists && s'.count == s.count
    ensures Agree(s')
  {
    hide ListsAgree;
    assert Owners(s'.documents) == Owners(s.documents);
    SameLists(s.documents, s'.documents, s.lists, s.count);
  }

  lemma RegisterAgrees(s: State, e: Env, u: Upload)
    requires Agree(s) && Register(s, e, u).Ok?
    ensures Agree(Register(s, e, u).value.0)
  {
    hide ListsAgree, ValidCid, CanWrite;
    var d := Document(u.property, u.cid, u.hash, u.size, u.mimeType, false, u.encrypted, e.caller, e.now, e.now);
    RegisterLists(s.documents, s.lists, s.count, d);
    CountIsFresh(s);
  }

  lemma CountIsFresh(s: State)
    requires Agree(s)
    ensures s.count + 1 !in s.documents
  {
  }

  lemma ReportAgrees(s: State, e: Env, id: nat)
    requires Agree(s) && Report(s, e, id).Ok?
    ensures Agree(Report(s, e, id).value.0)
  {
    hide ListsAgree, Without;
    ReportLists(s.documents, s.lists, s.count, id);
  }

  lemma ExecAgrees(w: World, c: Call)
    requires Agree(w.s)
    ensures Agree(Exec(w, c).s)
  {
    hide CidsAgree, ListsAgree, Register, Report, CanWrite, CanRead, CanGrant;
    var s, s' := w.s, Exec(w, c).s;
    match c.message
    case MRegister(upload) =>
      if Register(s, c.env, upload).Ok? {
        RegisterAgrees(s, c.env, upload);
      }
    case MReport(id) =>
      if Report(s, c.env, id).Ok? {
        ReportAgrees(s, c.env, id);
      }
    case MPin(id) =>
      if s' != s {
        UpdateAgrees(s, s', id, s'.documents[id]);
      }
    case MUnpin(id) =>
      if s' != s {
        UpdateAgrees(s, s', id, s'.documents[id]);
      }
    case MVerify(id, hash) =>
      if s' != s {
        UpdateAgrees(s, s', id, s'.documents[id]);
      }
    case _ =>
  }

  lemma {:induction false} RunAgrees(admin: Address, rules: Rules, calls: seq<Call>)
    ensures Agree(Run(New(admin, rules), calls).s)
  {
    hide Exec;
    if calls != [] {
      RunAgrees(admin, rules, calls[..|calls| - 1]);
      ExecAgrees(Run(New(admin, rules), calls[..|calls| - 1]), calls[|calls| - 1]);
    }
  }

  ghost predicate ValidCids(documents: map<nat, Document>) {
    forall d: nat | d in documents :: ValidCid(documents[d].cid)
  }

  lemma PutValid(documents: map<nat, Document>, id: nat, d: Document)
    requires ValidCids(documents) && ValidCid(d.cid)
    ensures ValidCids(documents[id := d]) && ValidCids(documents - {id})
  {
    hide ValidCid;
  }

  lemma ExecValid(w: World, c: Call)
    requires ValidCids(w.s.documents)
    ensures ValidCids(Exec(w, c).s.documents)
  {
    hide ValidCids, ValidCid, CanWrite, CanRead, CanGrant, Without, WrapU64, Register, Post;
    var s, s', e := w.s, Exec(w, c).s, c.env;
    match c.message
    case MRegister(u) => RegisterValid(s, e, u);
    case MPin(id) => KeepsCid(s, s', id);
    case MUnpin(id) => KeepsCid(s, s', id);
    case MVerify(id, hash) => KeepsCid(s, s', id);
    case MReport(id) =>
      if id in s.documents {
        CidOf(s.documents, id);
        PutValid(s.documents, id, s.documents[id]);
      }
    case _ =>
  }

  lemma RegisterValid(s: State, e: Env, u: Upload)
    requires ValidCids(s.documents)
    ensures Register(s, e, u).Ok? ==> ValidCids(Register(s, e, u).value.0.documents)
  {
    hide ValidCids, ValidCid, CanWrite;
    if Register(s, e, u).Ok? {
      PutValid(s.documents, s.count + 1,
               Document(u.property, u.cid, u.hash, u.size, u.mimeType, false, u.encrypted, e.caller, e.now, e.now));
    }
  }

  lemma CidOf(documents: map<nat, Document>, id: nat)
    requires ValidCids(documents) && id in documents
    ensures ValidCid(documents[id].cid)
  {
    hide ValidCid;
  }

  lemma KeepsCid(s: State, s': State, id: nat)
    requires ValidCids(s.documents)
    requires s'.documents == s.documents
             || (id in s.documents && id in s'.documents && s'.documents[id].cid == s.documents[id].cid
                 && s'.documents == s.documents[id := s'.documents[id]])
    ensures ValidCids(s'.documents)
  {
    hide ValidCid, ValidCids;
    if s'.documents != s.documents {
      CidOf(s.documents, id);
      PutValid(s.documents, id, s'.documents[id]);
    }
  }

  lemma {:induction false} RunValid(admin: Address, rules: Rules, calls: seq<Call>)
    ensures ValidCids(Run(New(admin, rules), calls).s.documents)
  {
    hide Exec;
    if calls != [] {
      RunValid(admin, rules, calls[..|calls| - 1]);
      ExecValid(Run(New(admin, rules), calls[..|calls| - 1]), calls[|calls| - 1]);
    }
  }

  /** Content ids are cut neither short nor long: no version 0 id is the beginning of another
      accepted id, the two versions never meet, and ten characters are the least. */
  lemma CidsAreWhole(cid: string, other: string)
    requires ValidCid(cid) && ValidCid(other)
    ensures |cid| >= 10
    ensures cid <= other && "Qm" <= cid ==> cid == other
    ensures "Qm" <= cid <==> !("b" <= cid)
    ensures cid <= other ==> ("Qm" <= cid <==> "Qm" <= other)
  {
    assert "Qm" <= cid ==> cid[0] == 'Q' && cid[1] == 'm';
    assert "b" <= cid <==> cid[0] == 'b';
    assert "Qm" <= other ==> other[0] == 'Q' && other[1] == 'm';
    assert "b" <= other <==> other[0] == 'b';
    if cid <= other {
      assert cid[0] == other[0] && cid[1] == other[1];
    }
  }

  /** In every run each document and each index entry has a whole content id, so an entry of
      version 0 is never the beginning of another. */
  lemma EveryRunHoldsWholeCids(admin: Address, rules: Rules, calls: seq<Call>, cid: string)
    requires cid in Run(New(admin, rules), calls).s.cids
    ensures |cid| >= 10 && ValidCid(cid)
    ensures forall other: string | other in Run(New(admin, rules), calls).s.cids && cid <= other && "Qm" <= cid :: cid == other
  {
    hide Run, ValidCid;
    RunValid(admin, rules, calls);
    RunAgrees(admin, rules, calls);
    var s := Run(New(admin, rules), calls).s;
    assert ValidCid(s.documents[s.cids[cid]].cid);
    CidsAreWhole(cid, cid);
    forall other: string | other in s.cids && cid <= other && "Qm" <= cid ensures cid == other {
      assert ValidCid(s.documents[s.cids[other]].cid);
      CidsAreWhole(cid, other);
    }
  }

  /** The rules a registry starts with, and those a message sets, stay within two limits. */
  predicate RulesWithin(rules: Rules, quota: nat, file: nat) {
    rules.maxPinned <= quota && rules.maxFileSize <= file
  }

  ghost predicate CallsWithin(calls: seq<Call>, quota: nat, file: nat) {
    forall i | 0 <= i < |calls| && calls[i].message.MRules? :: RulesWithin(calls[i].message.rules, quota, file)
  }

  ghost predicate Good(w: World, quota: nat, file: nat) {
    && Agree(w.s)
    && Accounted(w.s.documents, w.s.pinned, w.leaks, quota, file)
    && RulesWithin(w.s.rules, quota, file)
  }

  lemma PinAccounted(w: World, e: Env, id: nat, quota: nat, file: nat)
    requires Good(w, quota, file) && quota + file <= U64_MAX && Pin(w.s, e, id).Ok?
    ensures var s' := Pin(w.s, e, id).value.0; Accounted(s'.documents, s'.pinned, w.leaks, quota, file)
  {
    hide Agree, CanWrite, Mark;
    var d := w.s.documents[id];
    if !d.pinned {
      SizesFit(w, id, quota, file);
      MarkAccounted(w.s, w.leaks, quota, file, id, true, CountAt(w.s.pinned, d.property) + d.size);
    }
  }

  lemma SizesFit(w: World, id: nat, quota: nat, file: nat)
    requires Good(w, quota, file) && quota + file <= U64_MAX && id in w.s.documents
    ensures var d := w.s.documents[id];
            WrapU64(CountAt(w.s.pinned, d.property) + d.size) == CountAt(w.s.pinned, d.property) + d.size
  {
    hide Agree;
    assert CountAt(w.s.pinned, w.s.documents[id].property) <= quota;
  }

  lemma UnpinAccounted(w: World, e: Env, id: nat, quota: nat, file: nat)
    requires Good(w, quota, file) && Unpin(w.s, e, id).Ok?
    ensures var s' := Unpin(w.s, e, id).value.0; Accounted(s'.documents, s'.pinned, w.leaks, quota, file)
  {
    hide Agree, CanWrite, Mark;
    var d := w.s.documents[id];
    if d.pinned {
      PinnedWithin(w.s.documents, w.s.pinned, w.leaks, quota, file, id);
      assert CountAt(w.s.pinned, d.property) <= quota;
      MarkAccounted(w.s, w.leaks, quota, file, id, false, CountAt(w.s.pinned, d.property) - d.size);
    }
  }

  lemma ExecAccounted(w: World, c: Call, quota: nat, file: nat)
    requires Good(w, quota, file) && quota + file <= U64_MAX
    requires c.message.MRules? ==> RulesWithin(c.message.rules, quota, file)
    ensures var w' := Exec(w, c); Accounted(w'.s.documents, w'.s.pinned, w'.leaks, quota, file)
  {
    hide Agree, Accounted, Pin, Unpin, CanWrite, CanRead, CanGrant, Without;
    var s := w.s;
    match c.message
    case MRegister(u) =>
      if Register(s, c.env, u).Ok? {
        CountIsFresh(s);
        RegisterAccounted(s.documents, s.pinned, w.leaks, quota, file, s.count + 1,
                          Document(u.property, u.cid, u.hash, u.size, u.mimeType, false, u.encrypted, c.env.caller,
                                   c.env.now, c.env.now));
      }
    case MPin(id) =>
      if Pin(s, c.env, id).Ok? {
        PinAccounted(w, c.env, id, quota, file);
        QuietReceipts(s, c.env, id);
      }
    case MUnpin(id) =>
      if Unpin(s, c.env, id).Ok? {
        UnpinAccounted(w, c.env, id, quota, file);
        QuietReceipts(s, c.env, id);
      }
    case MVerify(id, hash) =>
      if VerifyHash(s, c.env, id, hash).Ok? {
        VerifyAccounted(s.documents, s.pinned, w.leaks, quota, file, id, c.env.now);
      }
    case MReport(id) =>
      if Report(s, c.env, id).Ok? {
        ReportAccounted(s.documents, s.pinned, w.leaks, quota, file, id);
      }
    case _ =>
  }

  lemma QuietReceipts(s: State, e: Env, id: nat)
    ensures Pin(s, e, id).Ok? ==> Pin(s, e, id).value.1 == Done
    ensures Unpin(s, e, id).Ok? ==> Unpin(s, e, id).value.1 == Done
  {
  }

  ghost predicate LeavesRules(s: State, answer: Answer) {
    answer.Ok? ==> answer.value.0.rules == s.rules
  }

  lemma DocumentsLeaveRules(s: State, e: Env, u: Upload, id: nat, hash: nat)
    ensures LeavesRules(s, Register(s, e, u)) && LeavesRules(s, VerifyHash(s, e, id, hash)) && LeavesRules(s, Report(s, e, id))
    ensures LeavesRules(s, Pin(s, e, id)) && LeavesRules(s, Unpin(s, e, id))
  {
    hide CanWrite, CanRead, Without, RegisterFault, WrapU64;
  }

  lemma ExecRules(w: World, c: Call, quota: nat, file: nat)
    requires RulesWithin(w.s.rules, quota, file) && (c.message.MRules? ==> RulesWithin(c.message.rules, quota, file))
    ensures RulesWithin(Exec(w, c).s.rules, quota, file)
  {
    hide CanGrant, Post, Register, VerifyHash, Report, Pin, Unpin;
    match c.message
    case MRegister(u) => DocumentsLeaveRules(w.s, c.env, u, 0, 0);
    case MPin(id) => DocumentsLeaveRules(w.s, c.env, Upload(0, "", 0, 0, "", false), id, 0);
    case MUnpin(id) => DocumentsLeaveRules(w.s, c.env, Upload(0, "", 0, 0, "", false), id, 0);
    case MVerify(id, hash) => DocumentsLeaveRules(w.s, c.env, Upload(0, "", 0, 0, "", false), id, hash);
    case MReport(id) => DocumentsLeaveRules(w.s, c.env, Upload(0, "", 0, 0, "", false), id, 0);
    case _ =>
  }

  lemma {:induction false} RunGood(admin: Address, rules: Rules, calls: seq<Call>, quota: nat, file: nat)
    requires quota + file <= U64_MAX && RulesWithin(rules, quota, file) && CallsWithin(calls, quota, file)
    ensures Good(Run(New(admin, rules), calls), quota, file)
  {
    hide Exec, RulesWithin;
    if calls != [] {
      var before, c := calls[..|calls| - 1], calls[|calls| - 1];
      RunGood(admin, rules, before, quota, file);
      RunAgrees(admin, rules, calls);
      ExecAccounted(Run(New(admin, rules), before), c, quota, file);
      ExecRules(Run(New(admin, rules), before), c, quota, file);
    }
  }

  /** The content-id index and the documents name each other, and each property lists exactly
      its live documents, once each, in increasing order. */
  lemma EveryRunKeepsTheIndexes(admin: Address, rules: Rules, calls: seq<Call>, property: nat)
    ensures var s := Run(New(admin, rules), calls).s;
            && (forall c: string, d: nat :: (c in s.cids && s.cids[c] == d) <==> (d in s.documents && s.documents[d].cid == c))
            && Increasing(ListAt(s.lists, property))
            && (forall d: nat :: d in ListAt(s.lists, property) <==> d in s.documents && s.documents[d].property == property)
  {
    hide Run;
    RunAgrees(admin, rules, calls);
    var s := Run(New(admin, rules), calls).s;
    assert Lists<nat, nat>(ListAt(s.lists, property), Owners(s.documents), property);
  }

  /** While no account can overflow, a property's pinned size is the total of its pinned
      documents plus what was reported while pinned, and the guard that skips an unpin's
      subtraction never fires. */
  lemma EveryRunAccountsForPins(admin: Address, rules: Rules, calls: seq<Call>, quota: nat, file: nat, property: nat)
    requires quota + file <= U64_MAX && RulesWithin(rules, quota, file) && CallsWithin(calls, quota, file)
    ensures var w := Run(New(admin, rules), calls);
            && CountAt(w.s.pinned, property) == SumBy(w.s.documents, PinnedOn(property)) + CountAt(w.leaks, property)
            && (forall d: nat | d in w.s.documents && w.s.documents[d].pinned ::
                  w.s.documents[d].size <= CountAt(w.s.pinned, w.s.documents[d].property))
  {
    hide Run, Agree;
    RunGood(admin, rules, calls, quota, file);
    var w := Run(New(admin, rules), calls);
    forall d: nat | d in w.s.documents && w.s.documents[d].pinned
      ensures w.s.documents[d].size <= CountAt(w.s.pinned, w.s.documents[d].property)
    {
      PinnedWithin(w.s.documents, w.s.pinned, w.leaks, quota, file, d);
    }
  }

  /** Pinning adds exactly the document's size if and only if the sum fits in 64 bits; when it
      does not, an account that wraps to a small value passes the limit. */
  lemma PinAddsUnlessItWraps(s: State, e: Env, id: nat)
    requires id in s.documents && !s.documents[id].pinned && Pin(s, e, id).Ok?
    requires CountAt(s.pinned, s.documents[id].property) <= U64_MAX && s.documents[id].size <= U64_MAX
    ensures var d, s' := s.documents[id], Pin(s, e, id).value.0;
            CountAt(s'.pinned, d.property) == CountAt(s.pinned, d.property) + d.size
            <==> CountAt(s.pinned, d.property) + d.size <= U64_MAX
  {
    hide CanWrite;
  }
}
