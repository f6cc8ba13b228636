/** The phone's chat history: one stored document per session, and an index of all sessions under a key of its own. */
module ChatHistory {
  import opened Common

  datatype Message = Message(role: string, content: string, time: int)

  datatype Doc = Doc(id: string, deviceId: string, title: string, messages: seq<Message>, createdAt: int, updatedAt: int)

  datatype Entry = Entry(id: string, deviceId: string, updatedAt: int)

  function EntryOf(doc: Doc): Entry {
    Entry(doc.id, doc.deviceId, doc.updatedAt)
  }

  /** A stored value after decoding; JSON itself is not modelled. Junk is an empty or undecodable text. */
  datatype Stored = SessionDoc(doc: Doc) | IndexDoc(entries: seq<Entry>) | Junk

  type Prefs = map<string, Stored>

  const INDEX_KEY := "crosslink.sessions.idx"
  const SESSION_PREFIX := "crosslink.session."

  function SessionKey(id: string): string {
    SESSION_PREFIX + id
  }

  lemma KeysAreDistinct(a: string, b: string)
    ensures SessionKey(a) != INDEX_KEY
    ensures SessionKey(a) == SessionKey(b) ==> a == b
  {
    assert SessionKey(a)[17] == '.' && INDEX_KEY[17] == 's';
    assert SessionKey(a)[18..] == a && SessionKey(b)[18..] == b;
  }

  function Load(prefs: Prefs, id: string): Option<Doc> {
    if SessionKey(id) in prefs && prefs[SessionKey(id)].SessionDoc? then Some(prefs[SessionKey(id)].doc) else None
  }

  function Index(prefs: Prefs): seq<Entry> {
    if INDEX_KEY in prefs && prefs[INDEX_KEY].IndexDoc? then prefs[INDEX_KEY].entries else []
  }

  /** The entries without those of one session. */
  function RemoveId(entries: seq<Entry>, id: string): (r: seq<Entry>)
    ensures forall e :: e in r <==> e in entries && e.id != id
  {
    if entries == [] then []
    else if entries[0].id == id then RemoveId(entries[1..], id)
    else [entries[0]] + RemoveId(entries[1..], id)
  }

  function Saved(prefs: Prefs, doc: Doc): Prefs {
    var stored := prefs[SessionKey(doc.id) := SessionDoc(doc)];
    stored[INDEX_KEY := IndexDoc(RemoveId(Index(stored), doc.id) + [EntryOf(doc)])]
  }

  function Deleted(prefs: Prefs, id: string): Prefs {
    var removed := prefs - {SessionKey(id)};
    if INDEX_KEY in removed && removed[INDEX_KEY].IndexDoc? then
      removed[INDEX_KEY := IndexDoc(RemoveId(Index(removed), id))]
    else removed
  }

  // ---- Agreement of index and documents ----

  ghost predicate NoDuplicates(entries: seq<Entry>) {
    forall i, j :: 0 <= i < j < |entries| ==> entries[i].id != entries[j].id
  }

  /** The index lists every stored session once, with that session's device and time, and nothing else. */
  ghost predicate Agree(prefs: Prefs) {
    && NoDuplicates(Index(prefs))
    && (forall e <- Index(prefs) :: Load(prefs, e.id).Some?
                                 && Load(prefs, e.id).value.deviceId == e.deviceId
                                 && Load(prefs, e.id).value.updatedAt == e.updatedAt)
    && (forall id: string :: Load(prefs, id).Some? ==>
          Load(prefs, id).value.id == id
          && Entry(id, Load(prefs, id).value.deviceId, Load(prefs, id).value.updatedAt) in Index(prefs))
  }

  lemma {:induction false} RemoveKeepsDistinct(entries: seq<Entry>, id: string)
    requires NoDuplicates(entries)
    ensures NoDuplicates(RemoveId(entries, id))
  {
    if entries == [] {
    } else {
      var rest := entries[1..];
      RemoveKeepsDistinct(rest, id);
      assert forall e :: e in RemoveId(rest, id) ==> e.id != entries[0].id;
      assert forall i :: 0 <= i < |RemoveId(rest, id)| ==> RemoveId(rest, id)[i] in RemoveId(rest, id);
    }
  }

  lemma SavedLoads(prefs: Prefs, doc: Doc)
    ensures Load(Saved(prefs, doc), doc.id) == Some(doc)
    ensures forall id: string :: id != doc.id ==> Load(Saved(prefs, doc), id) == Load(prefs, id)
    ensures Index(Saved(prefs, doc)) == RemoveId(Index(prefs), doc.id) + [EntryOf(doc)]
  {
    KeysAreDistinct(doc.id, doc.id);
    forall id: string | id != doc.id
      ensures Load(Saved(prefs, doc), id) == Load(prefs, id)
    {
      KeysAreDistinct(id, doc.id);
    }
  }

  lemma DeletedLoads(prefs: Prefs, id: string)
    ensures Load(Deleted(prefs, id), id) == None
    ensures forall other: string :: other != id ==> Load(Deleted(prefs, id), other) == Load(prefs, other)
    ensures Index(Deleted(prefs, id)) == RemoveId(Index(prefs), id)
  {
    KeysAreDistinct(id, id);
    forall other: string | other != id
      ensures Load(Deleted(prefs, id), other) == Load(prefs, other)
    {
      KeysAreDistinct(other, id);
    }
  }

  /** Removing a session's entries and adding a new one for it keeps ids distinct. */
  lemma ReplaceKeepsDistinct(entries: seq<Entry>, e: Entry)
    requires NoDuplicates(entries)
    ensures NoDuplicates(RemoveId(entries, e.id) + [e])
  {
    var kept := RemoveId(entries, e.id);
    RemoveKeepsDistinct(entries, e.id);
    assert forall i :: 0 <= i < |kept| ==> kept[i] in kept;
  }

  lemma SaveKeepsAgreement(prefs: Prefs, doc: Doc)
    requires Agree(prefs)
    ensures Agree(Saved(prefs, doc))
  {
    var e := EntryOf(doc);
    SavedLoads(prefs, doc);
    ReplaceKeepsDistinct(Index(prefs), e);
    assert e in RemoveId(Index(prefs), doc.id) + [e];
  }

  lemma DeleteKeepsAgreement(prefs: Prefs, id: string)
    requires Agree(prefs)
    ensures Agree(Deleted(prefs, id))
  {
    DeletedLoads(prefs, id);
    RemoveKeepsDistinct(Index(prefs), id);
  }

  datatype Op = Save(doc: Doc) | Delete(id: string)

  function Apply(prefs: Prefs, op: Op): Prefs {
    match op
    case Save(doc) => Saved(prefs, doc)
    case Delete(id) => Deleted(prefs, id)
  }

  /** After any sequence of saves and deletes index and documents agree. */
  lemma {:induction false} AlwaysAgree(ops: seq<Op>)
    ensures Agree(Fold(Apply, map[], ops))
  {
    if ops == [] {
      assert Index(map[]) == [];
    } else {
      var init := ops[..|ops| - 1];
      AlwaysAgree(init);
      match ops[|ops| - 1] {
        case Save(doc) => SaveKeepsAgreement(Fold(Apply, map[], init), doc);
        case Delete(id) => DeleteKeepsAgreement(Fold(Apply, map[], init), id);
      }
    }
  }

  function LastSave(ops: seq<Op>, id: string): Option<Doc> {
    if ops == [] then None
    else
      match ops[|ops| - 1]
      case Save(doc) => if doc.id == id then Some(doc) else LastSave(ops[..|ops| - 1], id)
      case Delete(other) => if other == id then None else LastSave(ops[..|ops| - 1], id)
  }

  /** The last operation on a session decides: it can be loaded, as saved last, if and only if that was a save. */
  lemma {:induction false} LastOperationWins(ops: seq<Op>, id: string)
    ensures Load(Fold(Apply, map[], ops), id) == LastSave(ops, id)
  {
    if ops == [] {
    } else {
      var init := ops[..|ops| - 1];
      LastOperationWins(init, id);
      match ops[|ops| - 1] {
        case Save(doc) => SavedLoads(Fold(Apply, map[], init), doc);
        case Delete(other) => DeletedLoads(Fold(Apply, map[], init), other);
      }
    }
  }

  // ---- Saves and deletes that overlap ----

  /** A save and a delete each wait between their two halves; other operations may run in the gap. */
  datatype Half = StoreDoc(doc: Doc) | StoreEntry(doc: Doc) | DropDoc(id: string) | DropEntry(id: string)

  function ApplyHalf(prefs: Prefs, half: Half): Prefs {
    match half
    case StoreDoc(doc) => prefs[SessionKey(doc.id) := SessionDoc(doc)]
    case StoreEntry(doc) => prefs[INDEX_KEY := IndexDoc(RemoveId(Index(prefs), doc.id) + [EntryOf(doc)])]
    case DropDoc(id) => prefs - {SessionKey(id)}
    case DropEntry(id) =>
      if INDEX_KEY in prefs && prefs[INDEX_KEY].IndexDoc? then
        prefs[INDEX_KEY := IndexDoc(RemoveId(Index(prefs), id))]
      else prefs
  }

  /** Without anything in the gap the halves make up the whole operation. */
  lemma HalvesMakeWholes(prefs: Prefs, doc: Doc, id: string)
    ensures ApplyHalf(ApplyHalf(prefs, StoreDoc(doc)), StoreEntry(doc)) == Saved(prefs, doc)
    ensures ApplyHalf(ApplyHalf(prefs, DropDoc(id)), DropEntry(id)) == Deleted(prefs, id)
  {
  }

  function LastDoc(halves: seq<Half>, id: string): Option<Doc> {
    if halves == [] then None
    else
      var earlier := LastDoc(halves[..|halves| - 1], id);
      match halves[|halves| - 1]
      case StoreDoc(doc) => if doc.id == id then Some(doc) else earlier
      case DropDoc(other) => if other == id then None else earlier
      case _ => earlier
  }

  function LastEntry(halves: seq<Half>, id: string): Option<Entry> {
    if halves == [] then None
    else
      var earlier := LastEntry(halves[..|halves| - 1], id);
      match halves[|halves| - 1]
      case StoreEntry(doc) => if doc.id == id then Some(EntryOf(doc)) else earlier
      case DropEntry(other) => if other == id then None else earlier
      case _ => earlier
  }

  lemma HalfLoads(prefs: Prefs, half: Half, id: string)
    ensures Load(ApplyHalf(prefs, half), id) ==
            match half
            case StoreDoc(doc) => if doc.id == id then Some(doc) else Load(prefs, id)
            case DropDoc(other) => if other == id then None else Load(prefs, id)
            case _ => Load(prefs, id)
  {
    match half {
      case StoreDoc(doc) => KeysAreDistinct(id, doc.id);
      case DropDoc(other) => KeysAreDistinct(id, other);
      case _ => KeysAreDistinct(id, id);
    }
  }

  lemma HalfIndexes(prefs: Prefs, half: Half)
    ensures Index(ApplyHalf(prefs, half)) ==
            match half
            case StoreEntry(doc) => RemoveId(Index(prefs), doc.id) + [EntryOf(doc)]
            case DropEntry(id) => RemoveId(Index(prefs), id)
            case _ => Index(prefs)
  {
    match half {
      case StoreDoc(doc) => KeysAreDistinct(doc.id, doc.id);
      case DropDoc(id) => KeysAreDistinct(id, id);
      case _ =>
    }
  }

  lemma {:induction false} DocsAreHistory(halves: seq<Half>, id: string)
    ensures Load(Fold(ApplyHalf, map[], halves), id) == LastDoc(halves, id)
    ensures LastDoc(halves, id).Some? ==> LastDoc(halves, id).value.id == id
  {
    if halves == [] {
    } else {
      var init := halves[..|halves| - 1];
      DocsAreHistory(init, id);
      HalfLoads(Fold(ApplyHalf, map[], init), halves[|halves| - 1], id);
    }
  }

  lemma {:induction false} EntriesAreHistory(halves: seq<Half>)
    ensures var index := Index(Fold(ApplyHalf, map[], halves));
            NoDuplicates(index) && forall e :: e in index <==> LastEntry(halves, e.id) == Some(e)
  {
    if halves == [] {
      assert Index(map[]) == [];
    } else {
      var init, half := halves[..|halves| - 1], halves[|halves| - 1];
      var prefs := Fold(ApplyHalf, map[], init);
      EntriesAreHistory(init);
      HalfIndexes(prefs, half);
      match half {
        case StoreEntry(doc) => ReplaceKeepsDistinct(Index(prefs), EntryOf(doc));
        case DropEntry(id) => RemoveKeepsDistinct(Index(prefs), id);
        case _ =>
      }
    }
  }

  lemma {:induction false} EntryCarriesId(halves: seq<Half>, id: string)
    ensures LastEntry(halves, id).Some? ==> LastEntry(halves, id).value.id == id
  {
    if halves == [] {
    } else {
      EntryCarriesId(halves[..|halves| - 1], id);
    }
  }

  /** The last half that touched a session's document and the last that touched its entry left the same session. */
  predicate Matches(halves: seq<Half>, id: string) {
    LastEntry(halves, id) == if LastDoc(halves, id).Some? then Some(EntryOf(LastDoc(halves, id).value)) else None
  }

  /** However saves and deletes overlap, the index never has a duplicate; and index and documents agree if and only if, for
      every session, the last half that touched its document and the last that touched its entry left the same session, or
      both left none. */
  lemma AgreementOfHalves(halves: seq<Half>)
    ensures NoDuplicates(Index(Fold(ApplyHalf, map[], halves)))
    ensures Agree(Fold(ApplyHalf, map[], halves)) <==>
            forall id: string :: Matches(halves, id)
  {
    var prefs := Fold(ApplyHalf, map[], halves);
    EntriesAreHistory(halves);
    forall id: string
      ensures Load(prefs, id) == LastDoc(halves, id)
      ensures LastDoc(halves, id).Some? ==> LastDoc(halves, id).value.id == id
      ensures LastEntry(halves, id).Some? ==> LastEntry(halves, id).value.id == id
    {
      DocsAreHistory(halves, id);
      EntryCarriesId(halves, id);
    }
    if Agree(prefs) {
      forall id: string
        ensures Matches(halves, id)
      {
        if Load(prefs, id).Some? {
          assert EntryOf(Load(prefs, id).value) in Index(prefs);
        }
      }
    }
    if forall id: string :: Matches(halves, id) {
      forall e | e in Index(prefs)
        ensures Load(prefs, e.id).Some? && EntryOf(Load(prefs, e.id).value) == e
      {
        assert Matches(halves, e.id);
      }
      forall id: string | Load(prefs, id).Some?
        ensures Load(prefs, id).value.id == id && EntryOf(Load(prefs, id).value) in Index(prefs)
      {
        assert Matches(halves, id);
      }
    }
  }

  function DocOp(half: Half): seq<Op> {
    match half
    case StoreDoc(doc) => [Save(doc)]
    case DropDoc(id) => [Delete(id)]
    case _ => []
  }

  function EntryOp(half: Half): seq<Op> {
    match half
    case StoreEntry(doc) => [Save(doc)]
    case DropEntry(id) => [Delete(id)]
    case _ => []
  }

  /** The operations in the order of their first halves, and in the order of their second halves. */
  function DocOps(halves: seq<Half>): seq<Op> {
    FlatMap(DocOp, halves)
  }

  function EntryOps(halves: seq<Half>): seq<Op> {
    FlatMap(EntryOp, halves)
  }

  lemma LastSaveSnoc(ops: seq<Op>, op: Op, id: string)
    ensures LastSave(ops + [op], id) ==
            match op
            case Save(doc) => if doc.id == id then Some(doc) else LastSave(ops, id)
            case Delete(other) => if other == id then None else LastSave(ops, id)
  {
    assert (ops + [op])[..|ops|] == ops;
  }

  lemma {:induction false} LastHalves(halves: seq<Half>, id: string)
    ensures LastDoc(halves, id) == LastSave(DocOps(halves), id)
    ensures LastEntry(halves, id) ==
            match LastSave(EntryOps(halves), id)
            case Some(doc) => Some(EntryOf(doc))
            case None => None
  {
    if halves == [] {
    } else {
      var init := halves[..|halves| - 1];
      LastHalves(init, id);
      assert DocOps(init) + [] == DocOps(init) && EntryOps(init) + [] == EntryOps(init);
      match halves[|halves| - 1] {
        case StoreDoc(doc) => LastSaveSnoc(DocOps(init), Save(doc), id);
        case DropDoc(other) => LastSaveSnoc(DocOps(init), Delete(other), id);
        case StoreEntry(doc) => LastSaveSnoc(EntryOps(init), Save(doc), id);
        case DropEntry(other) => LastSaveSnoc(EntryOps(init), Delete(other), id);
      }
    }
  }

  /** When second halves complete in the order of the first halves, and all have completed, index and documents agree,
      however the operations overlap. */
  lemma OrderedHalvesAgree(halves: seq<Half>)
    requires DocOps(halves) == EntryOps(halves)
    ensures Agree(Fold(ApplyHalf, map[], halves))
  {
    AgreementOfHalves(halves);
    forall id: string
      ensures Matches(halves, id)
    {
      LastHalves(halves, id);
    }
  }

  /** A later delete that completes both its halves in the gap of a save leaves an entry without a session. */
  lemma DeleteInsideSave(doc: Doc)
    ensures var prefs := Fold(ApplyHalf, map[], [StoreDoc(doc), DropDoc(doc.id)] + [DropEntry(doc.id), StoreEntry(doc)]);
            !Agree(prefs) && Load(prefs, doc.id) == None && EntryOf(doc) in Index(prefs)
  {
    var first := [StoreDoc(doc), DropDoc(doc.id)];
    FoldTwo(ApplyHalf, map[], StoreDoc(doc), DropDoc(doc.id));
    FoldAppend(ApplyHalf, map[], first, [DropEntry(doc.id), StoreEntry(doc)]);
    var p2 := Fold(ApplyHalf, map[], first);
    FoldTwo(ApplyHalf, p2, DropEntry(doc.id), StoreEntry(doc));
    var p3 := ApplyHalf(p2, DropEntry(doc.id));
    HalfLoads(ApplyHalf(map[], StoreDoc(doc)), DropDoc(doc.id), doc.id);
    HalfLoads(p2, DropEntry(doc.id), doc.id);
    HalfLoads(p3, StoreEntry(doc), doc.id);
    HalfIndexes(p3, StoreEntry(doc));
    assert EntryOf(doc) in RemoveId(Index(p3), doc.id) + [EntryOf(doc)];
  }

  // ---- Listing ----

  ghost predicate Newest(entries: seq<Entry>) {
    forall i, j :: 0 <= i < j < |entries| ==> entries[i].updatedAt >= entries[j].updatedAt
  }

  /** The sessions of a device are all there, once each, latest first. */
  ghost predicate Lists(prefs: Prefs, deviceId: string, ids: seq<string>) {
    && (forall id: string :: id in ids <==> Load(prefs, id).Some? && Load(prefs, id).value.deviceId == deviceId)
    && (forall i, j :: 0 <= i < j < |ids| ==> ids[i] != ids[j])
    && (forall i, j :: 0 <= i < j < |ids| ==>
          Load(prefs, ids[i]).Some? && Load(prefs, ids[j]).Some?
          && Load(prefs, ids[i]).value.updatedAt >= Load(prefs, ids[j]).value.updatedAt)
  }

  method Insert(sorted: seq<Entry>, e: Entry) returns (r: seq<Entry>)
    requires Newest(sorted)
    ensures Newest(r) && multiset(r) == multiset(sorted) + multiset{e}
  {
    var k := 0;
    while k < |sorted| && sorted[k].updatedAt >= e.updatedAt
      invariant k <= |sorted|
      invariant forall i :: 0 <= i < k ==> sorted[i].updatedAt >= e.updatedAt
    {
      k := k + 1;
    }
    r := sorted[..k] + [e] + sorted[k..];
    assert sorted == sorted[..k] + sorted[k..];
  }

  /** Sorts by time, latest first. Which of two entries with the same time comes first is left open by the contract. */
  method SortNewestFirst(all: seq<Entry>) returns (sorted: seq<Entry>)
    ensures Newest(sorted) && multiset(sorted) == multiset(all)
  {
    sorted := [];
    for i := 0 to |all|
      invariant Newest(sorted) && multiset(sorted) == multiset(all[..i])
    {
      assert all[..i + 1] == all[..i] + [all[i]];
      sorted := Insert(sorted, all[i]);
    }
    assert all[..|all|] == all;
  }

  ghost predicate Selected(kept: seq<Entry>, sorted: seq<Entry>, deviceId: string) {
    && Newest(kept)
    && forall e :: e in kept <==> e in sorted && e.deviceId == deviceId
  }

  lemma {:induction false} OnceEach(b: seq<Entry>, e: Entry)
    requires NoDuplicates(b)
    ensures multiset(b)[e] <= 1
  {
    if b == [] {
    } else {
      OnceEach(b[1..], e);
      assert b == [b[0]] + b[1..];
      if b[0] == e {
        assert e !in b[1..];
      }
    }
  }

  lemma {:induction false} PermutationIsDistinct(a: seq<Entry>, b: seq<Entry>)
    requires multiset(a) == multiset(b) && NoDuplicates(b)
    ensures NoDuplicates(a)
  {
    forall i, j | 0 <= i < j < |a|
      ensures a[i].id != a[j].id
    {
      if a[i].id == a[j].id {
        assert a[i] in multiset(a) && a[j] in multiset(a);
        assert a[i] in b && a[j] in b;
        assert a[i] == a[j];
        assert a == a[..i] + [a[i]] + a[i + 1..];
        assert a[j] in a[i + 1..] by {
          assert a[i + 1..][j - i - 1] == a[j];
        }
        assert multiset(a)[a[i]] >= 2;
        OnceEach(b, a[i]);
      }
    }
  }

  class ChatSession {
    const id: string
    const deviceId: string
    const createdAt: int
    var title: string
    var messages: seq<Message>
    var updatedAt: int

    constructor (id: string, deviceId: string, now: int)
      ensures this.id == id && this.deviceId == deviceId && createdAt == updatedAt == now && messages == []
    {
      this.id, this.deviceId, createdAt := id, deviceId, now;
      title, messages, updatedAt := "", [], now;
    }

    function Snapshot(): Doc
      reads this
    {
      Doc(id, deviceId, title, messages, createdAt, updatedAt)
    }
  }

  lemma ListedEntries(prefs: Prefs, sorted: seq<Entry>, kept: seq<Entry>, ids: seq<string>, deviceId: string)
    requires Agree(prefs) && multiset(sorted) == multiset(Index(prefs))
    requires Selected(kept, sorted, deviceId) && NoDuplicates(kept)
    requires |kept| == |ids| && forall k :: 0 <= k < |ids| ==> ids[k] == kept[k].id
    ensures Lists(prefs, deviceId, ids)
  {
    assert forall e :: e in sorted <==> e in multiset(sorted);
    assert forall e :: e in Index(prefs) <==> e in multiset(Index(prefs));
    forall k | 0 <= k < |ids|
      ensures Load(prefs, ids[k]).Some? && Load(prefs, ids[k]).value.deviceId == deviceId
              && Load(prefs, ids[k]).value.updatedAt == kept[k].updatedAt
    {
      assert kept[k] in kept;
    }
    forall id: string | Load(prefs, id).Some? && Load(prefs, id).value.deviceId == deviceId
      ensures id in ids
    {
      var e := Entry(id, deviceId, Load(prefs, id).value.updatedAt);
      assert e in kept;
      var k :| 0 <= k < |kept| && kept[k] == e;
      assert ids[k] == id;
    }
  }

  class ChatHistoryService {
    var prefs: Prefs

    constructor ()
      ensures prefs == map[] && Agree(prefs)
    {
      prefs := map[];
      new;
      AlwaysAgree([]);
    }

    method Save(session: ChatSession, now: int)
      modifies this, session
      ensures session.Snapshot() == old(session.Snapshot()).(updatedAt := now)
      ensures prefs == Saved(old(prefs), session.Snapshot())
      ensures old(Agree(prefs)) ==> Agree(prefs)
    {
      session.updatedAt := now;
      ghost var before := prefs;
      prefs := prefs[SessionKey(session.id) := SessionDoc(session.Snapshot())];
      UpdateIndex(session);
      if Agree(before) {
        SaveKeepsAgreement(before, session.Snapshot());
      }
    }

    method Delete(id: string)
      modifies this
      ensures prefs == Deleted(old(prefs), id)
      ensures old(Agree(prefs)) ==> Agree(prefs)
    {
      ghost var before := prefs;
      prefs := prefs - {SessionKey(id)};
      RemoveFromIndex(id);
      if Agree(before) {
        DeleteKeepsAgreement(before, id);
      }
    }

    method UpdateIndex(session: ChatSession)
      modifies this
      ensures prefs == old(prefs)[INDEX_KEY := IndexDoc(RemoveId(Index(old(prefs)), session.id)
                                                        + [Entry(session.id, session.deviceId, session.updatedAt)])]
    {
      var all := [];
      if INDEX_KEY in prefs && prefs[INDEX_KEY].IndexDoc? {
        all := prefs[INDEX_KEY].entries;
      }
      all := RemoveId(all, session.id);
      all := all + [Entry(session.id, session.deviceId, session.updatedAt)];
      prefs := prefs[INDEX_KEY := IndexDoc(all)];
    }

    method RemoveFromIndex(id: string)
      modifies this
      ensures prefs == if INDEX_KEY in old(prefs) && old(prefs)[INDEX_KEY].IndexDoc?
                       then old(prefs)[INDEX_KEY := IndexDoc(RemoveId(Index(old(prefs)), id))] else old(prefs)
    {
      if INDEX_KEY !in prefs || !prefs[INDEX_KEY].IndexDoc? {
        return;
      }
      prefs := prefs[INDEX_KEY := IndexDoc(RemoveId(prefs[INDEX_KEY].entries, id))];
    }

    method ListSessions(deviceId: string) returns (ids: seq<string>)
      ensures Agree(prefs) ==> Lists(prefs, deviceId, ids)
      ensures INDEX_KEY !in prefs || !prefs[INDEX_KEY].IndexDoc? ==> ids == []
    {
      if INDEX_KEY !in prefs || !prefs[INDEX_KEY].IndexDoc? {
        return [];
      }
      var sorted := SortNewestFirst(prefs[INDEX_KEY].entries);
      ids := [];
      ghost var kept: seq<Entry> := [];
      for i := 0 to |sorted|
        invariant |kept| == |ids| && forall k :: 0 <= k < |ids| ==> ids[k] == kept[k].id
        invariant forall k :: 0 <= k < |kept| ==> kept[k] in sorted[..i]
        invariant Selected(kept, sorted[..i], deviceId)
        invariant NoDuplicates(sorted) ==> NoDuplicates(kept)
      {
        assert sorted[..i + 1] == sorted[..i] + [sorted[i]];
        if sorted[i].deviceId == deviceId {
          kept := kept + [sorted[i]];
          ids := ids + [sorted[i].id];
        }
      }
      assert sorted[..|sorted|] == sorted;
      if Agree(prefs) {
        PermutationIsDistinct(sorted, Index(prefs));
        ListedEntries(prefs, sorted, kept, ids, deviceId);
      }
    }
  }
}
