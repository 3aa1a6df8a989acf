/** Chat rooms: who may enter one, how its messages are numbered, and what a reader who pages through it
    receives while others keep writing. */
module Chats {
  import opened Text
  import opened Permissions
  import Tiptap

  // ─── Rooms ─────────────────────────────────────────────────────────────────

  /** The order of `Array.prototype.sort` on two strings. */
  predicate Before(a: string, b: string) {
    a == "" || (b != "" && (a[0] < b[0] || (a[0] == b[0] && Before(a[1..], b[1..]))))
  }

  lemma {:induction false} OneWayOnly(a: string, b: string)
    ensures Before(a, b) || Before(b, a)
    ensures Before(a, b) && Before(b, a) ==> a == b
  {
    if a != "" && b != "" && a[0] == b[0] {
      OneWayOnly(a[1..], b[1..]);
      assert a == [a[0]] + a[1..] && b == [b[0]] + b[1..];
    }
  }

  /** The two strings agree up to `k`, where the first ends or has the smaller character. */
  predicate LeadsAt(a: string, b: string, k: nat) {
    k <= |a| && k <= |b| && a[..k] == b[..k] && (k == |a| || (k < |b| && a[k] < b[k]))
  }

  lemma {:induction false} BeforeIsDictionary(a: string, b: string)
    ensures Before(a, b) <==> exists k: nat :: LeadsAt(a, b, k)
  {
    if a == "" {
      assert LeadsAt(a, b, 0);
    } else if b != "" {
      BeforeIsDictionary(a[1..], b[1..]);
      if k: nat :| LeadsAt(a[1..], b[1..], k) && a[0] == b[0] {
        assert a[..k + 1] == [a[0]] + a[1..][..k] && b[..k + 1] == [b[0]] + b[1..][..k];
        assert LeadsAt(a, b, k + 1);
      }
      if k: nat :| LeadsAt(a, b, k) { LeadsFurther(a, b, k); }
      if a[0] < b[0] { assert LeadsAt(a, b, 0); }
    }
  }

  lemma LeadsFurther(a: string, b: string, k: nat)
    requires a != "" && b != "" && LeadsAt(a, b, k)
    ensures a[0] < b[0] || (a[0] == b[0] && k > 0 && LeadsAt(a[1..], b[1..], k - 1))
  {
    if k > 0 {
      assert a[..k][0] == b[..k][0];
      assert a[1..][..k - 1] == a[..k][1..] && b[1..][..k - 1] == b[..k][1..];
    }
  }

  function DeriveRoomId(user1: string, user2: string): string {
    Join(if Before(user1, user2) then ["chat", user1, user2] else ["chat", user2, user1], ':')
  }

  function OtherParticipant(roomId: string, userId: string): Option<string> {
    var parts := Split(roomId, ':');
    if |parts| != 3 || parts[0] != "chat" then None
    else if userId == parts[1] then Some(parts[2])
    else if userId == parts[2] then Some(parts[1])
    else None
  }

  /** `related` is whether an active relationship between two people is on file. */
  predicate AuthorizeRoom(user: Viewer, roomId: string, action: Action, related: (string, string) -> bool) {
    var other := OtherParticipant(roomId, user.id);
    HasPermission(user, Room(roomId, other.Some? && related(user.id, other.value)), action)
  }

  /** The room's name is made of these two people. */
  predicate Names(roomId: string, a: string, b: string) {
    Free(a, ':') && Free(b, ':') && roomId == Join(["chat", a, b], ':')
  }

  lemma {:induction false} NamedParts(roomId: string, a: string, b: string)
    requires Names(roomId, a, b)
    ensures Split(roomId, ':') == ["chat", a, b]
  {
    SplitJoin(["chat", a, b], ':');
  }

  lemma {:induction false} PartsName(roomId: string)
    requires |Split(roomId, ':')| == 3 && Split(roomId, ':')[0] == "chat"
    ensures Names(roomId, Split(roomId, ':')[1], Split(roomId, ':')[2])
  {
    var parts := Split(roomId, ':');
    JoinSplit(roomId, ':');
    assert parts == ["chat", parts[1], parts[2]];
  }

  /** A room opens to exactly the two people its name is made of, and only while they are related. */
  lemma RoomOpensIff(user: Viewer, roomId: string, action: Action, related: (string, string) -> bool)
    requires action == ChatView || action == ChatSend
    ensures AuthorizeRoom(user, roomId, action, related) <==>
      exists other :: (Names(roomId, user.id, other) || Names(roomId, other, user.id)) && related(user.id, other)
  {
    LayersAreApart(user, Room(roomId, OtherParticipant(roomId, user.id).Some?
                                      && related(user.id, OtherParticipant(roomId, user.id).value)), action);
    if AuthorizeRoom(user, roomId, action, related) {
      PartsName(roomId);
      var other := OtherParticipant(roomId, user.id).value;
      assert Names(roomId, user.id, other) || Names(roomId, other, user.id);
    }
    if other :| (Names(roomId, user.id, other) || Names(roomId, other, user.id)) && related(user.id, other) {
      if Names(roomId, user.id, other) {
        NamedParts(roomId, user.id, other);
      } else {
        NamedParts(roomId, other, user.id);
      }
    }
  }

  /** The room of two people is one, whoever asks first, named by the two in dictionary order, theirs, and nobody
      else's. */
  lemma DerivedRoomIsTheirs(a: string, b: string, c: string, d: string)
    requires Free(a, ':') && Free(b, ':') && Free(c, ':') && Free(d, ':')
    ensures DeriveRoomId(a, b) == DeriveRoomId(b, a)
    ensures (exists k: nat :: LeadsAt(a, b, k)) ==> Names(DeriveRoomId(a, b), a, b)
    ensures OtherParticipant(DeriveRoomId(a, b), a) == Some(b)
    ensures DeriveRoomId(a, b) == DeriveRoomId(c, d) ==> (a == c && b == d) || (a == d && b == c)
  {
    OneWayOnly(a, b);
    OneWayOnly(c, d);
    BeforeIsDictionary(a, b);
    var first, second := if Before(a, b) then a else b, if Before(a, b) then b else a;
    var third, fourth := if Before(c, d) then c else d, if Before(c, d) then d else c;
    SplitJoin(["chat", first, second], ':');
    SplitJoin(["chat", third, fourth], ':');
  }

  // ─── Messages ──────────────────────────────────────────────────────────────

  datatype Message = Message(roomId: string, senderId: string, body: Tiptap.Json, seqNo: int)

  /** The rows of one room, as they were written. */
  function RoomOf(messages: seq<Message>, roomId: string): (room: seq<Message>)
    ensures forall m :: m in room ==> m.roomId == roomId
  {
    if messages == [] then []
    else
      var last := |messages| - 1;
      var before := RoomOf(messages[..last], roomId);
      if messages[last].roomId == roomId then before + [messages[last]] else before
  }

  function Highest(room: seq<Message>): int {
    if room == [] then 0
    else
      var last := |room| - 1;
      if last == 0 || Highest(room[..last]) < room[last].seqNo then room[last].seqNo else Highest(room[..last])
  }

  function InsertBySeq(m: Message, sorted: seq<Message>): seq<Message> {
    if sorted == [] then [m]
    else
      var last := |sorted| - 1;
      if sorted[last].seqNo <= m.seqNo then sorted + [m] else InsertBySeq(m, sorted[..last]) + [sorted[last]]
  }

  /** In ascending order of number. */
  function Ascending(room: seq<Message>): seq<Message> {
    if room == [] then [] else InsertBySeq(room[|room| - 1], Ascending(room[..|room| - 1]))
  }

  function After(room: seq<Message>, seqNo: int): seq<Message> {
    if room == [] then []
    else
      var last := |room| - 1;
      var before := After(room[..last], seqNo);
      if seqNo < room[last].seqNo then before + [room[last]] else before
  }

  function Take(room: seq<Message>, limit: nat): seq<Message> {
    if |room| <= limit then room else room[..limit]
  }

  function PageLimit(limit: nat): nat {
    if limit <= 200 then limit else 200
  }

  function Page(messages: seq<Message>, roomId: string, afterSeqNo: int, limit: nat): seq<Message> {
    Take(Ascending(After(RoomOf(messages, roomId), afterSeqNo)), PageLimit(limit))
  }

  predicate Eligible(m: Message, roomId: string, afterSeqNo: int) {
    m.roomId == roomId && afterSeqNo < m.seqNo
  }

  /** At most `limit` rows, in ascending order, all of this room and above the number, each as often as it
      was written at most; and a row left out means the page is full of rows not above it. */
  ghost predicate IsPage(page: seq<Message>, messages: seq<Message>, roomId: string, afterSeqNo: int, limit: nat) {
    && |page| <= limit && InOrder(page)
    && (forall m :: m in page ==> Eligible(m, roomId, afterSeqNo) && multiset(page)[m] <= multiset(messages)[m])
    && (forall m :: m in messages && Eligible(m, roomId, afterSeqNo) && multiset(page)[m] < multiset(messages)[m] ==>
          |page| == limit && forall i :: 0 <= i < |page| ==> page[i].seqNo <= m.seqNo)
  }

  function Sent(messages: seq<Message>, roomId: string, senderId: string, body: Tiptap.Json): seq<Message> {
    messages + [Message(roomId, senderId, body, Highest(RoomOf(messages, roomId)) + 1)]
  }

  class ChatsRepository {
    var messages: seq<Message>

    constructor ()
      ensures messages == []
    {
      messages := [];
    }

    method GetNextSeqNo(roomId: string) returns (seqNo: int)
      ensures seqNo == Highest(RoomOf(messages, roomId)) + 1
    {
      seqNo := Highest(RoomOf(messages, roomId)) + 1;
    }

    method CreateMessage(roomId: string, senderId: string, body: Tiptap.Json) returns (m: Message)
      modifies this
      ensures m == Message(roomId, senderId, body, Highest(RoomOf(old(messages), roomId)) + 1)
      ensures messages == Sent(old(messages), roomId, senderId, body) && messages == old(messages) + [m]
    {
      var seqNo := GetNextSeqNo(roomId);
      m := Message(roomId, senderId, body, seqNo);
      messages := messages + [m];
    }

    method GetMessages(roomId: string, afterSeqNo: int, limit: nat) returns (page: seq<Message>)
      ensures IsPage(page, messages, roomId, afterSeqNo, if limit <= 200 then limit else 200)
      ensures page == Page(messages, roomId, afterSeqNo, limit)
    {
      page := Page(messages, roomId, afterSeqNo, limit);
      PageIsPage(messages, roomId, afterSeqNo, limit);
    }
  }

  datatype Reply = Delivered(m: Message) | Forbidden | BadRequest

  class ChatsService {
    const repo: ChatsRepository

    constructor (repo: ChatsRepository)
      ensures this.repo == repo
    {
      this.repo := repo;
    }

    /** Nothing is stored but a document the sanitiser would leave alone, by somebody the room opens to. */
    method SendMessage(roomId: string, user: Viewer, content: Tiptap.Json, related: (string, string) -> bool)
      returns (reply: Reply)
      modifies repo
      ensures reply.Forbidden? <==> !AuthorizeRoom(user, roomId, ChatSend, related)
      ensures reply.BadRequest? ==> Tiptap.SanitizeTiptapDoc(content).Invalid?
      ensures reply.Delivered? ==>
        && Tiptap.SanitizeTiptapDoc(content) == Tiptap.Doc(reply.m.body) && Tiptap.CleanDoc(reply.m.body)
        && reply.m.roomId == roomId && reply.m.senderId == user.id
        && repo.messages == Sent(old(repo.messages), roomId, user.id, reply.m.body)
      ensures !reply.Delivered? ==> repo.messages == old(repo.messages)
    {
      if !AuthorizeRoom(user, roomId, ChatSend, related) { return Forbidden; }
      var sanitized := Tiptap.SanitizeTiptapDoc(content);
      if sanitized.Invalid? { return BadRequest; }
      Tiptap.DocFixpoint(content);
      var m := repo.CreateMessage(roomId, user.id, sanitized.doc);
      reply := Delivered(m);
    }

    method GetMessages(roomId: string, user: Viewer, afterSeqNo: int, limit: nat, related: (string, string) -> bool)
      returns (page: Option<seq<Message>>)
      ensures page.Some? <==> AuthorizeRoom(user, roomId, ChatView, related)
      ensures page.Some? ==>
        IsPage(page.value, repo.messages, roomId, afterSeqNo, if limit <= 200 then limit else 200)
    {
      if !AuthorizeRoom(user, roomId, ChatView, related) { return None; }
      var messages := repo.GetMessages(roomId, afterSeqNo, limit);
      page := Some(messages);
    }
  }

  // ─── Numbering ─────────────────────────────────────────────────────────────

  predicate Numbered(room: seq<Message>) {
    forall i :: 0 <= i < |room| ==> room[i].seqNo == i + 1
  }

  lemma {:induction false} HighestOfNumbered(room: seq<Message>)
    requires Numbered(room)
    ensures Highest(room) == |room|
  {
    if |room| > 1 { HighestOfNumbered(room[..|room| - 1]); }
  }

  lemma {:induction false} SentRoom(
    messages: seq<Message>, roomId: string, senderId: string, body: Tiptap.Json, room: string)
    ensures var messages' := Sent(messages, roomId, senderId, body);
      RoomOf(messages', room) ==
        RoomOf(messages, room) + if room == roomId then [messages'[|messages|]] else []
  {
    assert Sent(messages, roomId, senderId, body)[..|messages|] == messages;
  }

  /** Sending keeps every room numbered 1 to n, in the order of writing. */
  lemma {:induction false} SendKeepsNumbers(
    messages: seq<Message>, roomId: string, senderId: string, body: Tiptap.Json, room: string)
    requires Numbered(RoomOf(messages, room))
    ensures Numbered(RoomOf(Sent(messages, roomId, senderId, body), room))
  {
    SentRoom(messages, roomId, senderId, body, room);
    HighestOfNumbered(RoomOf(messages, room));
  }

  lemma {:induction false} AfterNumbered(room: seq<Message>, n: nat)
    requires Numbered(room) && n <= |room|
    ensures After(room, n) == room[n..]
  {
    if room != [] {
      var last := |room| - 1;
      if n <= last {
        AfterNumbered(room[..last], n);
        assert room[..last][n..] + [room[last]] == room[n..];
      } else {
        AfterNone(room, n);
      }
    }
  }

  lemma {:induction false} AfterNone(room: seq<Message>, n: nat)
    requires Numbered(room) && |room| <= n
    ensures After(room, n) == []
  {
    if room != [] { AfterNone(room[..|room| - 1], n); }
  }

  predicate Rising(room: seq<Message>) {
    forall i, j :: 0 <= i < j < |room| ==> room[i].seqNo < room[j].seqNo
  }

  lemma {:induction false} RisingIsAscending(room: seq<Message>)
    requires Rising(room)
    ensures Ascending(room) == room
  {
    if room != [] {
      var last := |room| - 1;
      RisingIsAscending(room[..last]);
      assert room[..last] + [room[last]] == room;
    }
  }

  predicate InOrder(room: seq<Message>) {
    forall i, j :: 0 <= i < j < |room| ==> room[i].seqNo <= room[j].seqNo
  }

  lemma {:induction false} InsertBySeqKeeps(m: Message, sorted: seq<Message>)
    ensures multiset(InsertBySeq(m, sorted)) == multiset(sorted) + multiset{m}
  {
    if sorted != [] {
      var last := |sorted| - 1;
      assert sorted[..last] + [sorted[last]] == sorted;
      if m.seqNo < sorted[last].seqNo { InsertBySeqKeeps(m, sorted[..last]); }
    }
  }

  predicate AtMost(room: seq<Message>, seqNo: int) {
    forall i :: 0 <= i < |room| ==> room[i].seqNo <= seqNo
  }

  lemma {:induction false} InsertBySeqSorts(m: Message, sorted: seq<Message>, bound: int)
    requires InOrder(sorted) && AtMost(sorted, bound) && m.seqNo <= bound
    ensures InOrder(InsertBySeq(m, sorted)) && AtMost(InsertBySeq(m, sorted), bound)
  {
    if sorted != [] {
      var last := |sorted| - 1;
      if m.seqNo < sorted[last].seqNo { InsertBySeqSorts(m, sorted[..last], sorted[last].seqNo); }
    }
  }

  lemma {:induction false} AscendingOneMore(front: seq<Message>, m: Message)
    ensures Ascending(front + [m]) == InsertBySeq(m, Ascending(front))
  {
    assert (front + [m])[..|front|] == front;
  }

  lemma {:induction false} AscendingKeeps(room: seq<Message>)
    ensures multiset(Ascending(room)) == multiset(room)
  {
    if room != [] {
      var front, m := room[..|room| - 1], room[|room| - 1];
      AscendingKeeps(front);
      AscendingOneMore(front, m);
      InsertBySeqKeeps(m, Ascending(front));
      assert room == front + [m];
    }
  }

  /** Whatever the rows and their numbers, a page is cut from them in ascending order. */
  lemma {:induction false} AscendingSorts(room: seq<Message>)
    ensures InOrder(Ascending(room)) && multiset(Ascending(room)) == multiset(room)
  {
    AscendingKeeps(room);
    if room != [] {
      var last := |room| - 1;
      var before := Ascending(room[..last]);
      AscendingSorts(room[..last]);
      InsertBySeqSorts(room[last], before,
        if before == [] || before[|before| - 1].seqNo < room[last].seqNo then room[last].seqNo
        else before[|before| - 1].seqNo);
    }
  }

  lemma {:induction false} CountOfRoom(messages: seq<Message>, roomId: string, m: Message)
    ensures multiset(RoomOf(messages, roomId))[m] == if m.roomId == roomId then multiset(messages)[m] else 0
  {
    if messages != [] {
      var last := |messages| - 1;
      CountOfRoom(messages[..last], roomId, m);
      assert messages == messages[..last] + [messages[last]];
    }
  }

  lemma {:induction false} CountAfter(room: seq<Message>, seqNo: int, m: Message)
    ensures multiset(After(room, seqNo))[m] == if seqNo < m.seqNo then multiset(room)[m] else 0
  {
    if room != [] {
      var last := |room| - 1;
      CountAfter(room[..last], seqNo, m);
      assert room == room[..last] + [room[last]];
    }
  }

  lemma {:induction false} CountOnAll(messages: seq<Message>, roomId: string, afterSeqNo: int, m: Message)
    ensures multiset(Ascending(After(RoomOf(messages, roomId), afterSeqNo)))[m]
      == if Eligible(m, roomId, afterSeqNo) then multiset(messages)[m] else 0
  {
    AscendingSorts(After(RoomOf(messages, roomId), afterSeqNo));
    CountAfter(RoomOf(messages, roomId), afterSeqNo, m);
    CountOfRoom(messages, roomId, m);
  }

  lemma CutCounts(all: seq<Message>, limit: nat, m: Message)
    requires limit <= |all|
    ensures multiset(all)[m] == multiset(all[..limit])[m] + multiset(all[limit..])[m]
  {
    assert all == all[..limit] + all[limit..];
  }

  lemma CutIsBelow(all: seq<Message>, limit: nat, m: Message)
    requires InOrder(all) && limit <= |all| && m in all[limit..]
    ensures forall i :: 0 <= i < limit ==> all[..limit][i].seqNo <= m.seqNo
  {
    var k :| limit <= k < |all| && all[k] == m;
  }

  /** Cutting an ordered list leaves out only what is not below anything kept. */
  lemma TakeLeavesLater(all: seq<Message>, limit: nat, m: Message)
    requires InOrder(all)
    ensures var page := Take(all, limit);
      && multiset(page)[m] <= multiset(all)[m]
      && (multiset(page)[m] < multiset(all)[m] ==>
            |page| == limit && forall i :: 0 <= i < |page| ==> page[i].seqNo <= m.seqNo)
  {
    if |all| > limit {
      CutCounts(all, limit, m);
      if m in all[limit..] { CutIsBelow(all, limit, m); }
    }
  }

  lemma PageIsPage(messages: seq<Message>, roomId: string, afterSeqNo: int, limit: nat)
    ensures IsPage(Page(messages, roomId, afterSeqNo, limit), messages, roomId, afterSeqNo, PageLimit(limit))
  {
    var all := Ascending(After(RoomOf(messages, roomId), afterSeqNo));
    var page := Page(messages, roomId, afterSeqNo, limit);
    AscendingSorts(After(RoomOf(messages, roomId), afterSeqNo));
    forall m
      ensures m in page ==> Eligible(m, roomId, afterSeqNo)
      ensures Eligible(m, roomId, afterSeqNo) ==> multiset(page)[m] <= multiset(messages)[m]
      ensures Eligible(m, roomId, afterSeqNo) && multiset(page)[m] < multiset(messages)[m] ==>
        |page| == PageLimit(limit) && forall i :: 0 <= i < |page| ==> page[i].seqNo <= m.seqNo
    {
      CountOnAll(messages, roomId, afterSeqNo, m);
      TakeLeavesLater(all, PageLimit(limit), m);
      assert m in page ==> multiset(page)[m] > 0;
    }
    TakeKeepsOrder(all, PageLimit(limit));
  }

  lemma TakeKeepsOrder(all: seq<Message>, limit: nat)
    requires InOrder(all)
    ensures InOrder(Take(all, limit)) && |Take(all, limit)| <= limit
  {
  }

  /** A page of a numbered room is the next messages, in order, none left out. */
  lemma {:induction false} PageIsNext(room: seq<Message>, n: nat, limit: nat)
    requires Numbered(room) && n <= |room|
    ensures Take(Ascending(After(room, n)), PageLimit(limit)) == Take(room[n..], PageLimit(limit))
  {
    AfterNumbered(room, n);
    RisingIsAscending(room[n..]);
  }

  // ─── A reader among writers ────────────────────────────────────────────────

  datatype Event = Send(roomId: string, senderId: string, body: Tiptap.Json) | Fetch(limit: nat)

  /** The messages of the system and what one reader of one room has been given. */
  datatype State = State(messages: seq<Message>, received: seq<Message>)

  /** The number of the last message the reader has seen. */
  function Cursor(received: seq<Message>): int {
    if received == [] then 0 else received[|received| - 1].seqNo
  }

  function Next(state: State, room: string, event: Event): State {
    match event
    case Send(roomId, senderId, body) => state.(messages := Sent(state.messages, roomId, senderId, body))
    case Fetch(limit) =>
      state.(received := state.received + Page(state.messages, room, Cursor(state.received), limit))
  }

  function Run(room: string, events: seq<Event>): State {
    if events == [] then State([], []) else Next(Run(room, events[..|events| - 1]), room, events[|events| - 1])
  }

  /** The reader has the beginning of a numbered room. */
  predicate InStep(state: State, room: string) {
    Numbered(RoomOf(state.messages, room)) && state.received <= RoomOf(state.messages, room)
  }

  lemma TakeFurther(room: seq<Message>, n: nat, limit: nat)
    requires n <= |room|
    ensures room[..n] + Take(room[n..], limit) == Take(room, n + limit)
  {
  }

  lemma {:induction false} FetchInStep(state: State, room: string, limit: nat)
    requires InStep(state, room)
    ensures var state', all := Next(state, room, Fetch(limit)), RoomOf(state.messages, room);
      InStep(state', room) && state'.received == Take(all, |state.received| + PageLimit(limit))
  {
    var all, n := RoomOf(state.messages, room), |state.received|;
    assert Cursor(state.received) == n;
    PageIsNext(all, n, limit);
    assert state.received == all[..n];
    TakeFurther(all, n, PageLimit(limit));
  }

  lemma NextInStep(state: State, room: string, event: Event)
    requires InStep(state, room)
    ensures InStep(Next(state, room, event), room)
  {
    match event
    case Send(roomId, senderId, body) =>
      SendKeepsNumbers(state.messages, roomId, senderId, body, room);
      SentRoom(state.messages, roomId, senderId, body, room);
    case Fetch(limit) => FetchInStep(state, room, limit);
  }

  /** Whoever writes what in between, a reader who pages by the last number seen always has a beginning of
      the room: no gap, no repeat; and the room's numbers are 1 to n. */
  lemma {:induction false} ReaderHasAPrefix(room: string, events: seq<Event>)
    ensures InStep(Run(room, events), room)
  {
    if events != [] {
      ReaderHasAPrefix(room, events[..|events| - 1]);
      NextInStep(Run(room, events[..|events| - 1]), room, events[|events| - 1]);
    }
  }

  function Fetches(state: State, room: string, limits: seq<nat>): State {
    if limits == [] then state
    else Next(Fetches(state, room, limits[..|limits| - 1]), room, Fetch(limits[|limits| - 1]))
  }

  function Total(limits: seq<nat>): nat {
    if limits == [] then 0 else Total(limits[..|limits| - 1]) + PageLimit(limits[|limits| - 1])
  }

  lemma FetchesUnfold(state: State, room: string, limits: seq<nat>)
    requires limits != []
    ensures var front, limit := limits[..|limits| - 1], limits[|limits| - 1];
      && Fetches(state, room, limits) == Next(Fetches(state, room, front), room, Fetch(limit))
      && Total(limits) == Total(front) + PageLimit(limit)
  {
  }

  /** One fetch more, from where the fetches before it have come. */
  lemma {:induction false} FetchesOneMore(
    start: State, state: State, room: string, sofar: nat, limit: nat, state': State)
    requires InStep(start, room) && state.messages == start.messages && state' == Next(state, room, Fetch(limit))
    requires state.received == Take(RoomOf(start.messages, room), |start.received| + sofar)
    ensures state'.messages == start.messages
    ensures state'.received == Take(RoomOf(start.messages, room), |start.received| + sofar + PageLimit(limit))
  {
    FetchInStep(state, room, limit);
  }

  /** Once nobody writes, the pages add up: the reader has exactly as many more messages as the pages could
      hold, up to the whole room. */
  lemma {:induction false} PagesAddUp(state: State, room: string, limits: seq<nat>, state': State, total: nat)
    requires InStep(state, room) && state' == Fetches(state, room, limits) && total == Total(limits)
    ensures state'.messages == state.messages
    ensures state'.received == Take(RoomOf(state.messages, room), |state.received| + total)
  {
    if limits != [] {
      var front := limits[..|limits| - 1];
      var before := Fetches(state, room, front);
      PagesAddUp(state, room, front, before, Total(front));
      FetchesUnfold(state, room, limits);
      FetchesOneMore(state, before, room, Total(front), limits[|limits| - 1], state');
    }
  }

  lemma {:induction false} TotalAtLeast(limits: seq<nat>)
    requires forall i :: 0 <= i < |limits| ==> limits[i] >= 1
    ensures Total(limits) >= |limits|
  {
    if limits != [] { TotalAtLeast(limits[..|limits| - 1]); }
  }

  lemma {:induction false} CatchesUp(state: State, room: string, limits: seq<nat>)
    requires InStep(state, room) && forall i :: 0 <= i < |limits| ==> limits[i] >= 1
    requires |RoomOf(state.messages, room)| <= |state.received| + |limits|
    ensures Fetches(state, room, limits).received == RoomOf(state.messages, room)
  {
    PagesAddUp(state, room, limits, Fetches(state, room, limits), Total(limits));
    TotalAtLeast(limits);
  }

  /** So with a limit of at least one each time, as many fetches as there are messages missing bring the
      reader the whole room. */
  lemma {:induction false} ReaderCatchesUp(room: string, events: seq<Event>, limits: seq<nat>)
    requires forall i :: 0 <= i < |limits| ==> limits[i] >= 1
    requires |RoomOf(Run(room, events).messages, room)| <= |Run(room, events).received| + |limits|
    ensures Fetches(Run(room, events), room, limits).received == RoomOf(Run(room, events).messages, room)
  {
    ReaderHasAPrefix(room, events);
    CatchesUp(Run(room, events), room, limits);
  }
}
