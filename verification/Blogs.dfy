/** Blogs and the stream of writes the service sends to their search index. An index that makes the writes, one
    after another and behind the table's back, is left holding exactly what is published; an index that
    ignores them falls behind as soon as something is. */
module Blogs {
  import opened Text
  import opened Permissions
  import Tiptap

  type Id = nat
  type Time = int

  datatype Blog = Blog(
    authorId: string, title: string, body: Tiptap.Json, isDraft: bool, publishedAt: Option<Time>, deleted: bool)

  datatype Entry = Entry(title: string, bodyText: string)
  datatype IndexWrite = Upsert(id: Id, entry: Entry) | Remove(id: Id)

  type Table = map<Id, Blog>
  type Index = map<Id, Entry>

  predicate IsPublished(blog: Blog) {
    !blog.isDraft && !blog.deleted
  }

  predicate Published(blogs: Table, id: Id) {
    id in blogs && IsPublished(blogs[id])
  }

  function EntryFor(blog: Blog): Entry {
    Entry(blog.title, Tiptap.PlainText(blog.body))
  }

  /** What the index should hold: the published blogs with their current title and text. */
  function Expected(blogs: Table): Index {
    map id | id in blogs && IsPublished(blogs[id]) :: EntryFor(blogs[id])
  }

  function Applied(index: Index, write: IndexWrite): Index {
    match write
    case Upsert(id, entry) => index[id := entry]
    case Remove(id) => index - {id}
  }

  /** The index once the queued writes are applied, in order. */
  function Settled(index: Index, queue: seq<IndexWrite>): Index {
    if queue == [] then index else Applied(Settled(index, queue[..|queue| - 1]), queue[|queue| - 1])
  }

  lemma {:induction false} SettledOneMore(index: Index, queue: seq<IndexWrite>, write: IndexWrite)
    ensures Settled(index, queue + [write]) == Applied(Settled(index, queue), write)
  {
    assert (queue + [write])[..|queue|] == queue;
  }

  lemma {:induction false} SettledFromFront(index: Index, queue: seq<IndexWrite>)
    requires queue != []
    ensures Settled(Applied(index, queue[0]), queue[1..]) == Settled(index, queue)
  {
    if |queue| > 1 {
      var last := |queue| - 1;
      SettledFromFront(index, queue[..last]);
      assert queue[..last][1..] == queue[1..][..last - 1];
    } else {
      SettledOneMore(index, [], queue[0]);
      assert queue == [] + [queue[0]];
    }
  }

  function Look(index: Index, id: Id): Option<Entry> {
    if id in index then Some(index[id]) else None
  }

  /** The write that brings the index in line with one row. */
  function WriteFor(id: Id, blog: Blog): IndexWrite {
    if IsPublished(blog) then Upsert(id, EntryFor(blog)) else Remove(id)
  }

  lemma WriteBringsInLine(index: Index, blogs: Table, id: Id, blog: Blog)
    ensures Look(Applied(index, WriteFor(id, blog)), id) == Look(Expected(blogs[id := blog]), id)
    ensures forall other :: other != id ==>
      && Look(Applied(index, WriteFor(id, blog)), other) == Look(index, other)
      && Look(Expected(blogs[id := blog]), other) == Look(Expected(blogs), other)
  {
  }

  datatype Changes = Changes(title: Option<string>, body: Option<Tiptap.Json>, isDraft: Option<bool>)

  datatype Reply = Saved(id: Id) | Denied | Missing | BadRequest

  /** The row with the changes made, `body` being sanitised already. */
  function Changed(
    blog: Blog, title: Option<string>, body: Option<Tiptap.Json>, isDraft: Option<bool>, now: Time): Blog {
    blog.(title := if title.Some? then title.value else blog.title,
          body := if body.Some? then body.value else blog.body,
          isDraft := if isDraft.Some? then isDraft.value else blog.isDraft,
          publishedAt := if isDraft == Some(false) && blog.isDraft then Some(now) else blog.publishedAt)
  }

  /** The body made safe, if there is one; nothing when it is no document. */
  function SafeBody(body: Option<Tiptap.Json>): Option<Option<Tiptap.Json>> {
    if body.None? then Some(None)
    else
      var sanitized := Tiptap.SanitizeTiptapDoc(body.value);
      if sanitized.Invalid? then None else Some(Some(sanitized.doc))
  }

  /** The row written is the old one with what was asked for: the title and the draft flag as given, the body as
      the sanitiser leaves it, and the time of publishing when a draft is published. */
  ghost predicate AsAsked(row: Blog, row': Blog, changes: Changes, now: Time) {
    && row'.authorId == row.authorId && row'.deleted == row.deleted
    && (match changes.title case Some(title) => row'.title == title case None => row'.title == row.title)
    && (match changes.isDraft case Some(isDraft) => row'.isDraft == isDraft case None => row'.isDraft == row.isDraft)
    && (match changes.body
        case Some(body) => Tiptap.SanitizeTiptapDoc(body) == Tiptap.Doc(row'.body)
        case None => row'.body == row.body)
    && (if row.isDraft && !row'.isDraft then row'.publishedAt == Some(now) else row'.publishedAt == row.publishedAt)
  }

  lemma ChangedAsAsked(row: Blog, changes: Changes, body: Option<Tiptap.Json>, now: Time)
    requires SafeBody(changes.body) == Some(body)
    ensures AsAsked(row, Changed(row, changes.title, body, changes.isDraft, now), changes, now)
  {
  }

  /** Every published blog says since when, and no stored body holds anything the sanitiser would take
      out. */
  ghost predicate RowsOk(blogs: Table, next: Id) {
    forall id :: id in blogs ==>
      id < next && (!blogs[id].isDraft ==> blogs[id].publishedAt.Some?) && Tiptap.CleanDoc(blogs[id].body)
  }

  // ─── What the service does, on values ──────────────────────────────────────

  /** The table, what the index holds, and the writes sent to it that it has not made yet. */
  datatype State = State(blogs: Table, next: Id, index: Index, queue: seq<IndexWrite>)

  const EMPTY := State(map[], 0, map[], [])

  predicate IsAuthor(blogs: Table, user: Viewer, id: Id) {
    id in blogs && !blogs[id].deleted && blogs[id].authorId == user.id
  }

  /** The row written, and the write that brings the index in line with it sent. */
  function Written(state: State, id: Id, blog: Blog): State {
    state.(blogs := state.blogs[id := blog], queue := state.queue + [WriteFor(id, blog)])
  }

  function Drafted(state: State, user: Viewer, title: string, body: Tiptap.Json): State {
    var sanitized := Tiptap.SanitizeTiptapDoc(body);
    if (!IsVa(user) && !IsVm(user)) || sanitized.Invalid? then state
    else
      var draft := Blog(user.id, title, sanitized.doc, true, None, false);
      state.(blogs := state.blogs[state.next := draft], next := state.next + 1)
  }

  function Edited(state: State, user: Viewer, id: Id, changes: Changes, now: Time): State {
    var body := SafeBody(changes.body);
    if !IsAuthor(state.blogs, user, id) || body.None? then state
    else Written(state, id, Changed(state.blogs[id], changes.title, body.value, changes.isDraft, now))
  }

  function Withdrawn(state: State, user: Viewer, id: Id): State {
    if !IsAuthor(state.blogs, user, id) then state
    else Written(state, id, state.blogs[id].(deleted := true))
  }

  /** The published ones of these blogs are sent to the index. */
  function Seeded(blogs: Table, queue: seq<IndexWrite>, order: seq<Id>): seq<IndexWrite> {
    if order == [] then queue
    else
      var id, before := order[|order| - 1], Seeded(blogs, queue, order[..|order| - 1]);
      if Published(blogs, id) then before + [WriteFor(id, blogs[id])] else before
  }

  /** The index makes the oldest write sent to it. */
  function Caught(state: State): State
    requires state.queue != []
  {
    state.(index := Applied(state.index, state.queue[0]), queue := state.queue[1..])
  }

  class BlogsService {
    var blogs: Table
    var next: Id
    /** What the index holds, and the writes sent to it that it has not made yet. */
    var index: Index
    var queue: seq<IndexWrite>

    ghost function Now(): State
      reads this
    {
      State(blogs, next, index, queue)
    }

    constructor ()
      ensures Valid() && Now() == EMPTY
    {
      blogs, next, index, queue := map[], 0, map[], [];
    }

    ghost predicate Valid()
      reads this
    {
      RowsOk(blogs, next)
    }

    /** Once its writes are in, the index has of this blog what it should have. */
    ghost predicate InStepAt(id: Id)
      reads this
    {
      Look(Settled(index, queue), id) == Look(Expected(blogs), id)
    }

    method MayCreate(user: Viewer) returns (allowed: bool)
      ensures allowed <==> IsVa(user) || IsVm(user)
    {
      allowed := HasPermission(user, Platform(None, None), BlogCreate);
    }

    method MayChange(user: Viewer, author: string, action: Action) returns (allowed: bool)
      requires action == BlogEdit || action == BlogDelete
      ensures allowed <==> author == user.id
    {
      allowed := HasPermission(user, OfBlog(author), action);
    }

    method Sanitize(body: Option<Tiptap.Json>) returns (clean: Option<Option<Tiptap.Json>>)
      ensures clean == SafeBody(body)
      ensures clean.Some? && body.Some? ==> Tiptap.CleanDoc(clean.value.value)
    {
      if body.None? { return Some(None); }
      var sanitized := Tiptap.SanitizeTiptapDoc(body.value);
      if sanitized.Invalid? { return None; }
      Tiptap.DocFixpoint(body.value);
      clean := Some(Some(sanitized.doc));
    }

    method Create(user: Viewer, title: string, body: Tiptap.Json) returns (reply: Reply)
      requires Valid()
      modifies this
      ensures Valid()
      ensures reply.Saved? <==> (IsVa(user) || IsVm(user)) && Tiptap.SanitizeTiptapDoc(body).Doc?
      ensures !reply.Saved? ==> blogs == old(blogs)
      ensures reply.Saved? ==>
        && reply.id !in old(blogs)
        && blogs == old(blogs)[reply.id := Blog(user.id, title, Tiptap.SanitizeTiptapDoc(body).doc, true, None, false)]
      ensures Now() == Drafted(old(Now()), user, title, body)
    {
      var allowed := MayCreate(user);
      if !allowed { return Denied; }
      var sanitized := Sanitize(Some(body));
      if sanitized.None? { return BadRequest; }
      reply := Saved(next);
      blogs := blogs[next := Blog(user.id, title, sanitized.value.value, true, None, false)];
      next := next + 1;
    }

    method Update(user: Viewer, id: Id, changes: Changes, now: Time) returns (reply: Reply)
      requires Valid()
      modifies this`blogs, this`queue
      ensures Valid()
      ensures reply == (
        if id !in old(blogs) || old(blogs)[id].deleted then Missing
        else if old(blogs)[id].authorId != user.id then Denied
        else if changes.body.Some? && Tiptap.SanitizeTiptapDoc(changes.body.value).Invalid? then BadRequest
        else Saved(id))
      ensures !reply.Saved? ==> blogs == old(blogs) && queue == old(queue)
      ensures reply.Saved? ==> id in old(blogs) && id in blogs && blogs == old(blogs)[id := blogs[id]]
      ensures reply.Saved? ==> AsAsked(old(blogs)[id], blogs[id], changes, now)
      ensures reply.Saved? ==> InStepAt(id)
      ensures Now() == Edited(old(Now()), user, id, changes, now)
    {
      if id !in blogs || blogs[id].deleted { return Missing; }
      var blog := blogs[id];
      var allowed := MayChange(user, blog.authorId, BlogEdit);
      if !allowed { return Denied; }
      var body := Sanitize(changes.body);
      if body.None? { return BadRequest; }
      var updated := Changed(blog, changes.title, body.value, changes.isDraft, now);
      ChangedAsAsked(blog, changes, body.value, now);
      Save(id, updated);
      reply := Saved(id);
    }

    /** The row, then the write that brings the index in line with it. */
    method Save(id: Id, blog: Blog)
      requires !blog.deleted
      modifies this`blogs, this`queue
      ensures Now() == Written(old(Now()), id, blog) && InStepAt(id)
    {
      WriteBringsInLine(Settled(index, queue), blogs, id, blog);
      SettledOneMore(index, queue, WriteFor(id, blog));
      blogs := blogs[id := blog];
      SyncIndex(id, blog);
    }

    method SyncIndex(id: Id, blog: Blog)
      requires !blog.deleted
      modifies this`queue
      ensures queue == old(queue) + [WriteFor(id, blog)]
    {
      if blog.isDraft {
        queue := queue + [Remove(id)];
      } else {
        var bodyText := Tiptap.TiptapToPlainText(blog.body);
        queue := queue + [Upsert(id, Entry(blog.title, bodyText))];
      }
    }

    method RemoveBlog(user: Viewer, id: Id) returns (reply: Reply)
      requires Valid()
      modifies this`blogs, this`queue
      ensures Valid()
      ensures reply == (
        if id !in old(blogs) || old(blogs)[id].deleted then Missing
        else if old(blogs)[id].authorId != user.id then Denied
        else Saved(id))
      ensures blogs == if reply.Saved? then old(blogs)[id := old(blogs)[id].(deleted := true)] else old(blogs)
      ensures reply.Saved? ==> InStepAt(id)
      ensures Now() == Withdrawn(old(Now()), user, id)
    {
      if id !in blogs || blogs[id].deleted { return Missing; }
      var allowed := MayChange(user, blogs[id].authorId, BlogDelete);
      if !allowed { return Denied; }
      SettledOneMore(index, queue, Remove(id));
      blogs := blogs[id := blogs[id].(deleted := true)];
      queue := queue + [Remove(id)];
      reply := Saved(id);
    }

    /** Starting up sends every published blog, whatever the index holds and is still to write: once the
        writes are in it has every published blog as it is now, and of every other id what it had. */
    method OnModuleInit()
      modifies this`queue
      ensures exists order :: queue == Seeded(blogs, old(queue), order)
      ensures forall id :: Published(blogs, id) ==> Look(Settled(index, queue), id) == Some(EntryFor(blogs[id]))
      ensures forall id :: !Published(blogs, id) ==>
        Look(Settled(index, queue), id) == Look(Settled(index, old(queue)), id)
    {
      var rest: set<Id> := set id: Id | id in blogs && IsPublished(blogs[id]);
      ghost var order: seq<Id> := [];
      while rest != {}
        invariant queue == Seeded(blogs, old(queue), order)
        invariant forall id :: id in rest ==> Published(blogs, id)
        invariant forall id :: Published(blogs, id) && id !in rest ==>
          Look(Settled(index, queue), id) == Some(EntryFor(blogs[id]))
        invariant forall id :: !Published(blogs, id) ==>
          Look(Settled(index, queue), id) == Look(Settled(index, old(queue)), id)
        decreases |rest|
      {
        var id: Id :| id in rest;
        SettledOneMore(index, queue, WriteFor(id, blogs[id]));
        SyncIndex(id, blogs[id]);
        rest, order := rest - {id}, order + [id];
        assert order[..|order| - 1] + [id] == order;
      }
    }

    /** `hits` is what the index answers, if it answers: any list of ids at all. */
    method Search(query: string, hits: Option<seq<Id>>) returns (found: Option<seq<Id>>)
      ensures |Trim(query)| < 2 ==> found == Some([])
      ensures |Trim(query)| >= 2 ==>
        if hits.None? then found.None? else found == Some(PublishedOf(blogs, hits.value))
    {
      var q := Trim(query);
      if |q| < 2 { return Some([]); }
      if hits.None? { return None; }
      var ids := hits.value;
      var byId := map id | id in ids && Published(blogs, id) :: blogs[id];
      KeepIsFilter(blogs, byId, ids);
      found := Some(Keep(ids, byId));
    }
  }

  // ─── Search ────────────────────────────────────────────────────────────────

  function Keep(ids: seq<Id>, byId: Table): seq<Id> {
    if ids == [] then []
    else
      var last := |ids| - 1;
      Keep(ids[..last], byId) + if ids[last] in byId then [ids[last]] else []
  }

  /** The ids that are published now, in the order given. */
  function PublishedOf(blogs: Table, ids: seq<Id>): seq<Id> {
    if ids == [] then [] else (if Published(blogs, ids[0]) then [ids[0]] else []) + PublishedOf(blogs, ids[1..])
  }

  lemma {:induction false} PublishedOfAppend(blogs: Table, ids: seq<Id>, id: Id)
    ensures PublishedOf(blogs, ids + [id]) == PublishedOf(blogs, ids) + if Published(blogs, id) then [id] else []
  {
    if ids != [] {
      PublishedOfAppend(blogs, ids[1..], id);
      assert (ids + [id])[1..] == ids[1..] + [id];
    } else {
      assert ids + [id] == [id];
    }
  }

  lemma {:induction false} KeepIsFilter(blogs: Table, byId: Table, ids: seq<Id>)
    requires forall id :: id in ids ==> (id in byId <==> Published(blogs, id))
    ensures Keep(ids, byId) == PublishedOf(blogs, ids)
  {
    if ids != [] {
      var last := |ids| - 1;
      KeepIsFilter(blogs, byId, ids[..last]);
      PublishedOfAppend(blogs, ids[..last], ids[last]);
      assert ids[..last] + [ids[last]] == ids;
    }
  }

  /** Starting up puts any index right exactly when it holds nothing that is not published: entries of
      drafts and removed blogs stay. */
  lemma SeedingRepairsIff(blogs: Table, before: Index, after: Index)
    requires forall id :: Published(blogs, id) ==> Look(after, id) == Some(EntryFor(blogs[id]))
    requires forall id :: !Published(blogs, id) ==> Look(after, id) == Look(before, id)
    ensures after == Expected(blogs) <==> forall id :: id in before ==> Published(blogs, id)
  {
    if forall id :: id in before ==> Published(blogs, id) {
      assert forall id :: Look(after, id) == Look(Expected(blogs), id);
      SameLooks(after, Expected(blogs));
    } else {
      var id :| id in before && !Published(blogs, id);
      assert Look(after, id) == Look(before, id);
    }
  }

  lemma SameLooks(index: Index, other: Index)
    requires forall id :: Look(index, id) == Look(other, id)
    ensures index == other
  {
    assert forall id :: id in index <==> Look(index, id).Some?;
    assert forall id :: id in other <==> Look(other, id).Some?;
    assert forall id :: id in index ==> Look(index, id) == Some(index[id]);
  }

  lemma {:induction false} AllPublished(blogs: Table, ids: seq<Id>)
    requires forall i :: 0 <= i < |ids| ==> Published(blogs, ids[i])
    ensures PublishedOf(blogs, ids) == ids
  {
    if ids != [] {
      AllPublished(blogs, ids[1..]);
      assert ids == [ids[0]] + ids[1..];
    }
  }

  // ─── Runs ──────────────────────────────────────────────────────────────────

  datatype Event =
    | Creates(user: Viewer, title: string, body: Tiptap.Json)
    | Updates(user: Viewer, id: Id, changes: Changes, now: Time)
    | Removes(user: Viewer, id: Id)
    | Restarts(order: seq<Id>)
    | IndexWrites

  /** An index that makes its writes. */
  function Next(state: State, event: Event): State {
    match event
    case Creates(user, title, body) => Drafted(state, user, title, body)
    case Updates(user, id, changes, now) => Edited(state, user, id, changes, now)
    case Removes(user, id) => Withdrawn(state, user, id)
    case Restarts(order) => state.(queue := Seeded(state.blogs, state.queue, order))
    case IndexWrites => if state.queue == [] then state else Caught(state)
  }

  function Run(events: seq<Event>): State {
    if events == [] then EMPTY else Next(Run(events[..|events| - 1]), events[|events| - 1])
  }

  /** Once its writes are in, the index is what it should be. */
  ghost predicate InStep(state: State) {
    forall id :: Look(Settled(state.index, state.queue), id) == Look(Expected(state.blogs), id)
  }

  lemma WrittenInStep(state: State, id: Id, blog: Blog)
    requires InStep(state)
    ensures InStep(Written(state, id, blog))
  {
    WriteBringsInLine(Settled(state.index, state.queue), state.blogs, id, blog);
    SettledOneMore(state.index, state.queue, WriteFor(id, blog));
  }

  lemma {:induction false} SeededInStep(state: State, order: seq<Id>)
    requires InStep(state)
    ensures InStep(state.(queue := Seeded(state.blogs, state.queue, order)))
  {
    if order != [] {
      var id, before := order[|order| - 1], Seeded(state.blogs, state.queue, order[..|order| - 1]);
      SeededInStep(state, order[..|order| - 1]);
      if Published(state.blogs, id) {
        WrittenInStep(state.(queue := before), id, state.blogs[id]);
        assert state.blogs[id := state.blogs[id]] == state.blogs;
      }
    }
  }

  lemma DraftedInStep(state: State, user: Viewer, title: string, body: Tiptap.Json)
    requires InStep(state) && RowsOk(state.blogs, state.next)
    ensures var state' := Drafted(state, user, title, body); InStep(state') && RowsOk(state'.blogs, state'.next)
  {
    Tiptap.DocFixpoint(body);
  }

  lemma EditedRows(state: State, user: Viewer, id: Id, changes: Changes, now: Time)
    requires RowsOk(state.blogs, state.next)
    ensures var state' := Edited(state, user, id, changes, now); RowsOk(state'.blogs, state'.next)
  {
    if changes.body.Some? { Tiptap.DocFixpoint(changes.body.value); }
  }

  lemma NextInStep(state: State, event: Event)
    requires InStep(state) && RowsOk(state.blogs, state.next)
    ensures var state' := Next(state, event); InStep(state') && RowsOk(state'.blogs, state'.next)
  {
    match event
    case Creates(user, title, body) => DraftedInStep(state, user, title, body);
    case Updates(user, id, changes, now) =>
      var body := SafeBody(changes.body);
      EditedRows(state, user, id, changes, now);
      if IsAuthor(state.blogs, user, id) && body.Some? {
        WrittenInStep(state, id, Changed(state.blogs[id], changes.title, body.value, changes.isDraft, now));
      }
    case Removes(user, id) =>
      if IsAuthor(state.blogs, user, id) { WrittenInStep(state, id, state.blogs[id].(deleted := true)); }
    case Restarts(order) => SeededInStep(state, order);
    case IndexWrites => if state.queue != [] { SettledFromFront(state.index, state.queue); }
  }

  /** Whatever is created, edited and removed, by whomever, across restarts and however far the index is
      behind: the writes still to be made end with an index holding what is published as it is now, and
      the table holds safe documents alone. */
  lemma {:induction false} EveryRunEndsInStep(events: seq<Event>)
    ensures var state := Run(events);
      Settled(state.index, state.queue) == Expected(state.blogs) && RowsOk(state.blogs, state.next)
  {
    if events != [] {
      var before := Run(events[..|events| - 1]);
      EveryRunEndsInStep(events[..|events| - 1]);
      NextInStep(before, events[|events| - 1]);
      SameLooks(Settled(Run(events).index, Run(events).queue), Expected(Run(events).blogs));
    }
  }

  /** After any run, the writes sent leave a blog in the index exactly when it is published, and then with its
      title and the words of its body as they are now. */
  lemma {:induction false} AgreementMeans(events: seq<Event>, id: Id)
    ensures var state := Run(events); var index := Settled(state.index, state.queue);
      && (id in index <==> Published(state.blogs, id))
      && (id in index ==>
            && index[id].title == state.blogs[id].title
            && Tiptap.Words(index[id].bodyText) == Tiptap.AllWords(Tiptap.TextParts(state.blogs[id].body)))
  {
    EveryRunEndsInStep(events);
    var blogs := Run(events).blogs;
    if Published(blogs, id) { Tiptap.PlainTextIsTheWords(blogs[id].body); }
  }

  /** An index that has made its writes and answers with ids it holds has none of them dropped by a
      search. */
  lemma {:induction false} SettledSearchDropsNothing(events: seq<Event>, ids: seq<Id>)
    requires Run(events).queue == [] && forall id :: id in ids ==> id in Run(events).index
    ensures PublishedOf(Run(events).blogs, ids) == ids
  {
    EveryRunEndsInStep(events);
    forall i | 0 <= i < |ids|
      ensures Published(Run(events).blogs, ids[i])
    {
      assert ids[i] in ids;
    }
    AllPublished(Run(events).blogs, ids);
  }

  // ─── What becomes of a row ─────────────────────────────────────────────────

  predicate Edits(event: Event, id: Id, blog: Blog) {
    event.Updates? && event.id == id && !blog.deleted && event.user.id == blog.authorId
    && (event.changes.body.Some? ==> Tiptap.SanitizeTiptapDoc(event.changes.body.value).Doc?)
  }

  predicate Takes(event: Event, id: Id, blog: Blog) {
    event.Removes? && event.id == id && !blog.deleted && event.user.id == blog.authorId
  }

  /** A row changes on its author's edit, to what was asked for, and on its author's removal, and on nothing
      else; nobody else's row is touched. */
  lemma NextRow(state: State, event: Event, id: Id)
    requires id in state.blogs && id < state.next
    ensures id in Next(state, event).blogs
    ensures var row, row' := state.blogs[id], Next(state, event).blogs[id];
      if Edits(event, id, row) then AsAsked(row, row', event.changes, event.now)
      else row' == if Takes(event, id, row) then row.(deleted := true) else row
  {
  }

  /** A row that is new is a draft of whoever wrote it, under the title given, with the body made safe. */
  lemma NextNewRow(state: State, event: Event, id: Id)
    requires id !in state.blogs && id in Next(state, event).blogs
    ensures event.Creates? && (IsVa(event.user) || IsVm(event.user))
    ensures Tiptap.SanitizeTiptapDoc(event.body).Doc?
    ensures Next(state, event).blogs[id]
      == Blog(event.user.id, event.title, Tiptap.SanitizeTiptapDoc(event.body).doc, true, None, false)
  {
  }

  /** Nobody edits or removes the blog from the i-th event up to the j-th. */
  ghost predicate LeftAlone(events: seq<Event>, i: nat, j: nat, id: Id)
    requires j <= |events|
  {
    forall k :: i <= k < j ==>
      var blogs := Run(events[..k]).blogs;
      id in blogs ==> !Edits(events[k], id, blogs[id]) && !Takes(events[k], id, blogs[id])
  }

  lemma RunOneMore(events: seq<Event>, k: nat)
    requires k < |events|
    ensures Run(events[..k + 1]) == Next(Run(events[..k]), events[k])
  {
    assert events[..k + 1][..k] == events[..k];
  }

  lemma {:induction false} KnownRow(events: seq<Event>, id: Id)
    requires id in Run(events).blogs
    ensures id < Run(events).next
  {
    EveryRunEndsInStep(events);
  }

  lemma {:induction false} StaysAsItWas(events: seq<Event>, i: nat, j: nat, id: Id)
    requires i <= j <= |events| && id in Run(events[..i]).blogs && LeftAlone(events, i, j, id)
    ensures id in Run(events[..j]).blogs && Run(events[..j]).blogs[id] == Run(events[..i]).blogs[id]
    decreases j - i
  {
    if i < j {
      StaysAsItWas(events, i, j - 1, id);
      RunOneMore(events, j - 1);
      KnownRow(events[..j - 1], id);
      NextRow(Run(events[..j - 1]), events[j - 1], id);
    }
  }

  /** Along any run, a blog reads as its author last asked for: from a granted edit until the next edit or the
      removal, whatever anybody else does and however often the service restarts. */
  lemma {:induction false} BlogAlong(events: seq<Event>, i: nat, j: nat, id: Id)
    requires i < j <= |events| && id in Run(events[..i]).blogs && Edits(events[i], id, Run(events[..i]).blogs[id])
    requires LeftAlone(events, i + 1, j, id)
    ensures id in Run(events[..j]).blogs
    ensures AsAsked(Run(events[..i]).blogs[id], Run(events[..j]).blogs[id], events[i].changes, events[i].now)
  {
    RunOneMore(events, i);
    KnownRow(events[..i], id);
    NextRow(Run(events[..i]), events[i], id);
    StaysAsItWas(events, i + 1, j, id);
  }

  // ─── An index that ignores its writes ──────────────────────────────────────

  /** The same service with an index that drops every write, as the one of this commit does. */
  function NextIgnored(state: State, event: Event): State {
    Next(state, event).(index := state.index, queue := [])
  }

  function RunIgnored(events: seq<Event>): State {
    if events == [] then EMPTY else NextIgnored(RunIgnored(events[..|events| - 1]), events[|events| - 1])
  }

  /** What the index does makes no difference to the table. */
  lemma SameTable(state: State, state': State, event: Event)
    requires state'.blogs == state.blogs && state'.next == state.next
    ensures Next(state', event).blogs == Next(state, event).blogs && Next(state', event).next == Next(state, event).next
  {
  }

  lemma {:induction false} IgnoredTable(events: seq<Event>)
    ensures RunIgnored(events).blogs == Run(events).blogs && RunIgnored(events).next == Run(events).next
    ensures RunIgnored(events).index == map[]
  {
    if events != [] {
      IgnoredTable(events[..|events| - 1]);
      SameTable(Run(events[..|events| - 1]), RunIgnored(events[..|events| - 1]), events[|events| - 1]);
    }
  }

  /** After any run, an index that ignores its writes lacks exactly what is published, so that it is as it
      should be if and only if nothing is. */
  lemma {:induction false} IgnoringIndexAgreesIff(events: seq<Event>)
    ensures var state := RunIgnored(events);
      && state.blogs == Run(events).blogs
      && (forall id :: id in Expected(state.blogs) && id !in state.index <==> Published(state.blogs, id))
      && (state.index == Expected(state.blogs) <==> forall id :: !Published(state.blogs, id))
  {
    IgnoredTable(events);
    var blogs := Run(events).blogs;
    assert forall id :: id in Expected(blogs) <==> Published(blogs, id);
  }

  /** It happens: anybody who may write drafts a blog and publishes it. */
  lemma {:induction false} IgnoringIndexFallsBehind(user: Viewer, title: string, body: Tiptap.Json, now: Time)
    requires (IsVa(user) || IsVm(user)) && Tiptap.SanitizeTiptapDoc(body).Doc?
    ensures var state :=
        RunIgnored([Creates(user, title, body), Updates(user, 0, Changes(None, None, Some(false)), now)]);
      Published(state.blogs, 0) && 0 !in state.index
  {
    var events := [Creates(user, title, body), Updates(user, 0, Changes(None, None, Some(false)), now)];
    assert events[..1] == [events[0]] && events[..1][..0] == [];
    assert RunIgnored(events[..1]) == NextIgnored(EMPTY, events[0]);
  }
}
