/** What of a document the sanitiser keeps: a reading of any JSON at all that sees what is allowed and nothing
    else, written apart from the sanitiser, with the limits spelled out. */
module TiptapContent {
  import opened Text
  import opened Tiptap

  datatype Markup = Bold | Italic | Link(href: string)

  /** What a reader of the document sees. */
  datatype Content =
    | Words(text: string, marks: seq<Markup>)
    | Image(src: string)
    | Mention(kind: string, entityType: string, entityId: string, shown: string)
    | Block(kind: string, level: Option<real>, children: seq<Content>)

  // ─── Reading ───────────────────────────────────────────────────────────────

  /** The text of a property, if it is text. */
  function TextOf(property: Option<Json>): Option<string> {
    if property.Some? && property.value.Str? then Some(property.value.s) else None
  }

  function TypeOf(node: Json): Option<string> {
    TextOf(Field(node, "type"))
  }

  predicate HttpUrl(url: Option<string>) {
    url.Some? && ("http://" <= Lower(url.value) || "https://" <= Lower(url.value))
  }

  /** Bold, italic, and a link to an address of the web. */
  function ReadMark(mark: Json): seq<Markup> {
    var t, href := TypeOf(mark), TextOf(Attr(mark, "href"));
    if t == Some("bold") then [Bold]
    else if t == Some("italic") then [Italic]
    else if t == Some("link") && HttpUrl(href) then [Link(href.value)]
    else []
  }

  function ReadMarks(marks: seq<Json>): seq<Markup> {
    if marks == [] then [] else ReadMark(marks[0]) + ReadMarks(marks[1..])
  }

  function ListOf(property: Option<Json>): seq<Json> {
    if property.Some? && property.value.Arr? then property.value.items else []
  }

  predicate KnownEntity(entityType: string) {
    || entityType == "weakness" || entityType == "virtue" || entityType == "subvirtue" || entityType == "sentence"
    || entityType == "journey" || entityType == "exposure" || entityType == "resolution" || entityType == "challenge"
  }

  function ReadMention(kind: string, node: Json): Option<Content> {
    var entityType, entityId := TextOf(Attr(node, "entityType")), TextOf(Attr(node, "entityId"));
    var name := TextOf(Attr(node, "label"));
    var shown := if name.None? then "" else if |name.value| <= 120 then name.value else name.value[..120];
    if entityType.Some? && KnownEntity(entityType.value) && entityId.Some? && 1 <= |entityId.value| <= 64
    then Some(Mention(kind, entityType.value, entityId.value, shown))
    else None
  }

  /** The level of a heading: 2, 3 or 4 as it stands, anything else as 2. */
  function ReadLevel(node: Json): real {
    var level := Attr(node, "level");
    if level == Some(Num(3.0)) then 3.0 else if level == Some(Num(4.0)) then 4.0 else 2.0
  }

  predicate IsBlock(t: string) {
    || t == "doc" || t == "paragraph" || t == "heading" || t == "hardBreak"
    || t == "bulletList" || t == "orderedList" || t == "listItem" || t == "blockquote"
  }

  /** What is allowed of a node, whatever else it carries. */
  function Reading(node: Json): Option<Content> {
    var t := TypeOf(node);
    if t.None? then None
    else if t.value == "text" then
      var text := TextOf(Field(node, "text"));
      if text.None? then None else Some(Words(text.value, ReadMarks(ListOf(Field(node, "marks")))))
    else if t.value == "image" then
      var src := TextOf(Attr(node, "src"));
      if HttpUrl(src) then Some(Image(src.value)) else None
    else if t.value == "entityAt" || t.value == "entityHash" then ReadMention(t.value, node)
    else if IsBlock(t.value) then
      var level := if t.value == "heading" then Some(ReadLevel(node)) else None;
      var children :=
        if "content" in node.fields && node.fields["content"].Arr? then Readings(node.fields["content"].items) else [];
      Some(Block(t.value, level, children))
    else None
  }

  function IfRead(content: Option<Content>): seq<Content> {
    if content.Some? then [content.value] else []
  }

  function Readings(nodes: seq<Json>): seq<Content> {
    if nodes == [] then [] else IfRead(Reading(nodes[0])) + Readings(nodes[1..])
  }

  // ─── The sanitiser keeps the reading ───────────────────────────────────────

  lemma SafeIsHttp(url: string)
    ensures SafeUrlText(url) == HttpUrl(Some(url))
  {
    LowerPrefix(url, 7);
    LowerPrefix(url, 8);
  }

  lemma {:induction false} LowerPrefix(url: string, n: nat)
    ensures |Lower(url)| == |url|
    ensures n <= |url| ==> Lower(url[..n]) == Lower(url)[..n]
  {
    if url != [] && n > 0 {
      LowerPrefix(url[1..], n - 1);
      if n <= |url| { assert url[..n] == [url[0]] + url[1..][..n - 1]; }
    }
  }

  lemma MarkRead(raw: Json)
    ensures ReadMark(raw) == ReadMarks(IfKept(SanitizedMark(raw)))
  {
    var href := TextOf(Attr(raw, "href"));
    if href.Some? { SafeIsHttp(href.value); }
  }

  lemma {:induction false} MarksJoin(some: seq<Json>, more: seq<Json>)
    ensures ReadMarks(some + more) == ReadMarks(some) + ReadMarks(more)
  {
    if some == [] {
      assert some + more == more;
    } else {
      assert (some + more)[1..] == some[1..] + more;
      MarksJoin(some[1..], more);
    }
  }

  lemma {:induction false} MarksRead(marks: seq<Json>)
    ensures ReadMarks(SanitizedMarks(marks)) == ReadMarks(marks)
  {
    if marks != [] {
      MarkRead(marks[0]);
      MarksRead(marks[1..]);
      MarksJoin(IfKept(SanitizedMark(marks[0])), SanitizedMarks(marks[1..]));
    }
  }

  /** The node survives exactly when something of it is read, and then reads the same. */
  ghost predicate KeepsReading(node: Json) {
    var out := SanitizeNode(node);
    && (out.Some? <==> Reading(node).Some?)
    && (out.Some? ==> Reading(out.value) == Reading(node))
  }

  lemma TextRead(node: Json)
    requires TypeOf(node) == Some("text")
    ensures KeepsReading(node)
  {
    MarksRead(ListOf(Field(node, "marks")));
  }

  lemma ImageRead(node: Json)
    requires TypeOf(node) == Some("image")
    ensures KeepsReading(node)
  {
    var src := TextOf(Attr(node, "src"));
    if src.Some? { SafeIsHttp(src.value); }
  }

  lemma EntityRead(node: Json)
    ensures AllowedEntity(Attr(node, "entityType"), Attr(node, "entityId")) <==>
      var entityType, entityId := TextOf(Attr(node, "entityType")), TextOf(Attr(node, "entityId"));
      entityType.Some? && KnownEntity(entityType.value) && entityId.Some? && 1 <= |entityId.value| <= 64
  {
  }

  lemma MentionRead(node: Json, t: string)
    requires TypeOf(node) == Some(t) && IsMention(t)
    ensures KeepsReading(node)
  {
    EntityRead(node);
    if SanitizeNode(node).Some? {
      var out := MentionNode(t, node);
      assert Attr(out, "entityType") == Attr(node, "entityType") && Attr(out, "entityId") == Attr(node, "entityId");
      EntityRead(out);
    }
  }

  lemma BlocksAreContainers(t: string)
    ensures IsBlock(t) <==> t in CONTAINER_NODE_TYPES
  {
  }

  lemma LevelRead(node: Json)
    ensures var level := Attr(node, "level");
      ReadLevel(node) == if level.Some? && AllowedLevel(level.value) then level.value.n else 2.0
  {
  }

  function LevelOf(t: string, node: Json): Option<real> {
    if t == "heading" then Some(ReadLevel(node)) else None
  }

  function BlockNode(t: string, node: Json, children: seq<Json>): Json {
    Obj(if children != [] then Shell(t, node)["content" := Arr(children)] else Shell(t, node))
  }

  lemma {:induction false} BlockOut(node: Json, t: string)
    requires TypeOf(node) == Some(t) && IsBlock(t)
    ensures SanitizeNode(node) == Some(BlockNode(t, node, SanitizeAll(ContentOf(node))))
  {
    BlocksAreContainers(t);
  }

  lemma BlockNodeReads(t: string, node: Json, children: seq<Json>)
    ensures var out := BlockNode(t, node, children);
      TypeOf(out) == Some(t) && ContentOf(out) == children && LevelOf(t, out) == LevelOf(t, node)
  {
    LevelRead(node);
    LevelRead(BlockNode(t, node, children));
  }

  lemma {:induction false} ReadBlock(node: Json, t: string)
    requires TypeOf(node) == Some(t) && IsBlock(t)
    ensures Reading(node) == Some(Block(t, LevelOf(t, node), Readings(ContentOf(node))))
  {
  }

  lemma {:induction false} BlockRead(node: Json, t: string, out: Json)
    requires TypeOf(node) == Some(t) && IsBlock(t) && SanitizeNode(node) == Some(out)
    requires TypeOf(out) == Some(t) && LevelOf(t, out) == LevelOf(t, node)
    requires Readings(ContentOf(out)) == Readings(ContentOf(node))
    ensures KeepsReading(node)
  {
    ReadBlock(node, t);
    ReadBlock(out, t);
  }

  lemma {:induction false} NodeReads(node: Json)
    ensures KeepsReading(node)
    decreases node
  {
    var t := TypeOf(node);
    if t.Some? {
      BlocksAreContainers(t.value);
      if t.value == "text" {
        TextRead(node);
      } else if t.value == "image" {
        ImageRead(node);
      } else if IsMention(t.value) {
        MentionRead(node, t.value);
      } else if IsBlock(t.value) {
        if "content" in node.fields && node.fields["content"].Arr? { AllNodesRead(node.fields["content"].items); }
        BlockOut(node, t.value);
        BlockNodeReads(t.value, node, SanitizeAll(ContentOf(node)));
        BlockRead(node, t.value, SanitizeNode(node).value);
      }
    }
  }

  lemma {:induction false} AllNodesRead(nodes: seq<Json>)
    ensures Readings(SanitizeAll(nodes)) == Readings(nodes)
    decreases nodes
  {
    if nodes != [] {
      NodeReads(nodes[0]);
      AllNodesRead(nodes[1..]);
      var rest := SanitizeAll(nodes[1..]);
      if SanitizeNode(nodes[0]).Some? {
        assert ([SanitizeNode(nodes[0]).value] + rest)[1..] == rest;
      } else {
        assert [] + rest == rest;
      }
    }
  }

  // ─── The reading decides the clean document ────────────────────────────────

  /** A clean mark is written in one way; a link opens elsewhere and vouches for nothing. */
  lemma OneMark(mark: Json)
    requires CleanMark(mark)
    ensures |ReadMark(mark)| == 1
    ensures mark == match ReadMark(mark)[0]
      case Bold => Obj(map["type" := Str("bold")])
      case Italic => Obj(map["type" := Str("italic")])
      case Link(href) =>
        Obj(map["type" := Str("link"),
                "attrs" := Obj(map["href" := Str(href), "rel" := Str("noopener noreferrer nofollow"),
                                   "target" := Str("_blank")])])
  {
    var href := TextOf(Attr(mark, "href"));
    if href.Some? { SafeIsHttp(href.value); }
  }

  predicate AllMarksClean(marks: seq<Json>) {
    forall i :: 0 <= i < |marks| ==> CleanMark(marks[i])
  }

  lemma {:induction false} MarksDecide(a: seq<Json>, b: seq<Json>)
    requires AllMarksClean(a) && AllMarksClean(b) && ReadMarks(a) == ReadMarks(b)
    ensures a == b
  {
    if a != [] { OneMark(a[0]); }
    if b != [] { OneMark(b[0]); }
    if a != [] && b != [] {
      assert ReadMarks(a)[0] == ReadMark(a[0])[0] && ReadMarks(a)[1..] == ReadMarks(a[1..]);
      assert ReadMarks(b)[0] == ReadMark(b[0])[0] && ReadMarks(b)[1..] == ReadMarks(b[1..]);
      MarksDecide(a[1..], b[1..]);
      assert a == [a[0]] + a[1..] && b == [b[0]] + b[1..];
    }
  }

  /** A clean node is read. */
  lemma {:induction false} CleanIsRead(node: Json)
    requires Clean(node)
    ensures Reading(node).Some?
  {
    NodeKept(node);
    NodeReads(node);
  }

  lemma {:induction false} TextDecides(a: Json, b: Json)
    requires Clean(a) && Clean(b) && TypeOf(a) == Some("text") && TypeOf(b) == Some("text") && Reading(a) == Reading(b)
    ensures a == b
  {
    var some, more := ListOf(Field(a, "marks")), ListOf(Field(b, "marks"));
    MarksDecide(some, more);
    assert a.fields == b.fields;
  }

  lemma {:induction false} ImageDecides(a: Json, b: Json)
    requires Clean(a) && Clean(b) && TypeOf(a) == Some("image") && TypeOf(b) == Some("image")
    requires Reading(a) == Reading(b)
    ensures a == b
  {
    ImageKept(a);
    ImageKept(b);
  }

  lemma {:induction false} MentionDecides(a: Json, b: Json, t: string)
    requires Clean(a) && Clean(b) && IsMention(t) && TypeOf(a) == Some(t) && TypeOf(b) == Some(t)
    requires Reading(a) == Reading(b)
    ensures a == b
  {
    MentionKept(a, t);
    MentionKept(b, t);
  }

  lemma {:induction false} NodeDecides(a: Json, b: Json)
    requires Clean(a) && Clean(b) && Reading(a) == Reading(b)
    ensures a == b
    decreases a
  {
    CleanIsRead(a);
    CleanIsRead(b);
    var t := TypeOf(a).value;
    BlocksAreContainers(t);
    BlocksAreContainers(TypeOf(b).value);
    if t == "text" {
      TextDecides(a, b);
    } else if t == "image" {
      ImageDecides(a, b);
    } else if IsMention(t) {
      MentionDecides(a, b, t);
    } else {
      ReadBlock(a, t);
      ReadBlock(b, t);
      if "content" in a.fields {
        NodesDecide(a.fields["content"].items, ContentOf(b));
      } else {
        NothingDecides(ContentOf(b));
      }
      BlockDecides(a, b, t);
    }
  }

  lemma {:induction false} NothingDecides(nodes: seq<Json>)
    requires AllClean(nodes) && Readings(nodes) == []
    ensures nodes == []
  {
    if nodes != [] { CleanIsRead(nodes[0]); }
  }

  lemma {:induction false} BlockDecides(a: Json, b: Json, t: string)
    requires Clean(a) && Clean(b) && IsBlock(t) && TypeOf(a) == Some(t) && TypeOf(b) == Some(t)
    requires Reading(a) == Reading(b) && ContentOf(a) == ContentOf(b)
    ensures a == b
  {
    NodeKept(a);
    NodeKept(b);
    BlockOut(a, t);
    BlockOut(b, t);
    ReadBlock(a, t);
    ReadBlock(b, t);
  }

  lemma {:induction false} NodesDecide(a: seq<Json>, b: seq<Json>)
    requires AllClean(a) && AllClean(b) && Readings(a) == Readings(b)
    ensures a == b
    decreases a
  {
    if a != [] { CleanIsRead(a[0]); }
    if b != [] { CleanIsRead(b[0]); }
    if a != [] && b != [] {
      assert Readings(a)[0] == Reading(a[0]).value && Readings(a)[1..] == Readings(a[1..]);
      assert Readings(b)[0] == Reading(b[0]).value && Readings(b)[1..] == Readings(b[1..]);
      NodeDecides(a[0], b[0]);
      NodesDecide(a[1..], b[1..]);
      assert a == [a[0]] + a[1..] && b == [b[0]] + b[1..];
    }
  }

  lemma {:induction false} DocIsNode(input: Json)
    requires HasType(input, "doc") && SanitizeAll(ContentOf(input)) != []
    ensures SanitizeTiptapDoc(input).Doc? && SanitizeNode(input) == Some(SanitizeTiptapDoc(input).doc)
  {
    var children := SanitizeAll(ContentOf(input));
    BlockOut(input, "doc");
    assert BlockNode("doc", input, children).fields == DocOf(children).fields;
  }

  lemma {:induction false} DocReads(input: Json)
    requires SanitizeTiptapDoc(input).Doc?
    ensures var doc := SanitizeTiptapDoc(input).doc; CleanDoc(doc) && Reading(doc) == Reading(input)
  {
    DocFixpoint(input);
    DocIsNode(input);
    NodeReads(input);
  }

  lemma CleanDocReads(doc: Json)
    requires CleanDoc(doc)
    ensures AllClean(ContentOf(doc)) && Readings(ContentOf(doc)) != []
  {
    if Readings(ContentOf(doc)) == [] { NothingDecides(ContentOf(doc)); }
  }

  lemma {:induction false} ReadAsBlock(input: Json, children: seq<Content>)
    requires Reading(input) == Some(Block("doc", None, children))
    ensures HasType(input, "doc") && Readings(ContentOf(input)) == children
  {
  }

  lemma {:induction false} ReadsAsDoc(input: Json, doc: Json)
    requires CleanDoc(doc) && Reading(doc) == Reading(input)
    ensures SanitizeTiptapDoc(input).Doc?
  {
    CleanDocReads(doc);
    ReadBlock(doc, "doc");
    ReadAsBlock(input, Readings(ContentOf(doc)));
    AllNodesRead(ContentOf(input));
  }

  /** What the sanitiser returns is the one clean document that reads as the input does: every block in its
      place, headings at their level, every text with its bold, italic and links to the web, every image and
      mention of its own, whatever else the nodes carried, and nothing more. */
  lemma {:induction false} DocExactly(input: Json, doc: Json)
    ensures SanitizeTiptapDoc(input) == Doc(doc) <==> CleanDoc(doc) && Reading(doc) == Reading(input)
  {
    if CleanDoc(doc) && Reading(doc) == Reading(input) { ReadsAsDoc(input, doc); }
    if SanitizeTiptapDoc(input).Doc? {
      DocReads(input);
      if CleanDoc(doc) && Reading(doc) == Reading(input) { NodeDecides(SanitizeTiptapDoc(input).doc, doc); }
    }
  }

  /** Text for text: the marks kept are the bold, the italic and the links to the web, in their order, each
      link with the address it had. */
  lemma {:induction false} MarksExactly(marks: seq<Json>)
    ensures AllMarksClean(SanitizedMarks(marks)) && ReadMarks(SanitizedMarks(marks)) == ReadMarks(marks)
  {
    MarksClean(marks);
    MarksRead(marks);
  }
}
