/** The structural sanitiser every piece of rich text passes before it is stored, and the flattener that
    turns a document into text for search. */
module Tiptap {
  import opened Text

  /** A JSON value. The order of an object's keys is not kept. */
  datatype Json =
    | Null
    | Bool(b: bool)
    | Num(n: real)
    | Str(s: string)
    | Arr(items: seq<Json>)
    | Obj(fields: map<string, Json>)

  const CONTAINER_NODE_TYPES :=
    {"doc", "paragraph", "heading", "hardBreak", "bulletList", "orderedList", "listItem", "blockquote"}

  const ALLOWED_ENTITY_TYPES :=
    {"weakness", "virtue", "subvirtue", "sentence", "journey", "exposure", "resolution", "challenge"}

  const MENTION_LABEL_MAX := 120
  const ENTITY_ID_MAX := 64

  /** Reading a property, `undefined` being `None`. */
  function Field(j: Json, key: string): Option<Json> {
    if j.Obj? && key in j.fields then Some(j.fields[key]) else None
  }

  function Attr(node: Json, key: string): Option<Json> {
    match Field(node, "attrs")
    case Some(attrs) => Field(attrs, key)
    case None => None
  }

  predicate HasType(node: Json, t: string) {
    Field(node, "type") == Some(Str(t))
  }

  predicate SafeUrlText(url: string) {
    || (|url| >= 7 && Lower(url[..7]) == "http://")
    || (|url| >= 8 && Lower(url[..8]) == "https://")
  }

  predicate SafeUrl(url: Option<Json>) {
    url.Some? && url.value.Str? && SafeUrlText(url.value.s)
  }

  predicate AllowedLevel(level: Json) {
    level.Num? && level.n in {2.0, 3.0, 4.0}
  }

  predicate IsMention(t: string) {
    t == "entityAt" || t == "entityHash"
  }

  predicate AllowedEntity(entityType: Option<Json>, entityId: Option<Json>) {
    && entityType.Some? && entityType.value.Str? && entityType.value.s in ALLOWED_ENTITY_TYPES
    && entityId.Some? && entityId.value.Str? && 1 <= |entityId.value.s| <= ENTITY_ID_MAX
  }

  // ─── The sanitiser ─────────────────────────────────────────────────────────

  function LinkMark(href: Json): Json {
    Obj(map["type" := Str("link"),
            "attrs" := Obj(map["href" := href, "rel" := Str("noopener noreferrer nofollow"),
                               "target" := Str("_blank")])])
  }

  function SanitizedMark(raw: Json): Option<Json> {
    if HasType(raw, "link") then
      if SafeUrl(Attr(raw, "href")) then Some(LinkMark(Attr(raw, "href").value)) else None
    else if HasType(raw, "bold") || HasType(raw, "italic") then
      Some(Obj(map["type" := raw.fields["type"]]))
    else None
  }

  function IfKept(mark: Option<Json>): seq<Json> {
    if mark.Some? then [mark.value] else []
  }

  function SanitizedMarks(marks: seq<Json>): seq<Json> {
    if marks == [] then []
    else IfKept(SanitizedMark(marks[0])) + SanitizedMarks(marks[1..])
  }

  lemma {:induction false} SanitizedMarksFirst(marks: seq<Json>, raw: Json, first: Option<Json>)
    requires marks != [] && first == SanitizedMark(marks[0])
    ensures SanitizedMarks(marks) == IfKept(first) + SanitizedMarks(marks[1..])
    ensures SanitizedMarks(marks + [raw]) == IfKept(first) + SanitizedMarks(marks[1..] + [raw])
  {
    assert (marks + [raw])[1..] == marks[1..] + [raw];
  }

  lemma {:induction false} SanitizedMarksAppend(marks: seq<Json>, raw: Json)
    ensures SanitizedMarks(marks + [raw]) == SanitizedMarks(marks) + IfKept(SanitizedMark(raw))
  {
    if marks == [] {
      assert marks + [raw] == [raw];
    } else {
      SanitizedMarksAppend(marks[1..], raw);
      SanitizedMarksFirst(marks, raw, SanitizedMark(marks[0]));
    }
  }

  /** The allowed marks in order, or nothing when there are none or the value is no array. */
  method SanitizeMarks(marks: Option<Json>) returns (clean: Option<seq<Json>>)
    ensures clean == MarksOf(marks)
  {
    if marks.None? || !marks.value.Arr? {
      return None;
    }
    var raws := marks.value.items;
    var kept: seq<Json> := [];
    for i := 0 to |raws|
      invariant kept == SanitizedMarks(raws[..i])
    {
      SanitizedMarksAppend(raws[..i], raws[i]);
      assert raws[..i + 1] == raws[..i] + [raws[i]];
      var m := SanitizedMark(raws[i]);
      if m.Some? {
        kept := kept + [m.value];
      }
    }
    assert raws[..|raws|] == raws;
    return if |kept| > 0 then Some(kept) else None;
  }

  function MarksOf(marks: Option<Json>): Option<seq<Json>> {
    if marks.Some? && marks.value.Arr? && SanitizedMarks(marks.value.items) != []
    then Some(SanitizedMarks(marks.value.items))
    else None
  }

  function TextNode(node: Json): Json
    requires Field(node, "text").Some?
  {
    var bare := map["type" := Str("text"), "text" := Field(node, "text").value];
    var marks := MarksOf(Field(node, "marks"));
    Obj(if marks.Some? then bare["marks" := Arr(marks.value)] else bare)
  }

  function MentionNode(t: string, node: Json): Json
    requires AllowedEntity(Attr(node, "entityType"), Attr(node, "entityId"))
  {
    var name := Attr(node, "label");
    var shown := if name.Some? && name.value.Str? then Clamp(name.value.s) else "";
    Obj(map["type" := Str(t),
            "attrs" := Obj(map["entityType" := Attr(node, "entityType").value,
                               "entityId" := Attr(node, "entityId").value,
                               "label" := Str(shown)])])
  }

  function Clamp(name: string): (r: string)
    ensures |r| <= MENTION_LABEL_MAX && r <= name
    ensures |name| <= MENTION_LABEL_MAX ==> r == name
  {
    if |name| <= MENTION_LABEL_MAX then name else name[..MENTION_LABEL_MAX]
  }

  function HeadingAttrs(node: Json): Json {
    var level := Attr(node, "level");
    Obj(map["level" := if level.Some? && AllowedLevel(level.value) then level.value else Num(2.0)])
  }

  /** The node without its children. */
  function Shell(t: string, node: Json): map<string, Json> {
    if t == "heading" then map["type" := Str(t), "attrs" := HeadingAttrs(node)] else map["type" := Str(t)]
  }

  function SanitizeNode(node: Json): Option<Json> {
    var kind := Field(node, "type");
    if kind.None? || !kind.value.Str? then None
    else
      var t := kind.value.s;
      if t == "text" then
        var text := Field(node, "text");
        if text.Some? && text.value.Str? then Some(TextNode(node)) else None
      else if t == "image" then
        var src := Attr(node, "src");
        if SafeUrl(src)
        then Some(Obj(map["type" := Str(t), "attrs" := Obj(map["src" := src.value])]))
        else None
      else if IsMention(t) then
        if AllowedEntity(Attr(node, "entityType"), Attr(node, "entityId")) then Some(MentionNode(t, node)) else None
      else if t in CONTAINER_NODE_TYPES then
        var shell := Shell(t, node);
        if "content" in node.fields && node.fields["content"].Arr? then
          var children := SanitizeAll(node.fields["content"].items);
          Some(Obj(if children != [] then shell["content" := Arr(children)] else shell))
        else Some(Obj(shell))
      else None
  }

  /** Sanitises each node and drops the ones that do not survive. */
  function SanitizeAll(nodes: seq<Json>): seq<Json> {
    if nodes == [] then []
    else
      var first := SanitizeNode(nodes[0]);
      (if first.Some? then [first.value] else []) + SanitizeAll(nodes[1..])
  }

  datatype DocError = NotADocument | EmptyDocument
  datatype DocResult = Doc(doc: Json) | Invalid(error: DocError)

  function ContentOf(node: Json): seq<Json> {
    var content := Field(node, "content");
    if content.Some? && content.value.Arr? then content.value.items else []
  }

  function DocOf(children: seq<Json>): Json {
    Obj(map["type" := Str("doc"), "content" := Arr(children)])
  }

  function SanitizeTiptapDoc(input: Json): DocResult {
    if !HasType(input, "doc") then Invalid(NotADocument)
    else
      var content := SanitizeAll(ContentOf(input));
      if content == [] then Invalid(EmptyDocument) else Doc(DocOf(content))
  }

  // ─── What a clean document is ──────────────────────────────────────────────

  predicate CleanMark(m: Json) {
    || m == Obj(map["type" := Str("bold")])
    || m == Obj(map["type" := Str("italic")])
    || (SafeUrl(Attr(m, "href")) && m == LinkMark(Attr(m, "href").value))
  }

  predicate CleanText(node: Json) {
    && node.Obj?
    && node.fields.Keys <= {"type", "text", "marks"}
    && Field(node, "text").Some? && Field(node, "text").value.Str?
    && ("marks" in node.fields ==>
          var marks := node.fields["marks"];
          marks.Arr? && marks.items != [] && forall i :: 0 <= i < |marks.items| ==> CleanMark(marks.items[i]))
  }

  predicate CleanImage(node: Json) {
    && node.Obj?
    && node.fields.Keys == {"type", "attrs"}
    && SafeUrl(Attr(node, "src"))
    && node.fields["attrs"].fields.Keys == {"src"}
  }

  predicate CleanMention(node: Json) {
    && node.Obj?
    && node.fields.Keys == {"type", "attrs"}
    && AllowedEntity(Attr(node, "entityType"), Attr(node, "entityId"))
    && node.fields["attrs"].fields.Keys == {"entityType", "entityId", "label"}
    && node.fields["attrs"].fields["label"].Str?
    && |node.fields["attrs"].fields["label"].s| <= MENTION_LABEL_MAX
  }

  function ShellKeys(t: string): set<string> {
    if t == "heading" then {"type", "attrs"} else {"type"}
  }

  predicate CleanContainer(node: Json, t: string) {
    && node.Obj?
    && node.fields.Keys == ShellKeys(t) + (if "content" in node.fields then {"content"} else {})
    && (t == "heading" ==>
          && Attr(node, "level").Some? && AllowedLevel(Attr(node, "level").value)
          && node.fields["attrs"].fields.Keys == {"level"})
    && ("content" in node.fields ==> node.fields["content"].Arr? && node.fields["content"].items != [])
  }

  /** The whole schema, at every depth: only allowed nodes and marks, only the keys each may carry,
      only safe URLs, levels 2 to 4, and well-formed entity references. */
  predicate Clean(node: Json) {
    && node.Obj? && "type" in node.fields && node.fields["type"].Str?
    && var t := node.fields["type"].s;
       if t == "text" then CleanText(node)
       else if t == "image" then CleanImage(node)
       else if IsMention(t) then CleanMention(node)
       else
         && t in CONTAINER_NODE_TYPES
         && CleanContainer(node, t)
         && ("content" in node.fields ==> AllClean(node.fields["content"].items))
  }

  predicate AllClean(nodes: seq<Json>) {
    nodes == [] || (Clean(nodes[0]) && AllClean(nodes[1..]))
  }

  predicate CleanDoc(doc: Json) {
    Clean(doc) && HasType(doc, "doc") && "content" in doc.fields
  }

  // ─── The sanitiser returns clean documents and leaves clean documents alone ─

  lemma MarkClean(raw: Json)
    ensures SanitizedMark(raw).Some? ==> CleanMark(SanitizedMark(raw).value)
  {
  }

  lemma MarkKept(m: Json)
    requires CleanMark(m)
    ensures SanitizedMark(m) == Some(m)
  {
  }

  lemma {:induction false} MarksClean(marks: seq<Json>)
    ensures forall i :: 0 <= i < |SanitizedMarks(marks)| ==> CleanMark(SanitizedMarks(marks)[i])
  {
    if marks != [] {
      MarkClean(marks[0]);
      MarksClean(marks[1..]);
    }
  }

  lemma {:induction false} MarksKept(marks: seq<Json>)
    requires forall i :: 0 <= i < |marks| ==> CleanMark(marks[i])
    ensures SanitizedMarks(marks) == marks
  {
    if marks != [] {
      MarkKept(marks[0]);
      MarksKept(marks[1..]);
      assert [marks[0]] + marks[1..] == marks;
    }
  }

  lemma {:induction false} TextClean(node: Json)
    requires HasType(node, "text") && SanitizeNode(node).Some?
    ensures Clean(SanitizeNode(node).value)
  {
    var marks := Field(node, "marks");
    if marks.Some? && marks.value.Arr? {
      MarksClean(marks.value.items);
    }
    assert CleanText(TextNode(node));
  }

  lemma {:induction false} TextKept(node: Json)
    requires HasType(node, "text") && CleanText(node)
    ensures SanitizeNode(node) == Some(node)
  {
    if "marks" in node.fields {
      MarksKept(node.fields["marks"].items);
    }
    assert TextNode(node).fields == node.fields;
  }

  lemma {:induction false} ImageKept(node: Json)
    requires HasType(node, "image") && CleanImage(node)
    ensures SanitizeNode(node) == Some(node)
  {
    var src := Attr(node, "src").value;
    assert node.fields["attrs"].fields == map["src" := src];
    assert node.fields == map["type" := Str("image"), "attrs" := Obj(map["src" := src])];
  }

  lemma {:induction false} MentionClean(node: Json, t: string)
    requires HasType(node, t) && IsMention(t) && SanitizeNode(node).Some?
    ensures Clean(SanitizeNode(node).value)
  {
    var out := MentionNode(t, node);
    assert Attr(out, "entityType") == Attr(node, "entityType");
    assert Attr(out, "entityId") == Attr(node, "entityId");
    assert CleanMention(out);
  }

  lemma {:induction false} MentionKept(node: Json, t: string)
    requires HasType(node, t) && IsMention(t) && CleanMention(node)
    ensures SanitizeNode(node) == Some(node)
  {
    var out := MentionNode(t, node);
    assert out.fields["attrs"].fields == node.fields["attrs"].fields;
    assert out.fields == node.fields;
  }

  lemma HeadingAttrsKept(node: Json)
    requires CleanContainer(node, "heading")
    ensures node.fields["attrs"] == HeadingAttrs(node)
  {
    assert node.fields["attrs"].fields == HeadingAttrs(node).fields;
  }

  lemma {:induction false} ContainerKept(node: Json, t: string)
    requires HasType(node, t) && t in CONTAINER_NODE_TYPES && CleanContainer(node, t)
    requires "content" in node.fields ==> SanitizeAll(node.fields["content"].items) == node.fields["content"].items
    ensures SanitizeNode(node) == Some(node)
  {
    if t == "heading" { HeadingAttrsKept(node); }
    var shell := Shell(t, node);
    assert shell.Keys == ShellKeys(t);
    if "content" in node.fields {
      assert shell["content" := node.fields["content"]] == node.fields;
    } else {
      assert shell == node.fields;
    }
  }

  /** Whatever survives the sanitiser meets the schema at every depth. */
  lemma {:induction false} NodeClean(node: Json)
    ensures SanitizeNode(node).Some? ==> Clean(SanitizeNode(node).value)
    decreases node
  {
    var kind := Field(node, "type");
    if SanitizeNode(node).Some? {
      var t := kind.value.s;
      if t == "text" { TextClean(node); }
      else if t == "image" {}
      else if IsMention(t) { MentionClean(node, t); }
      else if "content" in node.fields && node.fields["content"].Arr? {
        AllNodesClean(node.fields["content"].items);
      }
    }
  }

  lemma {:induction false} AllNodesClean(nodes: seq<Json>)
    ensures AllClean(SanitizeAll(nodes))
    decreases nodes
  {
    if nodes != [] {
      NodeClean(nodes[0]);
      AllNodesClean(nodes[1..]);
      var rest := SanitizeAll(nodes[1..]);
      if SanitizeNode(nodes[0]).Some? {
        assert ([SanitizeNode(nodes[0]).value] + rest)[1..] == rest;
      } else {
        assert [] + rest == rest;
      }
    }
  }

  lemma {:induction false} NodeKept(node: Json)
    requires Clean(node)
    ensures SanitizeNode(node) == Some(node)
    decreases node
  {
    var t := node.fields["type"].s;
    if t == "text" { TextKept(node); }
    else if t == "image" { ImageKept(node); }
    else if IsMention(t) { MentionKept(node, t); }
    else {
      if "content" in node.fields { AllNodesKept(node.fields["content"].items); }
      ContainerKept(node, t);
    }
  }

  lemma {:induction false} AllNodesKept(nodes: seq<Json>)
    requires AllClean(nodes)
    ensures SanitizeAll(nodes) == nodes
    decreases nodes
  {
    if nodes != [] {
      NodeKept(nodes[0]);
      AllNodesKept(nodes[1..]);
      assert [nodes[0]] + nodes[1..] == nodes;
    }
  }

  /** The sanitiser's fixpoints are exactly the clean nodes. */
  lemma {:induction false} NodeFixpoint(node: Json)
    ensures SanitizeNode(node) == Some(node) <==> Clean(node)
  {
    NodeClean(node);
    if Clean(node) { NodeKept(node); }
  }

  /** A returned document is clean at every depth, sanitising it again changes nothing, and the
      documents left unchanged are exactly the clean ones. */
  lemma DocFixpoint(input: Json)
    ensures SanitizeTiptapDoc(input).Doc? ==>
      var doc := SanitizeTiptapDoc(input).doc; CleanDoc(doc) && SanitizeTiptapDoc(doc) == Doc(doc)
    ensures SanitizeTiptapDoc(input) == Doc(input) <==> CleanDoc(input)
  {
    AllNodesClean(ContentOf(input));
    var content := SanitizeAll(ContentOf(input));
    AllNodesKept(content);
    assert CleanContainer(DocOf(content), "doc") <==> content != [];
    if CleanDoc(input) {
      AllNodesKept(input.fields["content"].items);
      assert input.fields.Keys == {"type", "content"};
      assert input.fields == DocOf(input.fields["content"].items).fields;
    }
  }

  // ─── The text of a document ────────────────────────────────────────────────

  predicate IsTextNode(node: Json) {
    HasType(node, "text") && Field(node, "text").Some? && Field(node, "text").value.Str?
  }

  /** The strings the flattener collects: every text node, whatever stands around it. */
  function TextParts(node: Json): seq<string> {
    var own := if IsTextNode(node) then [node.fields["text"].s] else [];
    if node.Obj? && "content" in node.fields && node.fields["content"].Arr?
    then own + AllTextParts(node.fields["content"].items)
    else own
  }

  function AllTextParts(nodes: seq<Json>): seq<string> {
    if nodes == [] then [] else TextParts(nodes[0]) + AllTextParts(nodes[1..])
  }

  lemma {:induction false} AllTextPartsAppend(nodes: seq<Json>, node: Json)
    ensures AllTextParts(nodes + [node]) == AllTextParts(nodes) + TextParts(node)
  {
    if nodes == [] {
      assert nodes + [node] == [node];
    } else {
      assert (nodes + [node])[1..] == nodes[1..] + [node];
      AllTextPartsAppend(nodes[1..], node);
    }
  }

  method Walk(node: Json, before: seq<string>) returns (parts: seq<string>)
    ensures parts == before + TextParts(node)
    decreases node
  {
    parts := before;
    if IsTextNode(node) {
      parts := parts + [node.fields["text"].s];
    }
    if node.Obj? && "content" in node.fields && node.fields["content"].Arr? {
      var content := node.fields["content"].items;
      ghost var own := parts;
      for i := 0 to |content|
        invariant parts == own + AllTextParts(content[..i])
      {
        AllTextPartsAppend(content[..i], content[i]);
        assert content[..i + 1] == content[..i] + [content[i]];
        parts := Walk(content[i], parts);
      }
      assert content[..|content|] == content;
    }
  }

  /** The text nodes of the input that can be reached through allowed container nodes only. */
  function ReachableText(node: Json): seq<string> {
    if IsTextNode(node) then [node.fields["text"].s]
    else if (exists t :: t in CONTAINER_NODE_TYPES && HasType(node, t))
         && "content" in node.fields && node.fields["content"].Arr?
    then AllReachableText(node.fields["content"].items)
    else []
  }

  function AllReachableText(nodes: seq<Json>): seq<string> {
    if nodes == [] then [] else ReachableText(nodes[0]) + AllReachableText(nodes[1..])
  }

  lemma {:induction false} NodeText(node: Json)
    ensures ReachableText(node)
         == if SanitizeNode(node).Some? then TextParts(SanitizeNode(node).value) else []
    decreases node
  {
    var kind := Field(node, "type");
    if kind.Some? && kind.value.Str? {
      var t := kind.value.s;
      if t in CONTAINER_NODE_TYPES {
        assert HasType(node, t);
        var out := SanitizeNode(node).value;
        assert out.fields["type"] == Str(t) && !IsTextNode(out);
        if "content" in node.fields && node.fields["content"].Arr? {
          AllNodeText(node.fields["content"].items);
        }
      }
    }
  }

  lemma {:induction false} AllNodeText(nodes: seq<Json>)
    ensures AllTextParts(SanitizeAll(nodes)) == AllReachableText(nodes)
    decreases nodes
  {
    if nodes != [] {
      NodeText(nodes[0]);
      AllNodeText(nodes[1..]);
      var rest := SanitizeAll(nodes[1..]);
      if SanitizeNode(nodes[0]).Some? {
        assert ([SanitizeNode(nodes[0]).value] + rest)[1..] == rest;
      } else {
        assert [] + rest == rest;
      }
    }
  }

  /** Sanitising keeps text exactly: the parts of the result are, in order, the text nodes of the input
      reachable through allowed containers. */
  lemma DocText(input: Json)
    requires SanitizeTiptapDoc(input).Doc?
    ensures TextParts(SanitizeTiptapDoc(input).doc) == AllReachableText(ContentOf(input))
  {
    AllNodeText(ContentOf(input));
  }

  // ─── One line of plain text ────────────────────────────────────────────────

  function SkipSpaces(s: string): (r: string)
    ensures |r| <= |s|
    ensures r != "" ==> !IsSpace(r[0])
  {
    if s != "" && IsSpace(s[0]) then SkipSpaces(s[1..]) else s
  }

  /** Every run of white space becomes one space. */
  function Collapse(s: string): string
    decreases |s|
  {
    if s == "" then ""
    else if IsSpace(s[0]) then " " + Collapse(SkipSpaces(s[1..]))
    else [s[0]] + Collapse(s[1..])
  }

  method TiptapToPlainText(doc: Json) returns (text: string)
    ensures text == PlainText(doc)
  {
    var parts := Walk(doc, []);
    assert [] + TextParts(doc) == TextParts(doc);
    text := Trim(Collapse(Join(parts, ' ')));
  }

  function PlainText(doc: Json): string {
    Trim(Collapse(Join(TextParts(doc), ' ')))
  }

  /** The maximal runs of characters that are not white space; `word` is the run being read. */
  function WordsFrom(s: string, word: string): seq<string> {
    if s == "" then (if word == "" then [] else [word])
    else if IsSpace(s[0]) then (if word == "" then [] else [word]) + WordsFrom(s[1..], "")
    else WordsFrom(s[1..], word + [s[0]])
  }

  function Words(s: string): seq<string> {
    WordsFrom(s, "")
  }

  function AllWords(parts: seq<string>): seq<string> {
    if parts == [] then [] else Words(parts[0]) + AllWords(parts[1..])
  }

  lemma {:induction false} WordsAcrossSpace(s: string, rest: string, word: string)
    ensures WordsFrom(s + [' '] + rest, word) == WordsFrom(s, word) + Words(rest)
  {
    var whole := s + [' '] + rest;
    if s == "" {
      assert whole[1..] == rest;
    } else {
      assert whole[1..] == s[1..] + [' '] + rest;
      WordsAcrossSpace(s[1..], rest, if IsSpace(s[0]) then "" else word + [s[0]]);
    }
  }

  lemma {:induction false} WordsOfJoin(parts: seq<string>)
    ensures Words(Join(parts, ' ')) == AllWords(parts)
  {
    if |parts| == 1 {
      assert AllWords(parts[1..]) == [];
    } else if parts != [] {
      WordsOfJoin(parts[1..]);
      WordsAcrossSpace(parts[0], Join(parts[1..], ' '), "");
    }
  }

  lemma {:induction false} WordsSkipSpaces(s: string)
    ensures Words(SkipSpaces(s)) == Words(s)
  {
    if s != "" && IsSpace(s[0]) {
      WordsSkipSpaces(s[1..]);
    }
  }

  lemma {:induction false} WordsOfCollapse(s: string, word: string)
    ensures WordsFrom(Collapse(s), word) == WordsFrom(s, word)
    decreases |s|
  {
    if s != "" {
      if IsSpace(s[0]) {
        var rest := SkipSpaces(s[1..]);
        assert (" " + Collapse(rest))[1..] == Collapse(rest);
        WordsOfCollapse(rest, "");
        WordsSkipSpaces(s[1..]);
      } else {
        assert ([s[0]] + Collapse(s[1..]))[1..] == Collapse(s[1..]);
        WordsOfCollapse(s[1..], word + [s[0]]);
      }
    }
  }

  lemma {:induction false} WordsOfTrimStart(s: string)
    ensures Words(TrimStart(s)) == Words(s)
  {
    if s != "" && IsSpace(s[0]) {
      WordsOfTrimStart(s[1..]);
    }
  }

  lemma {:induction false} WordsDropLastSpace(s: string, space: char, word: string)
    requires IsSpace(space)
    ensures WordsFrom(s + [space], word) == WordsFrom(s, word)
  {
    if s == "" {
      assert s + [space] == [space];
    } else {
      assert (s + [space])[1..] == s[1..] + [space];
      WordsDropLastSpace(s[1..], space, if IsSpace(s[0]) then "" else word + [s[0]]);
    }
  }

  lemma {:induction false} WordsOfTrimEnd(s: string)
    ensures Words(TrimEnd(s)) == Words(s)
  {
    if s != "" && IsSpace(s[|s| - 1]) {
      WordsOfTrimEnd(s[..|s| - 1]);
      WordsDropLastSpace(s[..|s| - 1], s[|s| - 1], "");
      assert s == s[..|s| - 1] + [s[|s| - 1]];
    }
  }

  /** White space appears only as single spaces between other characters. */
  predicate SingleSpaced(s: string) {
    forall i :: 0 <= i < |s| && IsSpace(s[i]) ==> s[i] == ' ' && (i + 1 < |s| ==> !IsSpace(s[i + 1]))
  }

  lemma {:induction false} CollapseSingleSpaced(s: string)
    ensures SingleSpaced(Collapse(s))
    ensures Collapse(s) != "" && s != "" && !IsSpace(s[0]) ==> !IsSpace(Collapse(s)[0])
    decreases |s|
  {
    if s != "" {
      CollapseSingleSpaced(if IsSpace(s[0]) then SkipSpaces(s[1..]) else s[1..]);
    }
  }

  lemma {:induction false} SingleSpacedTrimStart(s: string)
    requires SingleSpaced(s)
    ensures SingleSpaced(TrimStart(s))
  {
    if s != "" && IsSpace(s[0]) {
      SingleSpacedTrimStart(s[1..]);
    }
  }

  lemma {:induction false} SingleSpacedTrimEnd(s: string)
    requires SingleSpaced(s)
    ensures SingleSpaced(TrimEnd(s))
  {
    if s != "" && IsSpace(s[|s| - 1]) {
      SingleSpacedTrimEnd(s[..|s| - 1]);
    }
  }

  /** The plain text of a document is the words of its text nodes, in order, single-spaced, with no white
      space at either end. */
  lemma {:induction false} PlainTextIsTheWords(doc: Json)
    ensures Words(PlainText(doc)) == AllWords(TextParts(doc))
    ensures SingleSpaced(PlainText(doc)) && Trimmed(PlainText(doc))
  {
    var joined := Join(TextParts(doc), ' ');
    var collapsed := Collapse(joined);
    WordsOfJoin(TextParts(doc));
    WordsOfCollapse(joined, "");
    WordsOfTrimStart(collapsed);
    WordsOfTrimEnd(TrimStart(collapsed));
    CollapseSingleSpaced(joined);
    SingleSpacedTrimStart(collapsed);
    SingleSpacedTrimEnd(TrimStart(collapsed));
    TrimTrims(collapsed);
  }
}
