/** The nested message catalogs of the content editor: flattening to dotted keys, overriding by dotted
    keys, and looking keys up by text. */
module Messages {
  import opened Text

  /** A catalog entry's value. An object is its entries in order, each key once. */
  datatype Value = Leaf(text: string) | Group(entries: Catalog)
  datatype Entry = Entry(key: string, value: Value)
  type Catalog = seq<Entry>
  type Flat = map<string, string>
  type Path = seq<string>

  function Get(c: Catalog, key: string): Option<Value> {
    if c == [] then None else if c[0].key == key then Some(c[0].value) else Get(c[1..], key)
  }

  /** Assigning a property: in place when the key is there, at the end when it is new. */
  function Put(c: Catalog, key: string, value: Value): Catalog {
    if c == [] then [Entry(key, value)]
    else if c[0].key == key then [Entry(key, value)] + c[1..]
    else [c[0]] + Put(c[1..], key, value)
  }

  lemma {:induction false} GetPut(c: Catalog, key: string, value: Value, k: string)
    ensures Get(Put(c, key, value), k) == if k == key then Some(value) else Get(c, k)
  {
    if c != [] && c[0].key != key {
      GetPut(c[1..], key, value, k);
      assert ([c[0]] + Put(c[1..], key, value))[1..] == Put(c[1..], key, value);
    } else if c != [] {
      assert ([Entry(key, value)] + c[1..])[1..] == c[1..];
    }
  }

  function Keys(c: Catalog): seq<string> {
    if c == [] then [] else [c[0].key] + Keys(c[1..])
  }

  /** Assigning moves no key. */
  lemma {:induction false} PutKeepsKeys(c: Catalog, key: string, value: Value)
    ensures Keys(Put(c, key, value)) == Keys(c) + if Get(c, key).Some? then [] else [key]
  {
    if c != [] && c[0].key != key {
      PutKeepsKeys(c[1..], key, value);
      assert ([c[0]] + Put(c[1..], key, value))[1..] == Put(c[1..], key, value);
    } else if c != [] {
      assert ([Entry(key, value)] + c[1..])[1..] == c[1..];
    }
  }

  predicate Distinct(c: Catalog) {
    c == [] || (Get(c[1..], c[0].key).None? && Distinct(c[1..]))
  }

  predicate GoodKey(key: string) {
    key != "" && Free(key, '.')
  }

  /** Every key, at every depth, is non-empty and dot-free, and no object repeats one. */
  predicate WellFormed(c: Catalog) {
    Distinct(c) && AllGood(c)
  }

  predicate AllGood(c: Catalog) {
    c == [] || (GoodKey(c[0].key) && GoodValue(c[0].value) && AllGood(c[1..]))
  }

  predicate GoodValue(v: Value) {
    v.Group? ==> Distinct(v.entries) && AllGood(v.entries)
  }

  lemma {:induction false} GoodGet(c: Catalog, key: string)
    requires AllGood(c)
    ensures Get(c, key).Some? ==> GoodKey(key) && GoodValue(Get(c, key).value)
  {
    if c != [] { GoodGet(c[1..], key); }
  }

  // ─── Flattening ────────────────────────────────────────────────────────────

  function Dotted(prefix: string, key: string): string {
    if prefix != "" then prefix + "." + key else key
  }

  function Flatten(c: Catalog, prefix: string): Flat
    decreases c
  {
    FlattenOnto(map[], c, prefix)
  }

  /** Later assignments to the same dotted key win. */
  function FlattenOnto(out: Flat, c: Catalog, prefix: string): Flat
    decreases c
  {
    if c == [] then out
    else
      var key := Dotted(prefix, c[0].key);
      var out' := match c[0].value
        case Leaf(text) => out[key := text]
        case Group(entries) => out + FlattenOnto(map[], entries, key);
      FlattenOnto(out', c[1..], prefix)
  }

  method FlattenMessages(c: Catalog, prefix: string) returns (out: Flat)
    ensures out == Flatten(c, prefix)
    decreases c
  {
    out := map[];
    var i := 0;
    while i < |c|
      invariant i <= |c|
      invariant FlattenOnto(out, c[i..], prefix) == Flatten(c, prefix)
    {
      assert c[i..][1..] == c[i + 1..];
      var key := Dotted(prefix, c[i].key);
      match c[i].value {
        case Leaf(text) =>
          out := out[key := text];
        case Group(entries) =>
          var inner := FlattenMessages(entries, key);
          out := out + inner;
      }
      i := i + 1;
    }
  }

  /** The text at a path of keys. */
  function TextAt(c: Catalog, path: Path): Option<string>
    decreases |path|
  {
    if path == [] then None
    else match Get(c, path[0])
      case None => None
      case Some(Leaf(text)) => if |path| == 1 then Some(text) else None
      case Some(Group(entries)) => TextAt(entries, path[1..])
  }

  function Look(m: Flat, key: string): Option<string> {
    if key in m then Some(m[key]) else None
  }

  predicate GoodPath(path: Path) {
    path != [] && forall i :: 0 <= i < |path| ==> GoodKey(path[i])
  }

  function KeyOf(prefix: string, path: Path): string {
    Dotted(prefix, Join(path, '.'))
  }

  lemma {:induction false} GoodPathFree(path: Path)
    requires GoodPath(path)
    ensures AllFree(path, '.') && Split(Join(path, '.'), '.') == path && Join(path, '.') != ""
  {
    SplitJoin(path, '.');
    assert path[0] != "";
  }

  lemma DottedInjective(prefix: string, a: string, b: string)
    requires Dotted(prefix, a) == Dotted(prefix, b)
    ensures a == b
  {
    if prefix != "" {
      var n := |prefix| + 1;
      assert a == Dotted(prefix, a)[n..];
      assert b == Dotted(prefix, b)[n..];
    }
  }

  lemma KeyOfInjective(prefix: string, a: Path, b: Path)
    requires GoodPath(a) && GoodPath(b) && KeyOf(prefix, a) == KeyOf(prefix, b)
    ensures a == b
  {
    DottedInjective(prefix, Join(a, '.'), Join(b, '.'));
    GoodPathFree(a);
    GoodPathFree(b);
  }

  /** Descending one key moves it from the path into the prefix. */
  lemma KeyOfStep(prefix: string, path: Path)
    requires GoodPath(path) && |path| > 1
    ensures GoodPath(path[1..]) && KeyOf(prefix, path) == KeyOf(Dotted(prefix, path[0]), path[1..])
  {
    assert Dotted(prefix, path[0]) != "" by { assert path[0] != ""; }
    var rest := Join(path[1..], '.');
    assert Join(path, '.') == path[0] + "." + rest;
    if prefix != "" {
      assert prefix + "." + (path[0] + "." + rest) == prefix + "." + path[0] + "." + rest;
    }
  }

  /** Every key of a flattened catalog spells a path of good keys. */
  lemma {:induction false} FlattenKeys(out: Flat, c: Catalog, prefix: string, key: string) returns (path: Path)
    requires AllGood(c) && key in FlattenOnto(out, c, prefix) && key !in out
    ensures GoodPath(path) && key == KeyOf(prefix, path)
    ensures Get(c, path[0]).Some?
    decreases c
  {
    var first := c[0].key;
    var dotted := Dotted(prefix, first);
    match c[0].value {
      case Leaf(text) =>
        if key == dotted {
          path := [first];
        } else {
          path := FlattenKeys(out[dotted := text], c[1..], prefix, key);
        }
      case Group(entries) =>
        var inner := FlattenOnto(map[], entries, dotted);
        if key in inner {
          var rest := FlattenKeys(map[], entries, dotted, key);
          path := [first] + rest;
          assert path[1..] == rest;
          KeyOfStep(prefix, path);
        } else {
          path := FlattenKeys(out + inner, c[1..], prefix, key);
        }
    }
  }

  lemma {:induction false} InnerLook(entries: Catalog, prefix: string, first: string, path: Path)
    requires GoodKey(first) && AllGood(entries) && GoodPath(path) && (path[0] != first || |path| == 1)
    ensures KeyOf(prefix, path) !in FlattenOnto(map[], entries, Dotted(prefix, first))
  {
    var key, dotted := KeyOf(prefix, path), Dotted(prefix, first);
    if key in FlattenOnto(map[], entries, dotted) {
      var rest := FlattenKeys(map[], entries, dotted, key);
      var other := [first] + rest;
      assert other[1..] == rest;
      KeyOfStep(prefix, other);
      KeyOfInjective(prefix, path, other);
      assert false;
    }
  }

  lemma {:induction false} GetNone(c: Catalog, key: string, path: Path)
    requires path != [] && path[0] == key && Get(c, key).None?
    ensures TextAt(c, path).None?
  {
  }

  lemma {:induction false} FlattenLook(out: Flat, c: Catalog, prefix: string, path: Path)
    requires WellFormed(c) && GoodPath(path)
    ensures Look(FlattenOnto(out, c, prefix), KeyOf(prefix, path))
         == if TextAt(c, path).Some? then TextAt(c, path) else Look(out, KeyOf(prefix, path))
    decreases c
  {
    if c == [] {
      GetNone(c, path[0], path);
    } else {
      var first, key := c[0].key, KeyOf(prefix, path);
      var dotted := Dotted(prefix, first);
      if first == path[0] { GetNone(c[1..], first, path); }
      match c[0].value {
        case Leaf(text) =>
          FlattenLook(out[dotted := text], c[1..], prefix, path);
          assert dotted == KeyOf(prefix, [first]);
          if key == dotted { KeyOfInjective(prefix, path, [first]); }
        case Group(entries) =>
          var inner := FlattenOnto(map[], entries, dotted);
          FlattenLook(out + inner, c[1..], prefix, path);
          assert GoodValue(c[0].value) && c[0].value == Group(entries) && WellFormed(entries);
          if path[0] == first && |path| > 1 {
            KeyOfStep(prefix, path);
            FlattenLook(map[], entries, dotted, path[1..]);
          } else {
            InnerLook(entries, prefix, first, path);
          }
      }
    }
  }

  /** The flattened catalog at a key is the text at the path the key spells. */
  lemma {:induction false} FlattenIsTextAt(c: Catalog, key: string)
    requires WellFormed(c)
    ensures Look(Flatten(c, ""), key)
         == if GoodPath(Split(key, '.')) then TextAt(c, Split(key, '.')) else None
  {
    JoinSplit(key, '.');
    if GoodPath(Split(key, '.')) {
      FlattenLook(map[], c, "", Split(key, '.'));
    } else if key in Flatten(c, "") {
      var path := FlattenKeys(map[], c, "", key);
      GoodPathFree(path);
      assert false;
    }
  }

  // ─── Overriding ────────────────────────────────────────────────────────────

  /** The object under a key, or the empty one that replaces anything else there. */
  function Inner(c: Catalog, key: string): Catalog {
    match Get(c, key)
    case Some(Group(entries)) => entries
    case _ => []
  }

  function SetPath(c: Catalog, path: Path, text: string): Catalog
    requires path != []
    decreases |path|
  {
    if |path| == 1 then Put(c, path[0], Leaf(text))
    else Put(c, path[0], Group(SetPath(Inner(c, path[0]), path[1..], text)))
  }

  /** The overrides as `Object.entries` lists them: every key once, in some order. */
  ghost predicate Lists(order: seq<string>, overrides: Flat) {
    && (forall i, j :: 0 <= i < j < |order| ==> order[i] != order[j])
    && (forall k :: k in order <==> k in overrides)
  }

  function Applied(base: Catalog, overrides: Flat, order: seq<string>): Catalog
    requires forall k :: k in order ==> k in overrides
  {
    if order == [] then base
    else
      var last := order[|order| - 1];
      SetPath(Applied(base, overrides, order[..|order| - 1]), Split(last, '.'), overrides[last])
  }

  predicate Related(p: Path, q: Path) {
    p <= q || q <= p
  }

  lemma {:induction false} SetPathText(c: Catalog, path: Path, text: string, q: Path)
    requires path != [] && q != []
    ensures TextAt(SetPath(c, path, text), q)
         == if q == path then Some(text) else if Related(path, q) then None else TextAt(c, q)
    decreases |path|
  {
    if |path| == 1 {
      GetPut(c, path[0], Leaf(text), q[0]);
      assert path[0] == q[0] ==> path <= q;
    } else {
      var inner := Inner(c, path[0]);
      var set' := SetPath(inner, path[1..], text);
      GetPut(c, path[0], Group(set'), q[0]);
      if path[0] == q[0] {
        assert path == [path[0]] + path[1..] && q == [q[0]] + q[1..];
        if |q| > 1 {
          SetPathText(inner, path[1..], text, q[1..]);
        } else {
          assert q <= path && q[1..] == [];
        }
        assert TextAt(c, q) == if |q| > 1 then TextAt(inner, q[1..]) else TextAt(c, q);
      } else {
        assert !Related(path, q);
      }
    }
  }

  lemma {:induction false} PutWellFormed(c: Catalog, key: string, value: Value)
    requires WellFormed(c) && GoodKey(key) && GoodValue(value)
    ensures WellFormed(Put(c, key, value))
  {
    if c != [] && c[0].key != key {
      PutWellFormed(c[1..], key, value);
      GetPut(c[1..], key, value, c[0].key);
      assert Put(c, key, value)[1..] == Put(c[1..], key, value);
    } else if c != [] {
      assert Put(c, key, value)[1..] == c[1..];
    }
  }

  lemma {:induction false} SetPathWellFormed(c: Catalog, path: Path, text: string)
    requires WellFormed(c) && GoodPath(path)
    ensures WellFormed(SetPath(c, path, text))
    decreases |path|
  {
    if |path| == 1 {
      PutWellFormed(c, path[0], Leaf(text));
    } else {
      GoodGet(c, path[0]);
      var inner := Inner(c, path[0]);
      SetPathWellFormed(inner, path[1..], text);
      PutWellFormed(c, path[0], Group(SetPath(inner, path[1..], text)));
    }
  }

  // ─── The override law ──────────────────────────────────────────────────────

  /** `key` lies under `group`: it continues it after a dot. */
  predicate Under(key: string, group: string) {
    group + "." <= key
  }

  predicate Clash(a: string, b: string) {
    a != b && (Under(a, b) || Under(b, a))
  }

  /** Override keys spell good paths. */
  predicate Spelled(overrides: Flat) {
    forall k :: k in overrides ==> GoodPath(Split(k, '.'))
  }

  /** No override key lies under another. */
  predicate PrefixFree(overrides: Flat) {
    forall a, b :: a in overrides && b in overrides ==> !Clash(a, b)
  }

  predicate GoodOverrides(overrides: Flat) {
    Spelled(overrides) && PrefixFree(overrides)
  }

  /** `flat` without the keys that extend or are extended by an override key, updated with the
      overrides. */
  ghost function Overridden(flat: Flat, overrides: Flat): Flat {
    (map k | k in flat && (forall o :: o in overrides ==> !Clash(k, o)) :: flat[k]) + overrides
  }

  lemma {:induction false} JoinThen(path: Path, rest: string)
    requires |path| > 1
    ensures Join(path, '.') + "." + rest == path[0] + "." + (Join(path[1..], '.') + "." + rest)
  {
  }

  lemma HeadFirst(path: Path, more: Path)
    requires path != []
    ensures [path[0]] + (path[1..] + more) == path + more
  {
  }

  lemma {:induction false} SplitUnder(path: Path, rest: string)
    requires path != [] && AllFree(path, '.')
    ensures Split(Join(path, '.') + "." + rest, '.') == path + Split(rest, '.')
  {
    if |path| == 1 {
      SplitHead(path[0], rest, '.');
    } else {
      SplitUnder(path[1..], rest);
      JoinThen(path, rest);
      SplitHead(path[0], Join(path[1..], '.') + "." + rest, '.');
      HeadFirst(path, Split(rest, '.'));
    }
  }

  lemma {:induction false} JoinUnder(path: Path, more: Path)
    requires path != [] && more != []
    ensures Join(path + more, '.') == Join(path, '.') + "." + Join(more, '.')
  {
    if |path| == 1 {
      assert (path + more)[1..] == more;
    } else {
      assert (path + more)[1..] == path[1..] + more;
      JoinUnder(path[1..], more);
    }
  }

  lemma {:induction false} UnderSplits(key: string, group: string)
    requires Under(key, group)
    ensures Split(group, '.') <= Split(key, '.')
  {
    var rest := key[|group| + 1..];
    assert key == group + "." + rest;
    JoinSplit(group, '.');
    SplitUnder(Split(group, '.'), rest);
  }

  lemma {:induction false} SplitsUnder(key: string, group: string)
    requires Split(group, '.') <= Split(key, '.') && key != group
    ensures Under(key, group)
  {
    var p, q := Split(group, '.'), Split(key, '.');
    JoinSplit(group, '.');
    JoinSplit(key, '.');
    var more := q[|p|..];
    assert q == p + more;
    assert more == [] ==> p == q;
    JoinUnder(p, more);
  }

  /** A dotted key lies under another exactly when its path properly extends the other's. */
  lemma {:induction false} UnderIsPrefix(key: string, group: string)
    ensures Under(key, group) <==> Split(group, '.') <= Split(key, '.') && key != group
  {
    if Under(key, group) {
      UnderSplits(key, group);
    } else if Split(group, '.') <= Split(key, '.') && key != group {
      SplitsUnder(key, group);
    }
  }

  lemma {:induction false} ClashIsRelated(a: string, b: string)
    ensures Clash(a, b) <==> a != b && Related(Split(a, '.'), Split(b, '.'))
  {
    UnderIsPrefix(a, b);
    UnderIsPrefix(b, a);
  }

  lemma {:induction false} SplitInjective(a: string, b: string)
    ensures Split(a, '.') == Split(b, '.') ==> a == b
  {
    JoinSplit(a, '.');
    JoinSplit(b, '.');
  }

  /** What the applied overrides leave at one key. */
  ghost function Expected(flat: Option<string>, overrides: Flat, order: seq<string>, key: string): Option<string>
    requires forall k :: k in order ==> k in overrides
  {
    if key in order then Some(overrides[key])
    else if exists o :: o in order && Clash(key, o) then None
    else flat
  }

  lemma {:induction false} AppliedText(base: Catalog, overrides: Flat, order: seq<string>, key: string)
    requires WellFormed(base) && GoodOverrides(overrides)
    requires forall k :: k in order ==> k in overrides
    ensures WellFormed(Applied(base, overrides, order))
    ensures TextAt(Applied(base, overrides, order), Split(key, '.'))
         == Expected(TextAt(base, Split(key, '.')), overrides, order, key)
    decreases |order|
  {
    if order != [] {
      var last, before := order[|order| - 1], order[..|order| - 1];
      var c := Applied(base, overrides, before);
      assert last in order;
      assert order == before + [last];
      AppliedText(base, overrides, before, key);
      SetPathWellFormed(c, Split(last, '.'), overrides[last]);
      SetPathText(c, Split(last, '.'), overrides[last], Split(key, '.'));
      ClashIsRelated(key, last);
      SplitInjective(key, last);
      if key in before {
        assert key in overrides && last in overrides;
        assert !Clash(key, last);
      }
    }
  }

  /** The override law: flattening a catalog with overrides applied, in whatever order they are listed,
      is the flattened base without the clashing keys, updated with the overrides. */
  lemma {:induction false} OverrideLaw(base: Catalog, overrides: Flat, order: seq<string>)
    requires WellFormed(base) && GoodOverrides(overrides) && Lists(order, overrides)
    ensures Flatten(Applied(base, overrides, order), "") == Overridden(Flatten(base, ""), overrides)
  {
    var result := Flatten(Applied(base, overrides, order), "");
    var flat := Flatten(base, "");
    var expected := Overridden(flat, overrides);
    forall key
      ensures Look(result, key) == Look(expected, key)
    {
      AppliedText(base, overrides, order, key);
      FlattenIsTextAt(Applied(base, overrides, order), key);
      FlattenIsTextAt(base, key);
    }
    assert forall key :: key in result <==> Look(result, key).Some?;
    assert forall key :: key in expected <==> Look(expected, key).Some?;
  }

  // ─── When the order matters ────────────────────────────────────────────────

  lemma {:induction false} AppliedWellFormed(base: Catalog, overrides: Flat, order: seq<string>)
    requires WellFormed(base) && Spelled(overrides) && forall k :: k in order ==> k in overrides
    ensures WellFormed(Applied(base, overrides, order))
    decreases |order|
  {
    if order != [] {
      var last, before := order[|order| - 1], order[..|order| - 1];
      assert last in order && order == before + [last];
      AppliedWellFormed(base, overrides, before);
      SetPathWellFormed(Applied(base, overrides, before), Split(last, '.'), overrides[last]);
    }
  }

  /** The override applied last is there, and nothing that clashes with it is. */
  lemma {:induction false} LastWins(base: Catalog, overrides: Flat, order: seq<string>, key: string)
    requires WellFormed(base) && Spelled(overrides) && order != [] && forall k :: k in order ==> k in overrides
    ensures var last := order[|order| - 1];
      && last in overrides
      && (key == last ==> Look(Flatten(Applied(base, overrides, order), ""), key) == Some(overrides[key]))
      && (key in overrides && Clash(key, last) ==> key !in Flatten(Applied(base, overrides, order), ""))
  {
    var last, before := order[|order| - 1], order[..|order| - 1];
    assert last in order && order == before + [last];
    AppliedWellFormed(base, overrides, order);
    SetPathText(Applied(base, overrides, before), Split(last, '.'), overrides[last], Split(key, '.'));
    ClashIsRelated(key, last);
    SplitInjective(key, last);
    FlattenIsTextAt(Applied(base, overrides, order), key);
  }

  predicate EndsIn(order: seq<string>, key: string) {
    order != [] && order[|order| - 1] == key
  }

  /** Two listings that end in two clashing keys never agree, whatever the base and the other overrides. */
  lemma {:induction false} ClashingOrdersDiffer(
    base: Catalog, overrides: Flat, one: seq<string>, two: seq<string>, a: string, b: string)
    requires WellFormed(base) && Spelled(overrides) && Lists(one, overrides) && Lists(two, overrides)
    requires EndsIn(one, a) && EndsIn(two, b) && Clash(a, b)
    ensures Flatten(Applied(base, overrides, one), "") != Flatten(Applied(base, overrides, two), "")
  {
    LastWins(base, overrides, one, a);
    LastWins(base, overrides, two, a);
  }

  lemma {:induction false} SomeListing(overrides: Flat) returns (order: seq<string>)
    ensures Lists(order, overrides)
    decreases |overrides|
  {
    if overrides == map[] {
      order := [];
    } else {
      var k :| k in overrides;
      assert (overrides - {k}).Keys == overrides.Keys - {k};
      var rest := SomeListing(overrides - {k});
      order := rest + [k];
    }
  }

  lemma ListingThatEndsIn(overrides: Flat, key: string) returns (order: seq<string>)
    requires key in overrides
    ensures Lists(order, overrides) && EndsIn(order, key)
  {
    var rest := SomeListing(overrides - {key});
    order := rest + [key];
    assert forall i :: 0 <= i < |rest| ==> rest[i] in rest && rest[i] in (overrides - {key}).Keys;
  }

  ghost predicate OrdersAgree(base: Catalog, overrides: Flat) {
    forall one, two :: Lists(one, overrides) && Lists(two, overrides) ==>
      Flatten(Applied(base, overrides, one), "") == Flatten(Applied(base, overrides, two), "")
  }

  /** The order in which overrides are listed does not matter exactly when none lies under another. */
  lemma OrdersAgreeIffPrefixFree(base: Catalog, overrides: Flat)
    requires WellFormed(base) && Spelled(overrides)
    ensures OrdersAgree(base, overrides) <==> PrefixFree(overrides)
  {
    if PrefixFree(overrides) {
      forall one, two | Lists(one, overrides) && Lists(two, overrides)
        ensures Flatten(Applied(base, overrides, one), "") == Flatten(Applied(base, overrides, two), "")
      {
        OverrideLaw(base, overrides, one);
        OverrideLaw(base, overrides, two);
      }
    } else {
      var a, b :| a in overrides && b in overrides && Clash(a, b);
      var one := ListingThatEndsIn(overrides, a);
      var two := ListingThatEndsIn(overrides, b);
      ClashingOrdersDiffer(base, overrides, one, two, a, b);
    }
  }

  // ─── Looking keys up by text ───────────────────────────────────────────────

  type Index = map<string, seq<string>>

  /** The keys, in order, whose trimmed text is `text`. */
  function KeysWith(flat: seq<(string, string)>, text: string): seq<string> {
    if flat == [] then []
    else
      var before, (key, value) := KeysWith(flat[..|flat| - 1], text), flat[|flat| - 1];
      if Trim(value) == text then before + [key] else before
  }

  lemma {:induction false} KeysWithAre(flat: seq<(string, string)>, text: string, key: string)
    ensures key in KeysWith(flat, text) <==>
      exists i :: 0 <= i < |flat| && flat[i].0 == key && Trim(flat[i].1) == text
  {
    if flat != [] {
      var front := flat[..|flat| - 1];
      KeysWithAre(front, text, key);
      assert forall i :: 0 <= i < |front| ==> front[i] == flat[i];
    }
  }

  /** In the order of the entries, each once for every entry that holds the text. */
  lemma {:induction false} KeysWithInOrder(flat: seq<(string, string)>, more: seq<(string, string)>, text: string)
    ensures KeysWith(flat + more, text) == KeysWith(flat, text) + KeysWith(more, text)
  {
    if more != [] {
      var last := |more| - 1;
      assert (flat + more)[..|flat + more| - 1] == flat + more[..last];
      KeysWithInOrder(flat, more[..last], text);
    } else {
      assert flat + more == flat;
    }
  }

  method BuildValueIndex(flat: seq<(string, string)>) returns (index: Index)
    ensures forall text :: text in index <==> text != "" && KeysWith(flat, text) != []
    ensures forall text :: text in index ==> index[text] == KeysWith(flat, text)
  {
    index := map[];
    for i := 0 to |flat|
      invariant forall text :: text in index <==> text != "" && KeysWith(flat[..i], text) != []
      invariant forall text :: text in index ==> index[text] == KeysWith(flat[..i], text)
    {
      assert flat[..i + 1][..i] == flat[..i];
      var (key, value) := flat[i];
      var norm := Trim(value);
      if norm != "" {
        if norm in index {
          index := index[norm := index[norm] + [key]];
        } else {
          index := index[norm := [key]];
        }
      }
    }
    assert flat[..|flat|] == flat;
  }

  function FindKeysByText(index: Index, text: string): seq<string> {
    if Trim(text) in index then index[Trim(text)] else []
  }

  /** A click on a text finds exactly the keys whose text it is, white space at the ends aside; blank text
      finds nothing. */
  method ClickedKeys(flat: seq<(string, string)>, text: string) returns (keys: seq<string>)
    ensures keys == if Trim(text) == "" then [] else KeysWith(flat, Trim(text))
    ensures forall key :: key in keys <==>
      Trim(text) != "" && exists i :: 0 <= i < |flat| && flat[i].0 == key && Trim(flat[i].1) == Trim(text)
  {
    var index := BuildValueIndex(flat);
    keys := FindKeysByText(index, text);
    forall key
      ensures key in KeysWith(flat, Trim(text)) <==>
        exists i :: 0 <= i < |flat| && flat[i].0 == key && Trim(flat[i].1) == Trim(text)
    {
      KeysWithAre(flat, Trim(text), key);
    }
  }
}
