/** `applyOverrides` as it runs: a deep copy of the catalog object, then writes into that copy through the
    nested objects, leaving the cached original alone. */
module MessageObjects {
  import opened Text
  import opened Messages

  datatype Field = StringField(text: string) | ObjectField(obj: MessageObject)
  datatype Slot = Slot(key: string, field: Field)

  /** One JavaScript object of a catalog: its own properties, in order. */
  class MessageObject {
    var slots: seq<Slot>
    ghost var Repr: set<MessageObject>

    /** The objects reached from here form a tree inside `Repr`. */
    ghost predicate Valid()
      reads this, Repr
      decreases Repr
      ensures Valid() ==> this in Repr
    {
      && this in Repr
      && (forall i :: 0 <= i < |slots| && slots[i].field.ObjectField? ==> ValidChild(slots[i].field.obj))
      && (forall i, j :: 0 <= i < j < |slots| && slots[i].field.ObjectField? && slots[j].field.ObjectField? ==>
            slots[i].field.obj.Repr !! slots[j].field.obj.Repr)
    }

    ghost predicate ValidChild(child: MessageObject)
      requires this in Repr
      reads this, Repr
      decreases Repr, 0
    {
      child in Repr && child.Repr <= Repr && this !in child.Repr && child.Valid()
    }

    /** The catalog value the tree of objects stands for. */
    ghost function Model(): Catalog
      requires Valid()
      reads this, Repr
      decreases Repr
    {
      seq(|slots|, i requires 0 <= i < |slots| && Valid() reads this, Repr =>
        Entry(slots[i].key,
              match slots[i].field
              case StringField(text) => Leaf(text)
              case ObjectField(obj) => assert ValidChild(obj); Group(obj.Model())))
    }

    constructor ()
      ensures Valid() && fresh(Repr) && slots == [] && Repr == {this}
    {
      slots := [];
      Repr := {this};
    }

    /** The position of a property, or the number of properties when there is none of that name. */
    method Find(key: string) returns (i: nat)
      ensures i <= |slots|
      ensures i < |slots| ==> slots[i].key == key
      ensures forall j :: 0 <= j < i ==> slots[j].key != key
    {
      i := 0;
      while i < |slots| && slots[i].key != key
        invariant i <= |slots|
        invariant forall j :: 0 <= j < i ==> slots[j].key != key
      {
        i := i + 1;
      }
    }

    /** Writes one slot, or a new one at the end. */
    method WriteSlot(i: nat, slot: Slot)
      requires Valid() && i <= |slots|
      requires slot.field.ObjectField? ==> slot.field.obj.Valid() && slot.field.obj.Repr !! Repr
      modifies this
      ensures Valid() && Repr == old(Repr) + ReprOf(slot.field)
      ensures slots == if i < |old(slots)| then old(slots)[i := slot] else old(slots) + [slot]
      ensures slot.field.ObjectField? ==> ValidChild(slot.field.obj)
      ensures var entry := Entry(slot.key, ModelOf(slot.field));
        Model() == if i < |old(slots)| then old(Model())[i := entry] else old(Model()) + [entry]
    {
      ghost var before := slots;
      slots := if i < |slots| then slots[i := slot] else slots + [slot];
      Repr := Repr + ReprOf(slot.field);
      forall j | 0 <= j < |slots| && slots[j].field.ObjectField?
        ensures ValidChild(slots[j].field.obj)
      {
        if j != i {
          assert slots[j] == before[j];
        }
      }
    }

    /** Assigns a property: a string, or an object that shares nothing with this tree. */
    method Assign(key: string, field: Field) returns (i: nat)
      requires Valid()
      requires field.ObjectField? ==> field.obj.Valid() && field.obj.Repr !! Repr
      modifies this
      ensures Valid() && Repr == old(Repr) + ReprOf(field)
      ensures i < |slots| && slots[i] == Slot(key, field)
      ensures field.ObjectField? ==> ValidChild(field.obj)
      ensures Model() == Put(old(Model()), key, ModelOf(field))
      ensures AtOrPastEnd(old(Model()), key, i)
    {
      i := Find(key);
      PutAt(Model(), key, ModelOf(field), i);
      WriteSlot(i, Slot(key, field));
    }

    /** Assigns an empty object to a property. */
    method PutEmpty(key: string) returns (i: nat)
      requires Valid()
      modifies this
      ensures Valid() && fresh(Repr - old(Repr)) && old(Repr) <= Repr
      ensures i < |slots| && slots[i].key == key && slots[i].field.ObjectField? && ValidChild(slots[i].field.obj)
      ensures AtOrPastEnd(old(Model()), key, i)
      ensures slots[i].field.obj.Model() == []
      ensures Model() == Put(old(Model()), key, Group([]))
    {
      var child := new MessageObject();
      assert child.Model() == [];
      i := Assign(key, ObjectField(child));
    }

    /** The position of an object property, after putting an empty object there if there was none. */
    method OpenChild(key: string) returns (i: nat)
      requires Valid()
      modifies this
      ensures Valid() && fresh(Repr - old(Repr)) && old(Repr) <= Repr
      ensures i < |slots| && slots[i].key == key && slots[i].field.ObjectField? && ValidChild(slots[i].field.obj)
      ensures AtOrPastEnd(old(Model()), key, i)
      ensures slots[i].field.obj.Model() == Inner(old(Model()), key)
      ensures Model() == Put(old(Model()), key, Group(slots[i].field.obj.Model()))
    {
      i := Find(key);
      GetAt(Model(), key, i);
      if i >= |slots| || !slots[i].field.ObjectField? {
        i := PutEmpty(key);
      } else {
        PutAt(Model(), key, Group(slots[i].field.obj.Model()), i);
      }
    }

    /** Writes below one object property; everything else in this object keeps its value. */
    method WriteBelow(i: nat, ghost inner: Catalog, parts: Path, text: string)
      requires Valid() && parts != []
      requires i < |slots| && slots[i].field.ObjectField? && ValidChild(slots[i].field.obj)
      requires inner == slots[i].field.obj.Model()
      modifies Repr
      ensures Valid() && fresh(Repr - old(Repr)) && old(Repr) <= Repr
      ensures slots == old(slots)
      ensures Model() == old(Model())[i := Entry(slots[i].key, Group(SetPath(inner, parts, text)))]
      decreases |parts|, 1
    {
      var next := slots[i].field.obj;
      next.WritePath(parts, text);
      Repr := Repr + next.Repr;
      forall j | 0 <= j < |slots| && slots[j].field.ObjectField?
        ensures ValidChild(slots[j].field.obj)
        ensures j != i ==> slots[j].field.obj.Model() == old(slots[j].field.obj.Model())
      {
        assert old(ValidChild(slots[j].field.obj));
      }
    }

    /** Walks the path from this object, opening each part but the last, and writes the text there. */
    method WritePath(parts: Path, text: string)
      requires Valid() && parts != []
      modifies Repr
      ensures Valid() && fresh(Repr - old(Repr)) && old(Repr) <= Repr
      ensures Model() == SetPath(old(Model()), parts, text)
      decreases |parts|, 0
    {
      if |parts| == 1 {
        var _ := Assign(parts[0], StringField(text));
      } else {
        ghost var was, inner := Model(), Inner(Model(), parts[0]);
        var i := OpenChild(parts[0]);
        WriteBelow(i, inner, parts[1..], text);
        PutAgain(was, parts[0], Group(inner), Group(SetPath(inner, parts[1..], text)), i);
      }
    }
  }

  method CopyField(field: Field) returns (copy: Field)
    requires ValidField(field)
    ensures ValidField(copy) && fresh(ReprOf(copy)) && ModelOf(copy) == ModelOf(field)
    decreases ReprOf(field), 1, 0
  {
    match field {
      case StringField(_) =>
        copy := field;
      case ObjectField(obj) =>
        var inner := DeepCopy(obj);
        copy := ObjectField(inner);
    }
  }

  /** `JSON.parse(JSON.stringify(base))`: the same catalog in objects of its own. */
  method DeepCopy(base: MessageObject) returns (copy: MessageObject)
    requires base.Valid()
    ensures copy.Valid() && fresh(copy.Repr)
    ensures copy.Model() == base.Model()
    decreases base.Repr, 0, 1
  {
    copy := new MessageObject();
    ghost var target := base.Model();
    var slots := base.slots;
    for i := 0 to |slots|
      invariant copy.Valid() && fresh(copy.Repr) && |copy.slots| == i
      invariant copy.Model() == target[..i]
    {
      assert base.slots == slots && target[i] == Entry(slots[i].key, ModelOf(slots[i].field)) by {
        assert base.Model() == target;
        assert slots[i].field.ObjectField? ==> base.ValidChild(slots[i].field.obj);
      }
      assert target[..i + 1] == target[..i] + [target[i]];
      AppendCopy(copy, slots[i], base);
    }
  }

  method AppendCopy(copy: MessageObject, slot: Slot, ghost base: MessageObject)
    requires copy.Valid() && base.Valid() && ReprOf(slot.field) <= base.Repr && copy.Repr !! base.Repr
    requires base !in ReprOf(slot.field) && ValidField(slot.field)
    modifies copy
    ensures copy.Valid() && fresh(copy.Repr - old(copy.Repr))
    ensures |copy.slots| == |old(copy.slots)| + 1
    ensures copy.Model() == old(copy.Model()) + [Entry(slot.key, old(ModelOf(slot.field)))]
    decreases base.Repr, 0, 0
  {
    var field := CopyField(slot.field);
    copy.WriteSlot(|copy.slots|, Slot(slot.key, field));
  }

  /** The overridden catalog, in objects of its own. Nothing is modified, so the cached original keeps
      every slot it had. */
  method ApplyOverrides(base: MessageObject, overrides: Flat, order: seq<string>) returns (result: MessageObject)
    requires base.Valid()
    requires forall k :: k in order ==> k in overrides
    ensures result.Valid() && fresh(result.Repr)
    ensures result.Model() == Applied(base.Model(), overrides, order)
  {
    result := DeepCopy(base);
    for i := 0 to |order|
      invariant result.Valid() && fresh(result.Repr)
      invariant result.Model() == Applied(base.Model(), overrides, order[..i])
    {
      assert order[..i + 1][..i] == order[..i];
      var parts := Split(order[i], '.');
      result.WritePath(parts, overrides[order[i]]);
    }
    assert order[..|order|] == order;
  }

  ghost function ReprOf(field: Field): set<MessageObject>
    reads if field.ObjectField? then {field.obj} else {}
  {
    if field.ObjectField? then field.obj.Repr else {}
  }

  ghost predicate ValidField(field: Field)
    reads if field.ObjectField? then {field.obj} + field.obj.Repr else {}
  {
    field.ObjectField? ==> field.obj.Valid()
  }

  ghost function ModelOf(field: Field): Value
    requires ValidField(field)
    reads if field.ObjectField? then {field.obj} + field.obj.Repr else {}
  {
    match field
    case StringField(text) => Leaf(text)
    case ObjectField(obj) => Group(obj.Model())
  }

  /** `i` is where `key` first stands in the catalog, or its end when the key is new. */
  ghost predicate AtOrPastEnd(c: Catalog, key: string, i: nat) {
    i <= |c| && (i < |c| ==> c[i].key == key) && forall j :: 0 <= j < i ==> c[j].key != key
  }

  lemma {:induction false} PutAt(c: Catalog, key: string, value: Value, i: nat)
    requires AtOrPastEnd(c, key, i)
    ensures Put(c, key, value) == if i < |c| then c[i := Entry(key, value)] else c + [Entry(key, value)]
  {
    if i > 0 {
      PutAt(c[1..], key, value, i - 1);
    }
  }

  lemma {:induction false} PutAgain(c: Catalog, key: string, first: Value, second: Value, i: nat)
    requires AtOrPastEnd(c, key, i)
    ensures i < |Put(c, key, first)| && Put(c, key, first)[i := Entry(key, second)] == Put(c, key, second)
  {
    PutAt(c, key, first, i);
    PutAt(c, key, second, i);
  }

  lemma {:induction false} GetAt(c: Catalog, key: string, i: nat)
    requires AtOrPastEnd(c, key, i)
    ensures Get(c, key) == if i < |c| then Some(c[i].value) else None
  {
    if i > 0 {
      GetAt(c[1..], key, i - 1);
    }
  }
}
