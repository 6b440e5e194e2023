/** The generator itself: recursive calls that reserve and fill one table of definitions. */
module SchemaGenerator {
  import opened Prelude
  import opened Schema

  // ----- Recursive wrappers

  /** A wrapper enters one of its own definitions, each of them a schema object. */
  predicate WrapperOk(n: Node) {
    IsWrapper(n) ==> Entry(n) in KeysOf(Inner(n)) && forall i :: 0 <= i < |Inner(n)| ==> Inner(n)[i].1.Obj?
  }

  predicate NodeOk(n: Node) { Unpointed(n) && WrapperOk(n) }

  lemma {:induction false} InnerOk(n: Node, p: Node -> bool)
    requires IsWrapper(n) && Everywhere(n, p)
    ensures forall i :: 0 <= i < |Inner(n)| ==> Everywhere(Inner(n)[i].1, p)
    ensures forall i :: 0 <= i < |Inner(n)| ==> Inner(n)[i].1 < n
  {
    var k :| 0 <= k < |n.fields| && n.fields[k] == ("$defs", FieldOf(n.fields, "$defs").value);
    assert Everywhere(n.fields[k].1, p);
    assert n.fields[k].1 < n;
  }

  // ----- What occurs in a registry

  ghost predicate Within(w: Node, n: Node) {
    || w == n
    || (n.Arr? && exists i :: 0 <= i < |n.items| && Within(w, n.items[i]))
    || (n.Obj? && exists i :: 0 <= i < |n.fields| && Within(w, n.fields[i].1))
  }

  ghost predicate ChildOf(c: Node, n: Node) {
    || (n.Arr? && exists i :: 0 <= i < |n.items| && n.items[i] == c)
    || (n.Obj? && exists i :: 0 <= i < |n.fields| && n.fields[i].1 == c)
  }

  lemma {:induction false} WithinChild(c: Node, n: Node, root: Node)
    requires Within(n, root) && ChildOf(c, n)
    ensures Within(c, root)
    decreases root
  {
    if n == root {
      if n.Arr? {
        var i :| 0 <= i < |n.items| && n.items[i] == c;
        assert Within(c, n.items[i]);
      } else {
        var i :| 0 <= i < |n.fields| && n.fields[i].1 == c;
        assert Within(c, n.fields[i].1);
      }
    } else if root.Arr? {
      var i :| 0 <= i < |root.items| && Within(n, root.items[i]);
      WithinChild(c, n, root.items[i]);
    } else {
      var i :| 0 <= i < |root.fields| && Within(n, root.fields[i].1);
      WithinChild(c, n, root.fields[i].1);
    }
  }

  lemma {:induction false} WithinHolds(w: Node, n: Node, p: Node -> bool)
    requires Within(w, n) && Everywhere(n, p)
    ensures p(w)
    decreases n
  {
    if w != n {
      if n.Arr? {
        var i :| 0 <= i < |n.items| && Within(w, n.items[i]);
        WithinHolds(w, n.items[i], p);
      } else {
        var i :| 0 <= i < |n.fields| && Within(w, n.fields[i].1);
        WithinHolds(w, n.fields[i].1, p);
      }
    }
  }

  /** The node is a registered schema, or a part of one. */
  ghost predicate Occurs(reg: Registry, n: Node) {
    exists e :: e in reg && Within(n, e.1)
  }

  /** A node of the registry that the generator accepts. */
  ghost function Known(reg: Registry): Node -> bool { (n: Node) => NodeOk(n) && Occurs(reg, n) }

  lemma {:induction false} KnownUnpointed(reg: Registry, n: Node)
    requires Everywhere(n, Known(reg))
    ensures Unpointed(n)
  {
    assert Known(reg)(n);
  }

  lemma {:induction false} PartKnown(reg: Registry, e: (string, Node), n: Node)
    requires e in reg && Within(n, e.1) && Everywhere(n, NodeOk)
    ensures Everywhere(n, Known(reg))
    decreases n
  {
    match n
    case Arr(items) =>
      forall i | 0 <= i < |items| ensures Everywhere(items[i], Known(reg)) {
        WithinChild(items[i], n, e.1);
        PartKnown(reg, e, items[i]);
      }
    case Obj(_, fields) =>
      forall i | 0 <= i < |fields| ensures Everywhere(fields[i].1, Known(reg)) {
        WithinChild(fields[i].1, n, e.1);
        PartKnown(reg, e, fields[i].1);
      }
    case _ =>
  }

  // ----- The name tables

  /** The first name of each registered object. */
  ghost predicate TagTable(reg: Registry, bySchema: map<nat, string>) {
    forall tag: nat :: FirstByTag(reg, tag) == (if tag in bySchema then Some(bySchema[tag]) else None)
  }

  /** The first name of each registered content. */
  ghost predicate ContentTable(reg: Registry, byContent: map<Json, string>) {
    forall content :: FirstByContent(reg, content) == (if content in byContent then Some(byContent[content]) else None)
  }

  lemma {:induction false} FirstTagSnoc(reg: Registry, e: (string, Node), tag: nat)
    ensures FirstByTag(reg + [e], tag) == OrElse(FirstByTag(reg, tag), if IsObject(e.1, tag) then Some(e.0) else None)
  {
    if reg != [] {
      assert (reg + [e])[1..] == reg[1..] + [e];
      FirstTagSnoc(reg[1..], e, tag);
    } else {
      assert (reg + [e])[1..] == [];
    }
  }

  lemma {:induction false} FirstContentSnoc(reg: Registry, e: (string, Node), content: Json)
    ensures FirstByContent(reg + [e], content) ==
        OrElse(FirstByContent(reg, content), if Erase(e.1) == content then Some(e.0) else None)
  {
    if reg != [] {
      assert (reg + [e])[1..] == reg[1..] + [e];
      FirstContentSnoc(reg[1..], e, content);
    } else {
      assert (reg + [e])[1..] == [];
    }
  }

  lemma {:induction false} AddTag(reg: Registry, e: (string, Node), m: map<nat, string>)
    requires e.1.Obj? && TagTable(reg, m)
    ensures TagTable(reg + [e], if e.1.tag in m then m else m[e.1.tag := e.0])
  {
    forall tag: nat { FirstTagSnoc(reg, e, tag); }
  }

  lemma {:induction false} AddContent(reg: Registry, e: (string, Node), m: map<Json, string>)
    requires ContentTable(reg, m)
    ensures ContentTable(reg + [e], if Erase(e.1) in m then m else m[Erase(e.1) := e.0])
  {
    forall content { FirstContentSnoc(reg, e, content); }
  }

  /** The loop that registers names, first come first named. */
  method BuildNames(reg: Registry) returns (bySchema: map<nat, string>, byContent: map<Json, string>)
    requires forall e :: e in reg ==> e.1.Obj?
    ensures TagTable(reg, bySchema) && ContentTable(reg, byContent)
  {
    bySchema, byContent := map[], map[];
    for n := 0 to |reg|
      invariant TagTable(reg[..n], bySchema) && ContentTable(reg[..n], byContent)
    {
      var name, schema := reg[n].0, reg[n].1;
      assert reg[n] in reg;
      var content := Erase(schema);
      assert reg[..n + 1] == reg[..n] + [reg[n]];
      AddTag(reg[..n], reg[n], bySchema);
      AddContent(reg[..n], reg[n], byContent);
      if schema.tag !in bySchema { bySchema := bySchema[schema.tag := name]; }
      if content !in byContent { byContent := byContent[content := name]; }
    }
    assert reg[..|reg|] == reg;
  }

  // ----- The table of definitions

  ghost predicate Plain(reg: Registry) {
    forall e :: e in reg ==> Everywhere(e.1, NotWrapper)
  }

  /** Names reserved and not yet filled. */
  ghost function Pending(defs: map<string, Json>): set<string> {
    set name | name in defs && defs[name] == JNull
  }

  /** A wrapper of the registry brings a definition of this name. */
  ghost predicate Brings(reg: Registry, w: Node, name: string, d: Node) {
    Occurs(reg, w) && IsWrapper(w) && (name, d) in Inner(w)
  }

  /** The schema registered under the name is a wrapper that enters another definition. */
  predicate EntersAnother(reg: Registry, name: string) {
    Find(reg, name).Some? && EntersOther(reg, Find(reg, name).value, name)
  }

  predicate EntersOther(reg: Registry, x: Node, name: string) {
    x.Obj? && LookupName(reg, x, Some(name)).None? && IsWrapper(x) && Entry(x) != name
  }

  /**
   * And only wrappers registered under the name bring a definition of it: whatever they bring is written
   * over in the end.
   */
  ghost predicate Overwritten(reg: Registry, name: string) {
    && EntersAnother(reg, name)
    && forall v, c :: Brings(reg, v, name, c) ==> LookupName(reg, v, None) == Some(name)
  }

  /** Such names, as long as they do not hold the pointer they end with. */
  ghost function Unsettled(reg: Registry, defs: map<string, Json>): set<string> {
    set name | name in defs && Overwritten(reg, name) && defs[name] != Pointer(Entry(Find(reg, name).value))
  }

  /** A call only adds names, keeps what is filled, and leaves nothing pending or unsettled that was not before. */
  ghost predicate Grows(reg: Registry, before: map<string, Json>, after: map<string, Json>) {
    && before.Keys <= after.Keys && Pending(after) <= Pending(before) && Unsettled(reg, after) <= Unsettled(reg, before)
    && forall name :: name in before && before[name] != JNull ==> after[name] == before[name]
  }

  /** Filled definitions are objects whose pointers name keys of the table, or names promised to become keys. */
  ghost predicate Linked(defs: map<string, Json>, promised: set<string>) {
    forall name :: name in defs && defs[name] != JNull ==>
        defs[name].JObj?
        && PointsInto(defs[name], defs.Keys + promised)
  }

  /** The registered schema is a wrapper that enters the very definition it is registered as. */
  predicate EntersItself(reg: Registry, n: Node, self: Option<string>) {
    n.Obj? && LookupName(reg, n, self).None? && IsWrapper(n) && self == Some(Entry(n))
  }

  /** The definition is the form of the schema registered under its name. */
  ghost predicate FromSchema(reg: Registry, name: string, j: Json) {
    && Find(reg, name).Some? && !EntersItself(reg, Find(reg, name).value, Some(name))
    && j == FormOf(reg, Find(reg, name).value, Some(name))
  }

  /** The definition is the form of one that a wrapper of the registry brings under its name. */
  ghost predicate FromWrapper(reg: Registry, name: string, j: Json) {
    exists w, d :: Brings(reg, w, name, d) && j == CyclicForm(reg, d, KeysOf(Inner(w)))
  }

  ghost predicate Named(reg: Registry, name: string) {
    Find(reg, name).Some? || exists w, d :: Brings(reg, w, name, d)
  }

  ghost predicate HasSource(reg: Registry, name: string, j: Json) {
    FromSchema(reg, name, j) || FromWrapper(reg, name, j)
  }

  /** Every name is registered or brought by a wrapper, and every filled definition comes from there. */
  ghost predicate Sourced(reg: Registry, defs: map<string, Json>) {
    forall name :: name in defs ==> Named(reg, name) && (defs[name] != JNull ==> HasSource(reg, name, defs[name]))
  }

  lemma {:induction false} Relinked(defs: map<string, Json>, promised: set<string>, name: string, j: Json)
    requires Linked(defs, promised) && (j == JNull || (j.JObj? && PointsInto(j, defs.Keys + {name} + promised)))
    ensures Linked(defs[name := j], promised)
  {
    var next := defs[name := j];
    assert next.Keys == defs.Keys + {name};
    forall n | n in next && next[n] != JNull ensures next[n].JObj? && PointsInto(next[n], next.Keys + promised) {
      if n != name { PointsIntoMore(next[n], defs.Keys + promised, next.Keys + promised); }
    }
  }

  lemma {:induction false} Repromised(defs: map<string, Json>, promised: set<string>, other: set<string>)
    requires Linked(defs, promised) && defs.Keys + promised <= defs.Keys + other
    ensures Linked(defs, other)
  {
    forall n | n in defs && defs[n] != JNull ensures PointsInto(defs[n], defs.Keys + other) {
      PointsIntoMore(defs[n], defs.Keys + promised, defs.Keys + other);
    }
  }

  /** What a node's serialized form keeps of its kind. */
  ghost predicate SameKind(n: Node, j: Json) {
    match n
    case Null => j == JNull
    case Lit(text) => j == JLit(text)
    case Str(text) => j == JStr(text)
    case Arr(_) => j.JArr?
    case Obj(_, _) => j.JObj?
  }

  /** The fields written so far come from fields of the node. */
  ghost predicate Written(fields: seq<(string, Node)>, out: seq<(string, Json)>) {
    forall k :: 0 <= k < |out| ==> exists i ::
        0 <= i < |fields| && fields[i].0 == out[k].0
        && SameKind(fields[i].1, out[k].1)
  }

  ghost predicate AllPoint(out: seq<Json>, names: set<string>) {
    forall k :: 0 <= k < |out| ==> PointsInto(out[k], names)
  }

  ghost predicate FieldsPoint(out: seq<(string, Json)>, names: set<string>) {
    forall k :: 0 <= k < |out| ==> PointsInto(out[k].1, names)
  }

  lemma {:induction false} AllPointMore(out: seq<Json>, names: set<string>, more: set<string>)
    requires AllPoint(out, names) && names <= more
    ensures AllPoint(out, more)
  {
    forall k | 0 <= k < |out| ensures PointsInto(out[k], more) { PointsIntoMore(out[k], names, more); }
  }

  lemma {:induction false} FieldsPointMore(out: seq<(string, Json)>, names: set<string>, more: set<string>)
    requires FieldsPoint(out, names) && names <= more
    ensures FieldsPoint(out, more)
  {
    forall k | 0 <= k < |out| ensures PointsInto(out[k].1, more) { PointsIntoMore(out[k].1, names, more); }
  }

  /** Fields of a node without pointers do not spell one. */
  lemma {:induction false} ObjectPoints(n: Node, out: seq<(string, Json)>, names: set<string>)
    requires n.Obj? && Unpointed(n) && Written(n.fields, out) && FieldsPoint(out, names)
    ensures PointsInto(JObj(out), names)
  {
    assert !IsPointer(JObj(out));
  }

  /** One more field written, the earlier ones still pointing into a table that grew. */
  lemma {:induction false} FieldWritten(n: Node, i: nat, out: seq<(string, Json)>, names: set<string>,
      more: set<string>, value: Json)
    requires n.Obj? && i < |n.fields| && Written(n.fields, out) && FieldsPoint(out, names) && names <= more
    requires SameKind(n.fields[i].1, value) && PointsInto(value, more)
    ensures Written(n.fields, out + [(n.fields[i].0, value)]) && FieldsPoint(out + [(n.fields[i].0, value)], more)
  {
    FieldsPointMore(out, names, more);
    var next := out + [(n.fields[i].0, value)];
    forall k | 0 <= k < |next| ensures exists m ::
        0 <= m < |n.fields| && n.fields[m].0 == next[k].0
        && SameKind(n.fields[m].1, next[k].1) {
      if k < |out| { assert next[k] == out[k]; } else { assert n.fields[i].0 == next[k].0; }
    }
  }

  /** One more item, the earlier ones still pointing into a table that grew. */
  lemma {:induction false} ItemWritten(out: seq<Json>, names: set<string>, more: set<string>, item: Json)
    requires AllPoint(out, names) && names <= more && PointsInto(item, more)
    ensures AllPoint(out + [item], more)
  {
    AllPointMore(out, names, more);
  }

  ghost predicate FormItems(reg: Registry, n: Node, out: seq<Json>) {
    && n.Arr? && |out| <= |n.items|
    && forall k :: 0 <= k < |out| ==> out[k] == FormOf(reg, n.items[k], None)
  }

  lemma {:induction false} FormItemsNext(reg: Registry, n: Node, out: seq<Json>, item: Json)
    requires FormItems(reg, n, out) && |out| < |n.items| && item == FormOf(reg, n.items[|out|], None)
    ensures FormItems(reg, n, out + [item])
  {
  }

  lemma {:induction false} FormItemsAre(reg: Registry, n: Node, self: Option<string>, out: seq<Json>)
    requires FormItems(reg, n, out) && |out| == |n.items|
    ensures JArr(out) == FormOf(reg, n, self)
  {
    assert out == FormOf(reg, n, self).items;
  }

  ghost predicate CyclicItems(reg: Registry, n: Node, inner: set<string>, out: seq<Json>) {
    && n.Arr? && |out| <= |n.items|
    && forall k :: 0 <= k < |out| ==> out[k] == CyclicForm(reg, n.items[k], inner)
  }

  lemma {:induction false} CyclicItemsNext(reg: Registry, n: Node, inner: set<string>, out: seq<Json>, item: Json)
    requires CyclicItems(reg, n, inner, out) && |out| < |n.items| && item == CyclicForm(reg, n.items[|out|], inner)
    ensures CyclicItems(reg, n, inner, out + [item])
  {
  }

  lemma {:induction false} CyclicItemsAre(reg: Registry, n: Node, inner: set<string>, out: seq<Json>)
    requires CyclicItems(reg, n, inner, out) && |out| == |n.items|
    ensures JArr(out) == CyclicForm(reg, n, inner)
  {
    assert out == CyclicForm(reg, n, inner).items;
  }

  /** The first fields in their form. */
  ghost predicate FormFields(reg: Registry, n: Node, out: seq<(string, Json)>) {
    && n.Obj? && |out| <= |n.fields|
    && forall k :: 0 <= k < |out| ==> out[k] == (n.fields[k].0, FormOf(reg, n.fields[k].1, None))
  }

  lemma {:induction false} FormFieldsNext(reg: Registry, n: Node, out: seq<(string, Json)>, value: Json)
    requires FormFields(reg, n, out) && |out| < |n.fields| && value == FormOf(reg, n.fields[|out|].1, None)
    ensures FormFields(reg, n, out + [(n.fields[|out|].0, value)])
  {
  }

  lemma {:induction false} FormFieldsAre(reg: Registry, n: Node, self: Option<string>, out: seq<(string, Json)>)
    requires FormFields(reg, n, out) && |out| == |n.fields| && LookupName(reg, n, self).None? && !IsWrapper(n)
    ensures JObj(out) == FormOf(reg, n, self)
  {
    assert out == FormOf(reg, n, self).fields;
  }

  lemma {:induction false} PointerPoints(name: string, names: set<string>)
    requires name in names
    ensures PointsInto(Pointer(name), names) && Pointer(name).JObj?
  {
    PointerTarget(name);
  }

  function Names(reg: Registry): set<string> { set i | 0 <= i < |reg| :: reg[i].0 }

  lemma {:induction false} FindNames(reg: Registry, name: string)
    ensures Find(reg, name).Some? <==> name in Names(reg)
  {
  }

  /** A registry the generator accepts: schema objects, no pointers of their own, wrappers that enter themselves. */
  ghost predicate Accepted(reg: Registry) {
    forall e :: e in reg ==> e.1.Obj? && Everywhere(e.1, NodeOk)
  }

  /** The names left to enter are as many as before, or fewer. */
  ghost predicate Fewer(names: set<string>, before: set<string>, after: set<string>) {
    names - after == names - before || names - after < names - before
  }

  lemma {:induction false} FewerLeft(names: set<string>, before: set<string>, after: set<string>)
    requires before <= after
    ensures Fewer(names, before, after)
  {
    assert names - after <= names - before;
  }

  class Generator {
    const registry: Registry
    const bySchema: map<nat, string>
    const byContent: map<Json, string>
    var defs: map<string, Json>

    ghost predicate Valid() {
      TagTable(registry, bySchema) && ContentTable(registry, byContent) && Accepted(registry)
    }

    constructor (registry: Registry)
      requires Accepted(registry)
      ensures Valid() && this.registry == registry && defs == map[]
    {
      var tags, contents := BuildNames(registry);
      this.registry, this.bySchema, this.byContent := registry, tags, contents;
      this.defs := map[];
    }

    /** `lookupName` on the tables. */
    function Lookup(n: Node, self: Option<string>): (r: Option<string>)
      requires n.Obj?
      ensures Valid() ==> r == LookupName(registry, n, self)
    {
      if n.tag in bySchema then (if Some(bySchema[n.tag]) == self then None else Some(bySchema[n.tag]))
      else
        var content := Erase(n);
        if content in byContent then (if Some(byContent[content]) == self then None else Some(byContent[content]))
            else None
    }

    /** Reserve a name and fill it with its schema's serialized form; false is the error of an unknown name. */
    method EnsureDef(name: string, ghost promised: set<string>) returns (found: bool)
      requires Valid() && Linked(defs, promised) && Sourced(registry, defs)
      modifies this`defs
      ensures found <==> name in old(defs) || Find(registry, name).Some?
      ensures found ==> Linked(defs, promised) && Sourced(registry, defs) && name in defs
      ensures found ==> Grows(registry, old(defs), defs)
      ensures !found ==> defs == old(defs)[name := JNull]
      decreases Names(registry) - defs.Keys, 0
    {
      if name in defs { return true; }
      ghost var before := defs;
      Relinked(defs, promised, name, JNull);
      FindNames(registry, name);
      defs := defs[name := JNull];
      var schema := Find(registry, name);
      if schema.None? { return false; }
      ghost var reserved := defs;
      assert name in Names(registry) - before.Keys && Names(registry) - defs.Keys <= Names(registry) - before.Keys;
      SchemaKnown(registry, name);
      SourcedNext(registry, before, name, JNull);
      var j := Serialize(schema.value, Some(name), promised);
      Settles(registry, name, j);
      Filled(registry, before, reserved, defs, promised, name, j);
      SourcedNext(registry, defs, name, j);
      defs := defs[name := j];
      return true;
    }

    method Serialize(n: Node, self: Option<string>, ghost promised: set<string>) returns (j: Json)
      requires Valid() && Linked(defs, promised) && Sourced(registry, defs) && Everywhere(n, Known(registry))
      requires self.Some? ==> self.value in defs
      modifies this`defs
      ensures Linked(defs, promised) && Sourced(registry, defs) && Grows(registry, old(defs), defs)
      ensures SameKind(n, j) && PointsInto(j, defs.Keys + promised)
      ensures if EntersItself(registry, n, self) then self.value in defs && j == defs[self.value]
              else j == FormOf(registry, n, self)
      decreases Names(registry) - defs.Keys, 1, n, 2
    {
      match n
      case Null => j := JNull;
      case Lit(text) => j := JLit(text);
      case Str(text) => j := JStr(text);
      case Arr(_) => j := SerializeItems(n, self, promised);
      case Obj(_, _) =>
        var registered := Lookup(n, self);
        if registered.Some? {
          j := SharePointer(n, self, registered.value, promised);
        } else if IsWrapper(n) {
          j := SerializeWrapper(n, self, promised);
        } else {
          j := SerializeFields(n, self, promised);
        }
    }

    method SharePointer(n: Node, self: Option<string>, name: string, ghost promised: set<string>) returns (j: Json)
      requires Valid() && Linked(defs, promised) && Sourced(registry, defs) && n.Obj?
          && LookupName(registry, n, self) == Some(name)
      modifies this`defs
      ensures Linked(defs, promised) && Sourced(registry, defs) && Grows(registry, old(defs), defs)
      ensures j.JObj? && PointsInto(j, defs.Keys + promised) && j == Pointer(name) && name in defs
      decreases Names(registry) - defs.Keys, 1, n, 1
    {
      LookupRegistered(registry, n, self);
      var found := EnsureDef(name, promised);
      j := Pointer(name);
      PointerPoints(name, defs.Keys + promised);
    }

    method SerializeItems(n: Node, self: Option<string>, ghost promised: set<string>) returns (j: Json)
      requires Valid() && Linked(defs, promised) && Sourced(registry, defs) && n.Arr? && Everywhere(n, Known(registry))
      modifies this`defs
      ensures Linked(defs, promised) && Sourced(registry, defs) && Grows(registry, old(defs), defs)
      ensures j.JArr? && PointsInto(j, defs.Keys + promised) && j == FormOf(registry, n, self)
      decreases Names(registry) - defs.Keys, 1, n, 1
    {
      var out: seq<Json> := [];
      for i := 0 to |n.items|
        invariant |out| == i && AllPoint(out, defs.Keys + promised)
        invariant Linked(defs, promised) && Sourced(registry, defs) && Grows(registry, old(defs), defs)
        invariant FormItems(registry, n, out)
      {
        ghost var before := defs;
        var item := Serialize(n.items[i], None, promised);
        ItemWritten(out, before.Keys + promised, defs.Keys + promised, item);
        FormItemsNext(registry, n, out, item);
        GrowsOn(registry, old(defs), before, defs);
        out := out + [item];
      }
      FormItemsAre(registry, n, self, out);
      j := JArr(out);
    }

    method SerializeFields(n: Node, self: Option<string>, ghost promised: set<string>) returns (j: Json)
      requires Valid() && Linked(defs, promised) && Sourced(registry, defs) && Everywhere(n, Known(registry))
      requires n.Obj? && LookupName(registry, n, self).None? && !IsWrapper(n)
      modifies this`defs
      ensures Linked(defs, promised) && Sourced(registry, defs) && Grows(registry, old(defs), defs)
      ensures j.JObj? && PointsInto(j, defs.Keys + promised) && j == FormOf(registry, n, self)
      decreases Names(registry) - defs.Keys, 1, n, 1
    {
      var out: seq<(string, Json)> := [];
      for i := 0 to |n.fields|
        invariant |out| == i && FieldsPoint(out, defs.Keys + promised) && Written(n.fields, out)
        invariant Linked(defs, promised) && Sourced(registry, defs) && Grows(registry, old(defs), defs)
        invariant FormFields(registry, n, out)
      {
        ghost var before := defs;
        var value := Serialize(n.fields[i].1, None, promised);
        FieldWritten(n, i, out, before.Keys + promised, defs.Keys + promised, value);
        FormFieldsNext(registry, n, out, value);
        GrowsOn(registry, old(defs), before, defs);
        out := out + [(n.fields[i].0, value)];
      }
      KnownUnpointed(registry, n);
      ObjectPoints(n, out, defs.Keys + promised);
      FormFieldsAre(registry, n, self, out);
      j := JObj(out);
    }

    /** A wrapper: its definitions move to the table, and it becomes the one it enters, or a pointer to it. */
    method SerializeWrapper(n: Node, self: Option<string>, ghost promised: set<string>) returns (j: Json)
      requires Valid() && Linked(defs, promised) && Sourced(registry, defs) && IsWrapper(n)
          && Everywhere(n, Known(registry))
      requires LookupName(registry, n, self).None? && (self.Some? ==> self.value in defs)
      modifies this`defs
      ensures Linked(defs, promised) && Sourced(registry, defs) && Grows(registry, old(defs), defs)
      ensures j.JObj? && PointsInto(j, defs.Keys + promised) && KeysOf(Inner(n)) <= defs.Keys
      ensures Entry(n) in defs && j == if self == Some(Entry(n)) then defs[Entry(n)] else Pointer(Entry(n))
      decreases Names(registry) - defs.Keys, 1, n, 1
    {
      HoistInner(n, self, promised);
      var entry := Entry(n);
      assert NodeOk(n);
      if self == Some(entry) {
        j := defs[entry];
      } else {
        PointerPoints(entry, defs.Keys + promised);
        j := Pointer(entry);
      }
    }

    method HoistInner(n: Node, self: Option<string>, ghost promised: set<string>)
      requires Valid() && Linked(defs, promised) && Sourced(registry, defs) && IsWrapper(n)
          && Everywhere(n, Known(registry))
      requires LookupName(registry, n, self).None? && (self.Some? ==> self.value in defs)
      modifies this`defs
      ensures Linked(defs, promised) && Sourced(registry, defs) && Grows(registry, old(defs), defs)
          && KeysOf(Inner(n)) <= defs.Keys
      ensures self.Some? && self.value in KeysOf(Inner(n)) ==> defs[self.value] != JNull
      decreases Names(registry) - defs.Keys, 1, n, 0
    {
      var inner := Inner(n);
      var innerNames := KeysOf(inner);
      ghost var wide := promised + innerNames;
      Repromised(defs, promised, wide);
      InnerOk(n, Known(registry));
      assert Known(registry)(n);
      for i := 0 to |inner|
        invariant Linked(defs, wide) && Sourced(registry, defs) && Grows(registry, old(defs), defs)
        invariant Hoisted(inner, i, self, defs)
      {
        ghost var before := defs;
        FewerLeft(Names(registry), old(defs.Keys), defs.Keys);
        HoistOne(inner[i].0, inner[i].1, self, innerNames, n, wide);
        HoistedNext(registry, inner, i, self, before, defs);
        GrowsOn(registry, old(defs), before, defs);
      }
      HoistedAll(inner, self, defs);
      Repromised(defs, wide, promised);
    }

    /** One definition of a wrapper: written in its form unless another definition holds its name. */
    method HoistOne(name: string, def: Node, self: Option<string>, innerNames: set<string>, ghost w: Node,
        ghost promised: set<string>)
      requires Valid() && Linked(defs, promised) && Sourced(registry, defs) && innerNames <= promised
      requires Everywhere(def, Known(registry)) && def.Obj?
      requires Brings(registry, w, name, def) && innerNames == KeysOf(Inner(w))
      requires LookupName(registry, w, self).None? && (self.Some? ==> self.value in defs)
      modifies this`defs
      ensures Linked(defs, promised) && Sourced(registry, defs) && Grows(registry, old(defs), defs)
      ensures name in defs && (self == Some(name) ==> defs[name] != JNull)
      ensures name !in old(defs) || (self == Some(name) && old(defs)[name] == JNull) ==>
          defs[name] == CyclicForm(registry, def, innerNames)
      decreases Names(registry) - defs.Keys, 1, def, 4
    {
      if name !in defs || (self == Some(name) && defs[name] == JNull) {
        Brought(registry, w, name, def);
        Reserve(name, promised);
        ghost var reserved := defs;
        WriteHoisted(name, def, innerNames, promised);
        HoistGrows(registry, w, name, def, self, old(defs), reserved, defs);
      }
    }

    method Reserve(name: string, ghost promised: set<string>)
      requires Linked(defs, promised) && Sourced(registry, defs) && Named(registry, name)
      requires name in defs ==> defs[name] == JNull
      modifies this`defs
      ensures defs == old(defs)[name := JNull] && Linked(defs, promised) && Sourced(registry, defs)
      ensures Fewer(Names(registry), old(defs.Keys), defs.Keys)
    {
      FewerLeft(Names(registry), defs.Keys, defs.Keys + {name});
      assert (defs[name := JNull]).Keys == defs.Keys + {name};
      Relinked(defs, promised, name, JNull);
      SourcedNext(registry, defs, name, JNull);
      if name !in defs { defs := defs[name := JNull]; }
      assert defs == old(defs)[name := JNull];
    }

    method WriteHoisted(name: string, def: Node, innerNames: set<string>, ghost promised: set<string>)
      requires Valid() && Linked(defs, promised) && Sourced(registry, defs) && innerNames <= promised
      requires Everywhere(def, Known(registry)) && def.Obj? && name in defs && defs[name] == JNull
      requires Named(registry, name) && HasSource(registry, name, CyclicForm(registry, def, innerNames))
      modifies this`defs
      ensures Linked(defs, promised) && Sourced(registry, defs) && Grows(registry, old(defs), defs)
      ensures name in defs && defs[name] == CyclicForm(registry, def, innerNames) && defs[name] != JNull
      decreases Names(registry) - defs.Keys, 1, def, 3
    {
      var d := SerializeCyclicDef(def, innerNames, promised);
      FilledPending(registry, old(defs), defs, promised, name, d);
      defs := defs[name := d];
    }

    /** Inside a wrapper: references by name become pointers, markers of its own definitions are dropped. */
    method SerializeCyclicDef(n: Node, innerNames: set<string>, ghost promised: set<string>) returns (j: Json)
      requires Valid() && Linked(defs, promised) && Sourced(registry, defs) && innerNames <= promised
          && Everywhere(n, Known(registry))
      modifies this`defs
      ensures Linked(defs, promised) && Sourced(registry, defs) && Grows(registry, old(defs), defs)
      ensures SameKind(n, j) && PointsInto(j, defs.Keys + promised) && j == CyclicForm(registry, n, innerNames)
      decreases Names(registry) - defs.Keys, 1, n, 2
    {
      match n
      case Null => j := JNull;
      case Lit(text) => j := JLit(text);
      case Str(text) => j := JStr(text);
      case Arr(_) => j := SerializeCyclicItems(n, innerNames, promised);
      case Obj(_, fields) =>
        var registered := Lookup(n, None);
        if registered.Some? {
          j := SharePointer(n, None, registered.value, promised);
        } else if NamesInner(n, innerNames) {
          var name := FieldOf(fields, "$ref").value.text;
          PointerPoints(name, defs.Keys + promised);
          j := Pointer(name);
        } else {
          j := SerializeCyclicFields(n, innerNames, promised);
        }
    }

    method SerializeCyclicItems(n: Node, innerNames: set<string>, ghost promised: set<string>) returns (j: Json)
      requires Valid() && Linked(defs, promised) && Sourced(registry, defs) && innerNames <= promised
      requires n.Arr? && Everywhere(n, Known(registry))
      modifies this`defs
      ensures Linked(defs, promised) && Sourced(registry, defs) && Grows(registry, old(defs), defs)
      ensures j.JArr? && PointsInto(j, defs.Keys + promised) && j == CyclicForm(registry, n, innerNames)
      decreases Names(registry) - defs.Keys, 1, n, 1
    {
      var out: seq<Json> := [];
      for i := 0 to |n.items|
        invariant |out| == i && AllPoint(out, defs.Keys + promised)
        invariant Linked(defs, promised) && Sourced(registry, defs) && Grows(registry, old(defs), defs)
        invariant CyclicItems(registry, n, innerNames, out)
      {
        ghost var before := defs;
        var item := SerializeCyclicDef(n.items[i], innerNames, promised);
        ItemWritten(out, before.Keys + promised, defs.Keys + promised, item);
        CyclicItemsNext(registry, n, innerNames, out, item);
        GrowsOn(registry, old(defs), before, defs);
        out := out + [item];
      }
      CyclicItemsAre(registry, n, innerNames, out);
      j := JArr(out);
    }

    method SerializeCyclicFields(n: Node, innerNames: set<string>, ghost promised: set<string>) returns (j: Json)
      requires Valid() && Linked(defs, promised) && Sourced(registry, defs) && innerNames <= promised
          && Everywhere(n, Known(registry))
      requires n.Obj? && LookupName(registry, n, None).None? && !NamesInner(n, innerNames)
      modifies this`defs
      ensures Linked(defs, promised) && Sourced(registry, defs) && Grows(registry, old(defs), defs)
      ensures j.JObj? && PointsInto(j, defs.Keys + promised) && j == CyclicForm(registry, n, innerNames)
      decreases Names(registry) - defs.Keys, 1, n, 1
    {
      var out: seq<(string, Json)> := [];
      for i := 0 to |n.fields|
        invariant FieldsPoint(out, defs.Keys + promised)
        invariant Linked(defs, promised) && Sourced(registry, defs) && Grows(registry, old(defs), defs)
        invariant out == CyclicFields(registry, n.fields[..i], innerNames)
      {
        ghost var before := defs;
        assert Names(registry) - defs.Keys <= Names(registry) - old(defs.Keys);
        var written := SerializeCyclicField(n, i, innerNames, promised);
        CyclicFieldsNext(registry, n.fields, i, innerNames);
        FieldsAppended(out, written, before.Keys + promised, defs.Keys + promised);
        GrowsOn(registry, old(defs), before, defs);
        out := out + written;
      }
      CyclicObject(registry, n, innerNames, out, defs.Keys + promised);
      j := JObj(out);
    }

    /** One field, or none when it is a marker. */
    method SerializeCyclicField(n: Node, i: nat, innerNames: set<string>, ghost promised: set<string>)
      returns (written: seq<(string, Json)>)
      requires Valid() && Linked(defs, promised) && Sourced(registry, defs) && innerNames <= promised
      requires n.Obj? && i < |n.fields| && Everywhere(n, Known(registry))
      modifies this`defs
      ensures Linked(defs, promised) && Sourced(registry, defs) && Grows(registry, old(defs), defs)
      ensures FieldsPoint(written, defs.Keys + promised)
      ensures written == CyclicField(registry, n.fields[i], innerNames)
      decreases Names(registry) - defs.Keys, 1, n, 0
    {
      var key, value := n.fields[i].0, n.fields[i].1;
      if key == "$id" && value.Str? && value.text in innerNames { return []; }
      var j := SerializeCyclicDef(value, innerNames, promised);
      written := [(key, j)];
    }

    /** Every registered name, in order. */
    method Generate()
      requires Valid() && defs == map[]
      modifies this`defs
      ensures Linked(defs, {}) && Sourced(registry, defs) && Pending(defs) == {} && Unsettled(registry, defs) == {}
      ensures Names(registry) <= defs.Keys
    {
      for i := 0 to |registry|
        invariant Linked(defs, {}) && Sourced(registry, defs) && Pending(defs) == {} && Unsettled(registry, defs) == {}
        invariant Covers(registry, i, defs.Keys)
      {
        FindNames(registry, registry[i].0);
        ghost var before := defs.Keys;
        var found := EnsureDef(registry[i].0, {});
        CoversNext(registry, i, before, defs.Keys);
      }
      CoversAll(registry, defs.Keys);
    }
  }

  // ----- Steps of the table

  lemma {:induction false} CyclicObject(reg: Registry, n: Node, inner: set<string>, out: seq<(string, Json)>,
      names: set<string>)
    requires n.Obj? && Everywhere(n, Known(reg)) && LookupName(reg, n, None).None? && !NamesInner(n, inner)
    requires out == CyclicFields(reg, n.fields[..|n.fields|], inner) && FieldsPoint(out, names)
    ensures JObj(out) == CyclicForm(reg, n, inner) && PointsInto(JObj(out), names)
  {
    assert n.fields[..|n.fields|] == n.fields;
    KnownUnpointed(reg, n);
    NoPointerWritten(reg, n, inner);
  }

  lemma {:induction false} FieldsAppended(out: seq<(string, Json)>, more: seq<(string, Json)>, names: set<string>,
      all: set<string>)
    requires FieldsPoint(out, names) && names <= all && FieldsPoint(more, all)
    ensures FieldsPoint(out + more, all)
  {
    FieldsPointMore(out, names, all);
  }

  lemma {:induction false} GrowsOn(reg: Registry, a: map<string, Json>, b: map<string, Json>, c: map<string, Json>)
    requires Grows(reg, a, b) && Grows(reg, b, c)
    ensures Grows(reg, a, c)
  {
    forall name | name in a && a[name] != JNull ensures c[name] == a[name] { assert name in b && b[name] == a[name]; }
  }

  /** The wrapper brings no new name that would be overwritten. */
  lemma {:induction false} NewNameSettled(
      reg: Registry, w: Node, name: string, d: Node, self: Option<string>, defs: map<string, Json>)
    requires Brings(reg, w, name, d) && LookupName(reg, w, self).None? && (self.Some? ==> self.value in defs)
    ensures name in defs || !Overwritten(reg, name)
  {
  }

  /** A name that is overwritten ends with the pointer. */
  lemma {:induction false} Settles(reg: Registry, name: string, j: Json)
    requires Find(reg, name).Some?
    requires !EntersItself(reg, Find(reg, name).value, Some(name)) ==>
        j == FormOf(reg, Find(reg, name).value, Some(name))
    ensures Overwritten(reg, name) ==> j == Pointer(Entry(Find(reg, name).value))
  {
  }

  lemma {:induction false} HoistGrows(reg: Registry, w: Node, name: string, d: Node, self: Option<string>,
      before: map<string, Json>, reserved: map<string, Json>, after: map<string, Json>)
    requires Brings(reg, w, name, d) && LookupName(reg, w, self).None? && (self.Some? ==> self.value in before)
    requires reserved == before[name := JNull] && (name in before ==> before[name] == JNull)
    requires Grows(reg, reserved, after) && name in after && after[name] != JNull
    ensures Grows(reg, before, after)
  {
    NewNameSettled(reg, w, name, d, self, before);
    GrowsFromReserved(reg, before, reserved, after, name);
  }

  lemma {:induction false} GrowsFromReserved(
      reg: Registry, before: map<string, Json>, reserved: map<string, Json>, after: map<string, Json>, name: string)
    requires reserved == before[name := JNull] && (name in before ==> before[name] == JNull)
    requires Grows(reg, reserved, after) && name in after && after[name] != JNull
    requires name in before || !Overwritten(reg, name)
    ensures Grows(reg, before, after)
  {
    forall n | n in Unsettled(reg, after) ensures n in Unsettled(reg, before) { assert n in Unsettled(reg, reserved); }
    forall n | n in Pending(after) ensures n in Pending(before) { assert n in Pending(reserved); }
    forall n | n in before && before[n] != JNull ensures after[n] == before[n] { assert reserved[n] == before[n]; }
  }

  lemma {:induction false} SchemaKnown(reg: Registry, name: string)
    requires Accepted(reg) && Find(reg, name).Some?
    ensures Everywhere(Find(reg, name).value, Known(reg)) && Find(reg, name).value.Obj?
  {
    var e := (name, Find(reg, name).value);
    assert e in reg && Within(e.1, e.1);
    PartKnown(reg, e, e.1);
  }

  /** A name enters the table, or its definition is written. */
  lemma {:induction false} SourcedNext(reg: Registry, defs: map<string, Json>, name: string, j: Json)
    requires Sourced(reg, defs) && Named(reg, name) && (j != JNull ==> HasSource(reg, name, j))
    ensures Sourced(reg, defs[name := j])
  {
  }

  lemma {:induction false} Brought(reg: Registry, w: Node, name: string, d: Node)
    requires Brings(reg, w, name, d)
    ensures Named(reg, name) && HasSource(reg, name, CyclicForm(reg, d, KeysOf(Inner(w))))
  {
  }

  lemma {:induction false} CyclicFieldsNext(reg: Registry, fields: seq<(string, Node)>, i: nat, inner: set<string>)
    requires i < |fields|
    ensures CyclicFields(reg, fields[..i + 1], inner) ==
        CyclicFields(reg, fields[..i], inner) + CyclicField(reg, fields[i], inner)
  {
    assert fields[..i + 1][..i] == fields[..i] && fields[..i + 1][i] == fields[i];
  }

  ghost predicate Covers(reg: Registry, i: int, names: set<string>) {
    0 <= i <= |reg| && forall k :: 0 <= k < i ==> reg[k].0 in names
  }

  lemma {:induction false} CoversNext(reg: Registry, i: int, before: set<string>, after: set<string>)
    requires Covers(reg, i, before) && i < |reg| && before <= after && reg[i].0 in after
    ensures Covers(reg, i + 1, after)
  {
  }

  lemma {:induction false} CoversAll(reg: Registry, names: set<string>)
    requires Covers(reg, |reg|, names)
    ensures Names(reg) <= names
  {
  }

  lemma {:induction false} FinishedLinked(defs: map<string, Json>)
    requires Linked(defs, {}) && Pending(defs) == {}
    ensures forall name :: name in defs ==> defs[name].JObj? && PointsInto(defs[name], defs.Keys)
  {
    assert defs.Keys + {} == defs.Keys;
    forall name | name in defs ensures defs[name].JObj? && PointsInto(defs[name], defs.Keys) {
      assert name !in Pending(defs);
    }
  }

  lemma {:induction false} FinishedSourced(reg: Registry, defs: map<string, Json>)
    requires Sourced(reg, defs) && Pending(defs) == {}
    ensures forall name :: name in defs ==> HasSource(reg, name, defs[name])
  {
    forall name | name in defs ensures HasSource(reg, name, defs[name]) {
      assert name !in Pending(defs);
    }
  }

  /** Without wrappers every definition is the shared form of its schema. */
  lemma {:induction false} PlainSource(reg: Registry, name: string, j: Json)
    requires Plain(reg) && HasSource(reg, name, j)
    ensures Find(reg, name).Some? && j == Shared(reg, Find(reg, name).value, Some(name))
  {
    if FromWrapper(reg, name, j) {
      var w, d :| Brings(reg, w, name, d) && j == CyclicForm(reg, d, KeysOf(Inner(w)));
      var e :| e in reg && Within(w, e.1);
      WithinHolds(w, e.1, NotWrapper);
      assert false;
    }
    var x := Find(reg, name).value;
    assert (name, x) in reg;
    PlainForm(reg, x, Some(name));
  }

  /**
   * The name of a wrapper's definition is not taken by another: every wrapper that brings it brings the
   * same definition among the same names, and a schema registered under it enters that very definition.
   */
  ghost predicate Untaken(reg: Registry, w: Node, name: string, d: Node)
    requires IsWrapper(w)
  {
    && (Find(reg, name).Some? ==> EntersItself(reg, Find(reg, name).value, Some(name)))
    && forall v, c :: Brings(reg, v, name, c) ==> c == d && KeysOf(Inner(v)) == KeysOf(Inner(w))
  }

  /** Then the table holds the wrapper's own definition under its name. */
  lemma {:induction false} HoistedIsOwn(reg: Registry, name: string, j: Json, w: Node, d: Node)
    requires HasSource(reg, name, j) && IsWrapper(w) && Untaken(reg, w, name, d)
    ensures j == CyclicForm(reg, d, KeysOf(Inner(w)))
  {
    if FromWrapper(reg, name, j) {
      var v, c :| Brings(reg, v, name, c) && j == CyclicForm(reg, c, KeysOf(Inner(v)));
    }
  }

  /**
   * Only this definition stands for the name: every wrapper that brings the name brings the same definition
   * among the same names, and a schema registered under it is a wrapper that all of them are registered as.
   */
  ghost predicate Alone(reg: Registry, w: Node, name: string, d: Node)
    requires IsWrapper(w)
  {
    && (forall v, c :: Brings(reg, v, name, c) ==>
          && c == d && KeysOf(Inner(v)) == KeysOf(Inner(w))
          && (Find(reg, name).Some? ==> LookupName(reg, v, None) == Some(name)))
    && (Find(reg, name).Some? ==>
          var x := Find(reg, name).value; x.Obj? && IsWrapper(x) && LookupName(reg, x, Some(name)).None?)
  }

  /**
   * Exactly when an inner definition survives: unless a wrapper registered under its name enters another
   * one, to which the name then points.
   */
  lemma {:induction false} InnerSurvivesIff(reg: Registry, defs: map<string, Json>, w: Node, name: string, d: Node)
    requires name in defs && HasSource(reg, name, defs[name]) && Unsettled(reg, defs) == {}
    requires Brings(reg, w, name, d) && Alone(reg, w, name, d)
    ensures defs[name] == if EntersAnother(reg, name) then Pointer(Entry(Find(reg, name).value))
                          else CyclicForm(reg, d, KeysOf(Inner(w)))
    ensures CyclicForm(reg, d, KeysOf(Inner(w))).JObj? && !IsPointer(CyclicForm(reg, d, KeysOf(Inner(w)))) ==>
              (defs[name] == CyclicForm(reg, d, KeysOf(Inner(w))) <==> !EntersAnother(reg, name))
  {
    if EntersAnother(reg, name) {
      assert Overwritten(reg, name);
      assert name !in Unsettled(reg, defs);
      PointerTarget(Entry(Find(reg, name).value));
    } else {
      assert Untaken(reg, w, name, d);
      HoistedIsOwn(reg, name, defs[name], w, d);
    }
  }

  /** The first `i` inner names are keys, and the definition being written is filled if it is among them. */
  ghost predicate Hoisted(inner: seq<(string, Node)>, i: nat, self: Option<string>, defs: map<string, Json>) {
    && i <= |inner|
    && forall k :: 0 <= k < i ==> inner[k].0 in defs && (self == Some(inner[k].0) ==> defs[inner[k].0] != JNull)
  }

  lemma {:induction false} HoistedNext(reg: Registry, inner: seq<(string, Node)>, i: nat, self: Option<string>,
      before: map<string, Json>, after: map<string, Json>)
    requires i < |inner| && Hoisted(inner, i, self, before) && Grows(reg, before, after)
    requires inner[i].0 in after && (self == Some(inner[i].0) ==> after[inner[i].0] != JNull)
    ensures Hoisted(inner, i + 1, self, after)
  {
    StaysFilled(reg, before, after);
  }

  lemma {:induction false} HoistedAll(inner: seq<(string, Node)>, self: Option<string>, defs: map<string, Json>)
    requires Hoisted(inner, |inner|, self, defs)
    ensures KeysOf(inner) <= defs.Keys
    ensures self.Some? && self.value in KeysOf(inner) ==> defs[self.value] != JNull
  {
  }

  lemma {:induction false} StaysFilled(reg: Registry, before: map<string, Json>, after: map<string, Json>)
    requires Grows(reg, before, after)
    ensures forall name :: name in before && before[name] != JNull ==> name in after && after[name] != JNull
  {
    forall name | name in before && before[name] != JNull ensures name in after && after[name] != JNull {
      assert name !in Pending(before) && name in after.Keys && name !in Pending(after);
    }
  }

  lemma {:induction false} LookupRegistered(reg: Registry, n: Node, self: Option<string>)
    requires n.Obj? && LookupName(reg, n, self).Some?
    ensures Find(reg, LookupName(reg, n, self).value).Some?
  {
  }

  /** A name that was pending, filled. */
  lemma {:induction false} FilledPending(
      reg: Registry, before: map<string, Json>, after: map<string, Json>, promised: set<string>, name: string, j: Json)
    requires name in before && before[name] == JNull && Linked(after, promised) && Sourced(reg, after)
    requires Grows(reg, before, after) && j.JObj? && PointsInto(j, after.Keys + promised)
    requires Named(reg, name) && HasSource(reg, name, j)
    ensures Linked(after[name := j], promised) && Sourced(reg, after[name := j]) && Grows(reg, before, after[name := j])
  {
    assert before[name := JNull] == before;
    Filled(reg, before, before, after, promised, name, j);
    SourcedNext(reg, after, name, j);
  }

  /** A reserved name, filled. */
  lemma {:induction false} Filled(reg: Registry, before: map<string, Json>, reserved: map<string, Json>,
      after: map<string, Json>, promised: set<string>, name: string, j: Json)
    requires Linked(after, promised) && Grows(reg, reserved, after)
    requires name in before || (Overwritten(reg, name) ==> j == Pointer(Entry(Find(reg, name).value)))
    requires reserved == before[name := JNull] && (name in before ==> before[name] == JNull)
    requires j.JObj? && PointsInto(j, after.Keys + promised)
    ensures Linked(after[name := j], promised) && Grows(reg, before, after[name := j])
  {
    assert name in reserved && name in after;
    assert after.Keys + {name} == after.Keys;
    Relinked(after, promised, name, j);
    forall n | n in Pending(after[name := j]) ensures n in Pending(before) {
      assert n in Pending(after) && n in Pending(reserved);
    }
    forall n | n in Unsettled(reg, after[name := j]) ensures n in Unsettled(reg, before) {
      if n != name { assert n in Unsettled(reg, after) && n in Unsettled(reg, reserved); }
    }
    forall n | n in before && before[n] != JNull ensures after[name := j][n] == before[n] {
      assert n != name && reserved[n] == before[n];
    }
  }

  /** Without wrappers, inlining each definition of the generated table gives its schema back. */
  lemma {:induction false} GeneratedInlines(reg: Registry, defs: map<string, Json>, e: (string, Node), fuel: nat)
    requires RegistryOk(reg) && e in reg && fuel >= Rank(reg, e.1, Some(e.0)) && Names(reg) <= defs.Keys
    requires forall name :: name in defs ==>
        Find(reg, name).Some?
        && defs[name] == Shared(reg, Find(reg, name).value, Some(name))
    ensures e.0 in defs && Inline(defs, defs[e.0], fuel) == Erase(e.1)
  {
    forall x | x in reg ensures x.0 in defs && defs[x.0] == Shared(reg, x.1, Some(x.0)) {
      var k :| 0 <= k < |reg| && reg[k] == x;
      assert x.0 in Names(reg);
      FindEntry(reg, x);
    }
    SharingPreservesMeaning(reg, defs, e, fuel);
  }

  /**
   * The whole generation. It terminates with a filled definition for every registered name and no
   * dangling pointer. Each definition is the form of the schema registered under its name, or of one that
   * a wrapper of the registry brings; a name that is not taken twice holds the wrapper's own definition.
   * Without wrappers, inlining every pointer of a definition ends and gives the registered schema back.
   */
  method GenerateDefs(reg: Registry) returns (defs: map<string, Json>)
    requires Accepted(reg)
    ensures Names(reg) <= defs.Keys
    ensures forall name :: name in defs ==> defs[name].JObj? && PointsInto(defs[name], defs.Keys)
    ensures forall name :: name in defs ==> HasSource(reg, name, defs[name])
    ensures forall name, w, d :: name in defs && Brings(reg, w, name, d) && Untaken(reg, w, name, d) ==>
              defs[name] == CyclicForm(reg, d, KeysOf(Inner(w)))
    ensures forall name, w, d :: name in defs && Brings(reg, w, name, d) && Alone(reg, w, name, d) ==>
              defs[name] == if EntersAnother(reg, name) then Pointer(Entry(Find(reg, name).value))
                            else CyclicForm(reg, d, KeysOf(Inner(w)))
    ensures Plain(reg) ==> defs.Keys == Names(reg)
    ensures Plain(reg) && RegistryOk(reg) ==>
              forall e, fuel: nat :: e in reg && fuel >= Rank(reg, e.1, Some(e.0)) ==>
                  Inline(defs, defs[e.0], fuel) == Erase(e.1)
  {
    var generator := new Generator(reg);
    generator.Generate();
    defs := generator.defs;
    FinishedLinked(defs);
    FinishedSourced(reg, defs);
    EachOwn(reg, defs);
    EachSurvives(reg, defs);
    if Plain(reg) {
      PlainTable(reg, defs);
      if RegistryOk(reg) {
        forall e, fuel: nat | e in reg && fuel >= Rank(reg, e.1, Some(e.0))
          ensures e.0 in defs && Inline(defs, defs[e.0], fuel) == Erase(e.1)
        {
          GeneratedInlines(reg, defs, e, fuel);
        }
      }
    }
  }

  lemma {:induction false} EachOwn(reg: Registry, defs: map<string, Json>)
    requires forall name :: name in defs ==> HasSource(reg, name, defs[name])
    ensures forall name, w, d :: name in defs && Brings(reg, w, name, d) && Untaken(reg, w, name, d) ==>
              defs[name] == CyclicForm(reg, d, KeysOf(Inner(w)))
  {
    forall name, w, d | name in defs && Brings(reg, w, name, d) && Untaken(reg, w, name, d)
      ensures defs[name] == CyclicForm(reg, d, KeysOf(Inner(w)))
    {
      HoistedIsOwn(reg, name, defs[name], w, d);
    }
  }

  // ----- An inner definition that does not survive

  const LOST_INNER := Obj(2, [])
  const LOST_DEFS: seq<(string, Node)> := [("a", LOST_INNER), ("b", Obj(3, [("x", Null)]))]
  const LOST_WRAPPER := Obj(0, [("$ref", Str("b")), ("$defs", Obj(1, LOST_DEFS))])

  /** A wrapper registered under one of its inner names, but entering the other. */
  const LOST: Registry := [("a", LOST_WRAPPER)]

  lemma {:induction false} LostWrapper()
    ensures IsWrapper(LOST_WRAPPER) && Inner(LOST_WRAPPER) == LOST_DEFS && Entry(LOST_WRAPPER) == "b"
    ensures Find(LOST, "a") == Some(LOST_WRAPPER)
  {
  }

  /** The nodes below the wrapper: no pointer, and no other wrapper. */
  predicate Below(n: Node) { Unpointed(n) && !IsWrapper(n) }

  lemma {:induction false} LostParts()
    ensures Everywhere(Str("b"), Below) && Everywhere(Obj(1, LOST_DEFS), Below)
  {
    assert Everywhere(Null, Below);
    assert forall i :: 0 <= i < |LOST_DEFS| ==> Everywhere(LOST_DEFS[i].1, Below) by {
      var b: Node := Obj(3, [("x", Null)]);
      assert FieldOf(b.fields, "$ref").None? by { assert b.fields[1..] == [] && "x"[0] != "$ref"[0]; }
      assert Everywhere(b, Below);
      assert Everywhere(LOST_INNER, Below);
    }
    assert FieldOf(LOST_DEFS, "$ref").None? by {
      assert LOST_DEFS[1..] == [("b", Obj(3, [("x", Null)]))] && LOST_DEFS[1..][1..] == [];
      assert "a"[0] != "$ref"[0] && "b"[0] != "$ref"[0];
    }
  }

  lemma {:induction false} BelowOk(n: Node)
    requires Everywhere(n, Below)
    ensures Everywhere(n, NodeOk)
  {
    match n
    case Arr(items) => forall i | 0 <= i < |items| ensures Everywhere(items[i], NodeOk) { BelowOk(items[i]); }
    case Obj(_, fields) =>
      forall i | 0 <= i < |fields| ensures Everywhere(fields[i].1, NodeOk) { BelowOk(fields[i].1); }
    case _ =>
  }

  lemma {:induction false} LostAccepted()
    ensures Accepted(LOST)
  {
    LostWrapper();
    LostParts();
    BelowOk(Str("b"));
    BelowOk(Obj(1, LOST_DEFS));
    assert LOST_DEFS[1].0 == "b";
    assert !IsPointerText("b");
    assert Everywhere(LOST_WRAPPER, NodeOk);
  }

  /** The registry holds no other wrapper. */
  lemma {:induction false} OnlyWrapper(v: Node)
    requires Occurs(LOST, v) && IsWrapper(v)
    ensures v == LOST_WRAPPER
  {
    if v != LOST_WRAPPER {
      LostParts();
      var i :| 0 <= i < |LOST_WRAPPER.fields| && Within(v, LOST_WRAPPER.fields[i].1);
      WithinHolds(v, LOST_WRAPPER.fields[i].1, Below);
    }
  }

  lemma {:induction false} LostAlone()
    ensures IsWrapper(LOST_WRAPPER) && Brings(LOST, LOST_WRAPPER, "a", LOST_INNER)
    ensures Alone(LOST, LOST_WRAPPER, "a", LOST_INNER) && EntersAnother(LOST, "a")
  {
    LostWrapper();
    assert LOST[0] in LOST && Within(LOST_WRAPPER, LOST[0].1);
    assert LOST_DEFS[0] in LOST_DEFS;
    forall v, c | Brings(LOST, v, "a", c) ensures v == LOST_WRAPPER && c == LOST_INNER { OnlyWrapper(v); }
  }

  lemma {:induction false} LostForm()
    ensures CyclicForm(LOST, LOST_INNER, KeysOf(LOST_DEFS)) == JObj([])
  {
    assert LOST[1..] == [];
    assert |Erase(LOST_WRAPPER).fields| == 2;
    assert Erase(LOST_INNER).fields == [];
    assert CyclicFields(LOST, [], KeysOf(LOST_DEFS)) == [];
  }

  /** The table generated for it: the first inner definition is lost, its name points to the other one. */
  method GenerateLost() returns (defs: map<string, Json>)
    ensures "a" in defs && defs["a"] == Pointer("b")
    ensures defs["a"] != CyclicForm(LOST, LOST_INNER, KeysOf(LOST_DEFS))
  {
    LostAccepted();
    LostWrapper();
    LostAlone();
    LostForm();
    defs := GenerateDefs(LOST);
    assert LOST[0].0 in Names(LOST);
  }

  lemma {:induction false} EachSurvives(reg: Registry, defs: map<string, Json>)
    requires Unsettled(reg, defs) == {} && forall name :: name in defs ==> HasSource(reg, name, defs[name])
    ensures forall name, w, d :: name in defs && Brings(reg, w, name, d) && Alone(reg, w, name, d) ==>
              defs[name] == if EntersAnother(reg, name) then Pointer(Entry(Find(reg, name).value))
                            else CyclicForm(reg, d, KeysOf(Inner(w)))
  {
    forall name, w, d | name in defs && Brings(reg, w, name, d) && Alone(reg, w, name, d)
      ensures defs[name] == if EntersAnother(reg, name) then Pointer(Entry(Find(reg, name).value))
                            else CyclicForm(reg, d, KeysOf(Inner(w)))
    {
      InnerSurvivesIff(reg, defs, w, name, d);
    }
  }

  lemma {:induction false} PlainTable(reg: Registry, defs: map<string, Json>)
    requires Plain(reg) && Names(reg) <= defs.Keys && forall name :: name in defs ==> HasSource(reg, name, defs[name])
    ensures defs.Keys == Names(reg)
    ensures forall name :: name in defs ==>
        Find(reg, name).Some?
        && defs[name] == Shared(reg, Find(reg, name).value, Some(name))
  {
    forall name | name in defs
      ensures name in Names(reg) && Find(reg, name).Some?
          && defs[name] == Shared(reg, Find(reg, name).value, Some(name))
    {
      PlainSource(reg, name, defs[name]);
      FindNames(reg, name);
    }
  }
}
