/**
 * The schema artifact generator (scripts/generate-protocol-schema.ts), as values: schema nodes with
 * object identity, the names they are registered under, the shared form and its inlining.
 */
module Schema {
  import opened Prelude

  /** A value of the registry. Objects have an identity besides their content. */
  datatype Node =
    | Null
    | Lit(text: string)
    | Str(text: string)
    | Arr(items: seq<Node>)
    | Obj(tag: nat, fields: seq<(string, Node)>)

  datatype Json =
    | JNull
    | JLit(text: string)
    | JStr(text: string)
    | JArr(items: seq<Json>)
    | JObj(fields: seq<(string, Json)>)

  /** `JSON.stringify`: the content without the identity. */
  function Erase(n: Node): Json {
    match n
    case Null => JNull
    case Lit(text) => JLit(text)
    case Str(text) => JStr(text)
    case Arr(items) => JArr(seq(|items|, i requires 0 <= i < |items| => Erase(items[i])))
    case Obj(_, fields) => JObj(seq(|fields|, i requires 0 <= i < |fields| => (fields[i].0, Erase(fields[i].1))))
  }

  // ----- Names

  /** The registry: names in registration order, with their schemas. */
  type Registry = seq<(string, Node)>

  function Find(reg: Registry, name: string): (r: Option<Node>)
    ensures r.Some? ==> (name, r.value) in reg
    ensures r.None? ==> forall e :: e in reg ==> e.0 != name
  {
    if reg == [] then None else if reg[0].0 == name then Some(reg[0].1) else Find(reg[1..], name)
  }

  /** The name an object is registered under first. */
  function FirstByTag(reg: Registry, tag: nat): (r: Option<string>)
    ensures r.Some? ==> exists e :: e in reg && e.0 == r.value && IsObject(e.1, tag)
  {
    if reg == [] then None
    else if IsObject(reg[0].1, tag) then assert reg[0] in reg; Some(reg[0].0)
    else FirstByTag(reg[1..], tag)
  }

  predicate IsObject(n: Node, tag: nat) { n.Obj? && n.tag == tag }

  /** The first name whose schema serializes to `content`. */
  function FirstByContent(reg: Registry, content: Json): (r: Option<string>)
    ensures r.Some? ==> exists e :: e in reg && e.0 == r.value && Erase(e.1) == content
  {
    if reg == [] then None
    else if Erase(reg[0].1) == content then assert reg[0] in reg; Some(reg[0].0)
    else FirstByContent(reg[1..], content)
  }

  /** `lookupName`: the first name of the object, else of its content; `self` names no one. */
  function LookupName(reg: Registry, n: Node, self: Option<string>): Option<string>
    requires n.Obj?
  {
    var byIdentity := FirstByTag(reg, n.tag);
    if byIdentity.Some? then (if byIdentity == self then None else byIdentity)
    else
      var byContent := FirstByContent(reg, Erase(n));
      if byContent == self then None else byContent
  }

  // ----- Every node of a schema

  ghost predicate Everywhere(n: Node, p: Node -> bool) {
    && p(n)
    && (n.Arr? ==> forall i :: 0 <= i < |n.items| ==> Everywhere(n.items[i], p))
    && (n.Obj? ==> forall i :: 0 <= i < |n.fields| ==> Everywhere(n.fields[i].1, p))
  }

  // ----- Pointers

  const PREFIX := "#/$defs/"

  function Pointer(name: string): Json { JObj([("$ref", JStr(PREFIX + name))]) }

  predicate IsPointerText(text: string) { PREFIX <= text }

  predicate IsPointer(j: Json) {
    && j.JObj? && |j.fields| == 1 && j.fields[0].0 == "$ref" && j.fields[0].1.JStr? && IsPointerText(j.fields[0].1.text)
  }

  function Target(j: Json): string
    requires IsPointer(j)
  {
    j.fields[0].1.text[|PREFIX|..]
  }

  lemma {:induction false} PointerTarget(name: string)
    ensures IsPointer(Pointer(name)) && Target(Pointer(name)) == name
  {
    assert (PREFIX + name)[|PREFIX|..] == name;
  }

  /** Every pointer inside names one of `names`. */
  ghost predicate PointsInto(j: Json, names: set<string>) {
    match j
    case JArr(items) => forall i :: 0 <= i < |items| ==> PointsInto(items[i], names)
    case JObj(fields) => if IsPointer(j) then Target(j) in names else forall i :: 0 <= i < |fields| ==>
        PointsInto(fields[i].1, names)
    case _ => true
  }

  lemma {:induction false} PointsIntoMore(j: Json, names: set<string>, more: set<string>)
    requires PointsInto(j, names) && names <= more
    ensures PointsInto(j, more)
  {
    match j
    case JArr(items) =>
      forall i | 0 <= i < |items| ensures PointsInto(items[i], more) { PointsIntoMore(items[i], names, more); }
    case JObj(fields) =>
      if !IsPointer(j) {
        forall i | 0 <= i < |fields| ensures PointsInto(fields[i].1, more) { PointsIntoMore(fields[i].1, names, more); }
      }
    case _ =>
  }

  /** No schema was written with a JSON pointer of its own. */
  predicate Unpointed(n: Node) {
    n.Obj? ==> forall i :: 0 <= i < |n.fields| && n.fields[i].0 == "$ref" && n.fields[i].1.Str? ==>
        !IsPointerText(n.fields[i].1.text)
  }

  // ----- Recursive wrappers

  function FieldOf(fields: seq<(string, Node)>, key: string): (r: Option<Node>)
    ensures r.Some? ==> exists i :: 0 <= i < |fields| && fields[i] == (key, r.value)
  {
    if fields == [] then None
    else if fields[0].0 == key then assert fields[0] == (key, fields[0].1); Some(fields[0].1)
    else
      var r := FieldOf(fields[1..], key);
      assert r.Some? ==> (key, r.value) in fields by {
        if r.Some? { assert (key, r.value) in fields[1..]; }
      }
      r
  }

  /** `Type.Cyclic`: a `$ref` beside its own `$defs`. */
  predicate IsWrapper(n: Node) {
    && n.Obj? && FieldOf(n.fields, "$ref").Some? && FieldOf(n.fields, "$ref").value.Str?
    && FieldOf(n.fields, "$defs").Some? && FieldOf(n.fields, "$defs").value.Obj?
  }

  /** The definitions a wrapper brings. */
  function Inner(n: Node): seq<(string, Node)>
    requires IsWrapper(n)
  {
    FieldOf(n.fields, "$defs").value.fields
  }

  /** The definition a wrapper enters. */
  function Entry(n: Node): string
    requires IsWrapper(n)
  {
    FieldOf(n.fields, "$ref").value.text
  }

  function KeysOf(fields: seq<(string, Node)>): set<string> { set i | 0 <= i < |fields| :: fields[i].0 }

  // ----- The shared form

  /** What a definition or a part of one becomes when no recursive wrapper occurs. */
  function Shared(reg: Registry, n: Node, self: Option<string>): Json {
    match n
    case Null => JNull
    case Lit(text) => JLit(text)
    case Str(text) => JStr(text)
    case Arr(items) => JArr(seq(|items|, i requires 0 <= i < |items| => Shared(reg, items[i], None)))
    case Obj(_, fields) =>
      var registered := LookupName(reg, n, self);
      if registered.Some? then Pointer(registered.value)
      else JObj(seq(|fields|, i requires 0 <= i < |fields| => (fields[i].0, Shared(reg, fields[i].1, None))))
  }

  /** What it becomes in general: a wrapper becomes a pointer to the definition it enters. */
  function FormOf(reg: Registry, n: Node, self: Option<string>): Json {
    match n
    case Null => JNull
    case Lit(text) => JLit(text)
    case Str(text) => JStr(text)
    case Arr(items) => JArr(seq(|items|, i requires 0 <= i < |items| => FormOf(reg, items[i], None)))
    case Obj(_, fields) =>
      var registered := LookupName(reg, n, self);
      if registered.Some? then Pointer(registered.value)
      else if IsWrapper(n) then Pointer(Entry(n))
      else JObj(seq(|fields|, i requires 0 <= i < |fields| => (fields[i].0, FormOf(reg, fields[i].1, None))))
  }

  predicate NotWrapper(n: Node) { !IsWrapper(n) }

  lemma {:induction false} PlainForm(reg: Registry, n: Node, self: Option<string>)
    requires Everywhere(n, NotWrapper)
    ensures FormOf(reg, n, self) == Shared(reg, n, self)
    decreases n
  {
    match n
    case Arr(items) =>
      forall i | 0 <= i < |items| ensures FormOf(reg, items[i], None) == Shared(reg, items[i], None) {
        PlainForm(reg, items[i], None);
      }
      assert FormOf(reg, n, self).items == Shared(reg, n, self).items;
    case Obj(_, fields) =>
      if LookupName(reg, n, self).None? {
        forall i | 0 <= i < |fields| ensures FormOf(reg, fields[i].1, None) == Shared(reg, fields[i].1, None) {
          PlainForm(reg, fields[i].1, None);
        }
        assert FormOf(reg, n, self).fields == Shared(reg, n, self).fields;
      }
    case _ =>
  }

  /** A reference by name, and nothing else, to one of the wrapper's definitions. */
  predicate NamesInner(n: Node, inner: set<string>) {
    && n.Obj? && |n.fields| == 1
    && var named := FieldOf(n.fields, "$ref");
       named.Some? && named.value.Str? && named.value.text in inner
  }

  /** The `$id` a wrapper's definition carries for itself. */
  predicate IsMarker(field: (string, Node), inner: set<string>) {
    field.0 == "$id" && field.1.Str? && field.1.text in inner
  }

  /** What a definition of a wrapper becomes: references by name turn into pointers, markers are dropped. */
  function CyclicForm(reg: Registry, n: Node, inner: set<string>): Json
    decreases n
  {
    match n
    case Null => JNull
    case Lit(text) => JLit(text)
    case Str(text) => JStr(text)
    case Arr(items) => JArr(seq(|items|, i requires 0 <= i < |items| => CyclicForm(reg, items[i], inner)))
    case Obj(_, fields) =>
      var registered := LookupName(reg, n, None);
      if registered.Some? then Pointer(registered.value)
      else if NamesInner(n, inner) then Pointer(FieldOf(fields, "$ref").value.text)
      else JObj(CyclicFields(reg, fields, inner))
  }

  function CyclicFields(reg: Registry, fields: seq<(string, Node)>, inner: set<string>): seq<(string, Json)>
    decreases fields
  {
    if fields == [] then []
    else CyclicFields(reg, fields[..|fields| - 1], inner) + CyclicField(reg, fields[|fields| - 1], inner)
  }

  function CyclicField(reg: Registry, field: (string, Node), inner: set<string>): seq<(string, Json)>
    decreases field
  {
    if IsMarker(field, inner) then [] else [(field.0, CyclicForm(reg, field.1, inner))]
  }

  // ----- Inlining

  /** Replace each pointer by the definition it names, through at most `fuel` pointers at a time. */
  function Inline(defs: map<string, Json>, j: Json, fuel: nat): Json
    decreases fuel, j
  {
    match j
    case JArr(items) => JArr(seq(|items|, i requires 0 <= i < |items| => Inline(defs, items[i], fuel)))
    case JObj(fields) =>
      if IsPointer(j) then (if fuel > 0 && Target(j) in defs then Inline(defs, defs[Target(j)], fuel - 1) else j)
      else JObj(seq(|fields|, i requires 0 <= i < |fields| => (fields[i].0, Inline(defs, fields[i].1, fuel))))
    case _ => j
  }

  function Size(j: Json): (r: nat)
    ensures r > 0
  {
    match j
    case JArr(items) => 1 + SizeItems(items)
    case JObj(fields) => 1 + SizeFields(fields)
    case _ => 1
  }

  function SizeItems(items: seq<Json>): nat { if items == [] then 0 else Size(items[0]) + SizeItems(items[1..]) }

  function SizeFields(fields: seq<(string, Json)>): nat { if fields == [] then 0
      else SizeField(fields[0]) + SizeFields(fields[1..]) }

  function SizeField(field: (string, Json)): nat { Size(field.1) }

  lemma {:induction false} ItemSmaller(items: seq<Json>, i: nat)
    requires i < |items|
    ensures Size(items[i]) <= SizeItems(items)
  {
    if i > 0 { ItemSmaller(items[1..], i - 1); }
  }

  lemma {:induction false} FieldSmaller(fields: seq<(string, Json)>, i: nat)
    requires i < |fields|
    ensures Size(fields[i].1) <= SizeFields(fields)
  {
    if i > 0 { FieldSmaller(fields[1..], i - 1); }
  }

  // ----- Sharing preserves meaning

  /** One object has one content: a node with the identity of a registered schema is that schema. */
  predicate SameObject(reg: Registry, n: Node) {
    n.Obj? ==> forall e :: e in reg && IsObject(e.1, n.tag) ==> Erase(e.1) == Erase(n)
  }

  function PlainNode(reg: Registry): Node -> bool { (n: Node) => SameObject(reg, n) && Unpointed(n) }

  /** Names are distinct, and schemas are objects with one content each. */
  ghost predicate RegistrySound(reg: Registry) {
    && (forall i, j :: 0 <= i < j < |reg| ==> reg[i].0 != reg[j].0)
    && (forall e :: e in reg ==> e.1.Obj? && SameObject(reg, e.1))
  }

  /** And no schema brings pointers of its own. */
  ghost predicate RegistryOk(reg: Registry) {
    RegistrySound(reg) && forall e :: e in reg ==> Everywhere(e.1, PlainNode(reg))
  }

  lemma {:induction false} FindEntry(reg: Registry, e: (string, Node))
    requires (forall i, j :: 0 <= i < j < |reg| ==> reg[i].0 != reg[j].0) && e in reg
    ensures Find(reg, e.0) == Some(e.1)
  {
    if reg[0] != e {
      var k :| 0 <= k < |reg| && reg[k] == e;
      assert reg[1..][k - 1] == e;
      FindEntry(reg[1..], e);
    }
  }

  /** The first name of a content is also the first name of its object. */
  lemma {:induction false} ContentFirst(reg: Registry, name: string, x: Node)
    requires forall i, j :: 0 <= i < j < |reg| ==> reg[i].0 != reg[j].0
    requires (name, x) in reg && x.Obj? && FirstByContent(reg, Erase(x)) == Some(name) && SameObject(reg, x)
    ensures FirstByTag(reg, x.tag) == Some(name)
  {
    if Erase(reg[0].1) == Erase(x) {
      FindEntry(reg, (name, x));
      FindEntry(reg, reg[0]);
    } else {
      assert reg[0] in reg;
      assert !IsObject(reg[0].1, x.tag);
      var k :| 0 <= k < |reg| && reg[k] == (name, x);
      assert reg[1..][k - 1] == (name, x);
      ContentFirst(reg[1..], name, x);
    }
  }

  /** A name looked up stands for the same content, and is written in full under its own name. */
  lemma {:induction false} LookupMeans(reg: Registry, n: Node, self: Option<string>) returns (x: Node)
    requires RegistrySound(reg) && n.Obj? && SameObject(reg, n) && LookupName(reg, n, self).Some?
    ensures var name := LookupName(reg, n, self).value;
            (name, x) in reg && Erase(x) == Erase(n) && x.Obj? && LookupName(reg, x, Some(name)) == None
  {
    var name := LookupName(reg, n, self).value;
    if FirstByTag(reg, n.tag).Some? {
      var e :| e in reg && e.0 == name && IsObject(e.1, n.tag);
      x := e.1;
    } else {
      var e :| e in reg && e.0 == name && Erase(e.1) == Erase(n);
      x := e.1;
      ContentFirst(reg, name, x);
    }
    assert (name, x) in reg;
  }

  /** Twice the size, and one more where a pointer is written. */
  function Rank(reg: Registry, n: Node, self: Option<string>): nat {
    2 * Size(Erase(n)) + if n.Obj? && LookupName(reg, n, self).Some? then 1 else 0
  }

  /** Every registered schema has its shared form. */
  ghost predicate Complete(reg: Registry, defs: map<string, Json>) {
    forall e :: e in reg ==> e.0 in defs && defs[e.0] == Shared(reg, e.1, Some(e.0))
  }

  lemma {:induction false} RankBelow(reg: Registry, n: Node, i: nat)
    requires (n.Arr? && i < |n.items|) || (n.Obj? && i < |n.fields|)
    ensures Rank(reg, if n.Arr? then n.items[i] else n.fields[i].1, None) < 2 * Size(Erase(n))
  {
    if n.Arr? { ItemSmaller(Erase(n).items, i); } else { FieldSmaller(Erase(n).fields, i); }
  }

  /** An object written in full is no pointer. */
  lemma {:induction false} WrittenInFull(reg: Registry, n: Node, self: Option<string>)
    requires n.Obj? && Unpointed(n) && LookupName(reg, n, self).None?
    ensures !IsPointer(Shared(reg, n, self))
  {
    var j := Shared(reg, n, self);
    assert |n.fields| == 1 ==> j.fields[0] == (n.fields[0].0, Shared(reg, n.fields[0].1, None));
  }

  /** The table is complete, the node brings nothing of its own, and the fuel is enough for it. */
  ghost predicate Ready(reg: Registry, defs: map<string, Json>, n: Node, self: Option<string>, fuel: nat) {
    RegistryOk(reg) && Complete(reg, defs) && Everywhere(n, PlainNode(reg)) && fuel >= Rank(reg, n, self)
  }

  lemma {:induction false} SharingInlines(reg: Registry, defs: map<string, Json>, n: Node, self: Option<string>,
      fuel: nat)
    requires Ready(reg, defs, n, self, fuel)
    ensures Inline(defs, Shared(reg, n, self), fuel) == Erase(n)
    decreases Rank(reg, n, self), 1
  {
    match n
    case Arr(_) => ItemsInline(reg, defs, n, self, fuel);
    case Obj(_, _) =>
      if LookupName(reg, n, self).Some? {
        PointerInlines(reg, defs, n, self, fuel);
      } else {
        WrittenInFull(reg, n, self);
        FieldsInline(reg, defs, n, self, fuel);
      }
    case _ =>
  }

  lemma {:induction false} ItemsInline(reg: Registry, defs: map<string, Json>, n: Node, self: Option<string>, fuel: nat)
    requires Ready(reg, defs, n, self, fuel)
    requires n.Arr?
    ensures Inline(defs, Shared(reg, n, self), fuel) == Erase(n)
    decreases Rank(reg, n, self), 0
  {
    forall i | 0 <= i < |n.items| ensures Inline(defs, Shared(reg, n.items[i], None), fuel) == Erase(n.items[i]) {
      RankBelow(reg, n, i);
      SharingInlines(reg, defs, n.items[i], None, fuel);
    }
    assert Inline(defs, Shared(reg, n, self), fuel).items == Erase(n).items;
  }

  lemma {:induction false} PointerInlines(reg: Registry, defs: map<string, Json>, n: Node, self: Option<string>,
      fuel: nat)
    requires Ready(reg, defs, n, self, fuel)
    requires n.Obj? && LookupName(reg, n, self).Some?
    ensures Inline(defs, Shared(reg, n, self), fuel) == Erase(n)
    decreases Rank(reg, n, self), 0
  {
    var name := LookupName(reg, n, self).value;
    var x := LookupMeans(reg, n, self);
    ReadyBehind(reg, defs, n, self, fuel, name, x);
    InlinePointer(defs, name, fuel);
    SharingInlines(reg, defs, x, Some(name), fuel - 1);
  }

  lemma {:induction false} LookedUpRank(reg: Registry, n: Node, self: Option<string>, name: string, x: Node)
    requires n.Obj? && x.Obj? && LookupName(reg, n, self) == Some(name) && LookupName(reg, x, Some(name)) == None
    requires Erase(x) == Erase(n)
    ensures Rank(reg, x, Some(name)) + 1 == Rank(reg, n, self) && Shared(reg, n, self) == Pointer(name)
  {
  }

  /** Behind a pointer there is less to do. */
  lemma {:induction false} ReadyBehind(reg: Registry, defs: map<string, Json>, n: Node, self: Option<string>,
      fuel: nat, name: string, x: Node)
    requires Ready(reg, defs, n, self, fuel) && n.Obj? && LookupName(reg, n, self) == Some(name)
    requires (name, x) in reg && Erase(x) == Erase(n) && LookupName(reg, x, Some(name)) == None
    ensures fuel > 0 && Ready(reg, defs, x, Some(name), fuel - 1) && Rank(reg, x, Some(name)) < Rank(reg, n, self)
    ensures Shared(reg, n, self) == Pointer(name) && name in defs && defs[name] == Shared(reg, x, Some(name))
  {
    LookedUpRank(reg, n, self, name, x);
  }

  lemma {:induction false} InlinePointer(defs: map<string, Json>, name: string, fuel: nat)
    requires name in defs && fuel > 0
    ensures Inline(defs, Pointer(name), fuel) == Inline(defs, defs[name], fuel - 1)
  {
    PointerTarget(name);
  }

  lemma {:induction false} FieldsInline(reg: Registry, defs: map<string, Json>, n: Node, self: Option<string>,
      fuel: nat)
    requires Ready(reg, defs, n, self, fuel)
    requires n.Obj? && LookupName(reg, n, self).None? && !IsPointer(Shared(reg, n, self))
    ensures Inline(defs, Shared(reg, n, self), fuel) == Erase(n)
    decreases Rank(reg, n, self), 0
  {
    forall i | 0 <= i < |n.fields| ensures Inline(defs, Shared(reg, n.fields[i].1, None), fuel) ==
        Erase(n.fields[i].1) {
      RankBelow(reg, n, i);
      SharingInlines(reg, defs, n.fields[i].1, None, fuel);
    }
    assert Inline(defs, Shared(reg, n, self), fuel).fields == Erase(n).fields;
  }

  /**
   * Sharing preserves meaning: inlining any definition ends, however much fuel is left over, and gives
   * the registered schema back.
   */
  lemma {:induction false} SharingPreservesMeaning(reg: Registry, defs: map<string, Json>, e: (string, Node), fuel: nat)
    requires RegistryOk(reg) && Complete(reg, defs) && e in reg && fuel >= Rank(reg, e.1, Some(e.0))
    ensures e.0 in defs && Inline(defs, defs[e.0], fuel) == Erase(e.1)
  {
    SharingInlines(reg, defs, e.1, Some(e.0), fuel);
  }

  // ----- What a wrapper's definition unfolds to

  /** Put back what the pointers of a hoisted definition stand for: references by name, and registered schemas. */
  function Expand(reg: Registry, inner: set<string>, j: Json): Json {
    match j
    case JArr(items) => JArr(seq(|items|, i requires 0 <= i < |items| => Expand(reg, inner, items[i])))
    case JObj(fields) =>
      if IsPointer(j) then
        (if Target(j) in inner then JObj([("$ref", JStr(Target(j)))])
         else if Find(reg, Target(j)).Some? then Erase(Find(reg, Target(j)).value) else j)
      else JObj(seq(|fields|, i requires 0 <= i < |fields| => (fields[i].0, Expand(reg, inner, fields[i].1))))
    case _ => j
  }

  /** The definition without its markers; registered schemas inside keep theirs. */
  function Unmarked(reg: Registry, n: Node, inner: set<string>): Json
    decreases n
  {
    match n
    case Null => JNull
    case Lit(text) => JLit(text)
    case Str(text) => JStr(text)
    case Arr(items) => JArr(seq(|items|, i requires 0 <= i < |items| => Unmarked(reg, items[i], inner)))
    case Obj(_, fields) =>
      if LookupName(reg, n, None).Some? || NamesInner(n, inner) then Erase(n)
      else JObj(UnmarkedFields(reg, fields, inner))
  }

  function UnmarkedFields(reg: Registry, fields: seq<(string, Node)>, inner: set<string>): seq<(string, Json)>
    decreases fields
  {
    if fields == [] then []
    else UnmarkedFields(reg, fields[..|fields| - 1], inner) + UnmarkedField(reg, fields[|fields| - 1], inner)
  }

  function UnmarkedField(reg: Registry, field: (string, Node), inner: set<string>): seq<(string, Json)>
    decreases field
  {
    if IsMarker(field, inner) then [] else [(field.0, Unmarked(reg, field.1, inner))]
  }

  /** One content per object, no pointers of its own, and no registered schema under an inner name. */
  predicate Apart(reg: Registry, inner: set<string>, n: Node) {
    && SameObject(reg, n) && Unpointed(n)
    && (n.Obj? && LookupName(reg, n, None).Some? ==> LookupName(reg, n, None).value !in inner)
  }

  function ApartFrom(reg: Registry, inner: set<string>): Node -> bool { (n: Node) => Apart(reg, inner, n) }

  function ExpandFields(reg: Registry, inner: set<string>, fields: seq<(string, Json)>): seq<(string, Json)> {
    seq(|fields|, i requires 0 <= i < |fields| => (fields[i].0, Expand(reg, inner, fields[i].1)))
  }

  /** Hoisting loses nothing but the markers: putting back what the pointers stand for gives the definition. */
  lemma {:induction false} CyclicRoundTrip(reg: Registry, n: Node, inner: set<string>)
    requires RegistrySound(reg) && Everywhere(n, ApartFrom(reg, inner))
    ensures Expand(reg, inner, CyclicForm(reg, n, inner)) == Unmarked(reg, n, inner)
    decreases n
  {
    match n
    case Arr(items) =>
      forall i | 0 <= i < |items|
        ensures Expand(reg, inner, CyclicForm(reg, items[i], inner)) == Unmarked(reg, items[i], inner)
      {
        CyclicRoundTrip(reg, items[i], inner);
      }
      assert Expand(reg, inner, CyclicForm(reg, n, inner)).items == Unmarked(reg, n, inner).items;
    case Obj(_, fields) =>
      if LookupName(reg, n, None).Some? {
        RegisteredExpands(reg, n, inner);
      } else if NamesInner(n, inner) {
        NameExpands(reg, n, inner);
      } else {
        CyclicFieldsExpand(reg, fields, inner);
        NoPointerWritten(reg, n, inner);
      }
    case _ =>
  }

  lemma {:induction false} RegisteredExpands(reg: Registry, n: Node, inner: set<string>)
    requires RegistrySound(reg) && Apart(reg, inner, n) && n.Obj? && LookupName(reg, n, None).Some?
    ensures Expand(reg, inner, CyclicForm(reg, n, inner)) == Erase(n)
  {
    var name := LookupName(reg, n, None).value;
    var x := LookupMeans(reg, n, None);
    FindEntry(reg, (name, x));
    PointerTarget(name);
  }

  lemma {:induction false} NameExpands(reg: Registry, n: Node, inner: set<string>)
    requires n.Obj? && LookupName(reg, n, None).None? && NamesInner(n, inner)
    ensures Expand(reg, inner, CyclicForm(reg, n, inner)) == Erase(n)
  {
    var text := FieldOf(n.fields, "$ref").value.text;
    PointerTarget(text);
    assert n.fields[0] == ("$ref", Str(text));
    assert Erase(n).fields == [("$ref", JStr(text))];
  }

  lemma {:induction false} CyclicFieldsExpand(reg: Registry, fields: seq<(string, Node)>, inner: set<string>)
    requires RegistrySound(reg) && forall i :: 0 <= i < |fields| ==> Everywhere(fields[i].1, ApartFrom(reg, inner))
    ensures ExpandFields(reg, inner, CyclicFields(reg, fields, inner)) == UnmarkedFields(reg, fields, inner)
    decreases fields
  {
    if fields != [] {
      var n := |fields| - 1;
      CyclicFieldsExpand(reg, fields[..n], inner);
      CyclicFieldExpands(reg, fields[n], inner);
      var a, b := CyclicFields(reg, fields[..n], inner), CyclicField(reg, fields[n], inner);
      assert ExpandFields(reg, inner, a + b) == ExpandFields(reg, inner, a) + ExpandFields(reg, inner, b);
    }
  }

  lemma {:induction false} CyclicFieldExpands(reg: Registry, field: (string, Node), inner: set<string>)
    requires RegistrySound(reg) && Everywhere(field.1, ApartFrom(reg, inner))
    ensures ExpandFields(reg, inner, CyclicField(reg, field, inner)) == UnmarkedField(reg, field, inner)
    decreases field
  {
    CyclicRoundTrip(reg, field.1, inner);
  }

  /** The fields written come from fields of the node. */
  lemma {:induction false} CyclicFieldsFrom(reg: Registry, fields: seq<(string, Node)>, inner: set<string>, k: nat)
      returns (i: nat)
    requires k < |CyclicFields(reg, fields, inner)|
    ensures i < |fields|
    ensures CyclicFields(reg, fields, inner)[k] == (fields[i].0, CyclicForm(reg, fields[i].1, inner))
    decreases fields
  {
    var n := |fields| - 1;
    var before := CyclicFields(reg, fields[..n], inner);
    if k < |before| {
      i := CyclicFieldsFrom(reg, fields[..n], inner, k);
    } else {
      i := n;
    }
  }

  lemma {:induction false} NoPointerWritten(reg: Registry, n: Node, inner: set<string>)
    requires n.Obj? && Unpointed(n)
    ensures !IsPointer(JObj(CyclicFields(reg, n.fields, inner)))
  {
    var out := CyclicFields(reg, n.fields, inner);
    if |out| == 1 {
      var i := CyclicFieldsFrom(reg, n.fields, inner, 0);
    }
  }
}
