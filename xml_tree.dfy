/**
 * The declarative element engine of workflows/commons/xml_tree.py.
 *
 * A node type (a Python class created by the metaclass `ElementMeta`) is a
 * `NodeType` value kept in a registry: the classes declared so far, indexed
 * by their `TypeId`, with the base class `Element` at index 0. Declaring a
 * class validates its body and installs default accessors (`Declaration`,
 * `NewClass`, `Register`). Instances are objects of the class `Element`,
 * which keeps the ordered child list, checks the child whitelist on
 * `Append` and turns a tree into an abstract `XmlNode` with `Build`.
 */
module XmlTree {
  import opened Wrappers
  import opened PyObjects

  // ---------------------------------------------------------------------
  // Node types (classes) and their declaration
  // ---------------------------------------------------------------------

  /** What a class dictionary holds under an attribute's name. */
  datatype Member =
    | DefaultProperty                                                   // the pass-through property ElementMeta installs
    | Property(store: PyObject -> PyObject, load: PyObject -> PyObject) // a property the class defines itself
    | Plain                                                             // any other class member (method, constant)

  /** An element class, as created by `ElementMeta`. */
  datatype NodeType = NodeType(
    id: TypeId,                    // its index in the registry
    elementName: string,           // __element_name__
    attributes: seq<string>,       // __attributes__ (own, else inherited)
    subElements: seq<TypeId>,      // __sub_elements__ (own, else inherited)
    members: map<string, Member>,  // attribute lookup along the base chain
    ancestors: set<TypeId>)        // the class and all its base classes

  /** The class `Element` itself: element name '', no attributes, no children. */
  const ElementBase: NodeType := NodeType(0, "", [], [], map[], {0})

  /**
   * The body of a `class X(Base):` statement, as the metaclass sees it.
   * An entry the body does not set is `NoneObj` (for the element name,
   * which `dict.get` then returns) or `None` (for the two lists, which are
   * then inherited from the base class).
   */
  datatype ClassBody = ClassBody(
    base: TypeId,
    elementName: PyObject,
    subElements: Option<seq<PyObject>>,
    attributes: Option<seq<PyObject>>,
    members: map<string, Member>)

  /** The ValueError raised by `ElementMeta.__new__`; the payload is the value its message names. */
  datatype DeclError =
    | ElementNameNotStr(found: PyObject)
    | SubElementNotClass(found: PyObject)
    | AttributeNotStr(found: PyObject)

  /** `isinstance(o, ElementMeta)`: `o` is one of the classes declared so far. */
  predicate IsElementClass(reg: seq<NodeType>, o: PyObject) {
    o.ElementClass? && o.id < |reg|
  }

  /** A class body passes every check of the metaclass. */
  predicate WellFormed(reg: seq<NodeType>, body: ClassBody) {
    && body.elementName.StrObj?
    && (forall o :: o in body.subElements.GetOr([]) ==> IsElementClass(reg, o))
    && (forall o :: o in body.attributes.GetOr([]) ==> o.StrObj?)
  }

  /** Index of the first entry of `xs` that is not an element class, or |xs|. */
  function FirstNonClass(reg: seq<NodeType>, xs: seq<PyObject>): (k: nat)
    ensures k <= |xs|
    ensures forall j :: 0 <= j < k ==> IsElementClass(reg, xs[j])
    ensures k < |xs| ==> !IsElementClass(reg, xs[k])
    ensures k == |xs| <==> forall o :: o in xs ==> IsElementClass(reg, o)
  {
    if xs == [] then 0
    else if !IsElementClass(reg, xs[0]) then 0
    else 1 + FirstNonClass(reg, xs[1..])
  }

  /** Index of the first entry of `xs` that is not a `str`, or |xs|. */
  function FirstNonStr(xs: seq<PyObject>): (k: nat)
    ensures k <= |xs|
    ensures forall j :: 0 <= j < k ==> xs[j].StrObj?
    ensures k < |xs| ==> !xs[k].StrObj?
    ensures k == |xs| <==> forall o :: o in xs ==> o.StrObj?
  {
    if xs == [] then 0
    else if !xs[0].StrObj? then 0
    else 1 + FirstNonStr(xs[1..])
  }

  /** The strings of a list of `str` objects. */
  function Names(xs: seq<PyObject>): (names: seq<string>)
    requires forall o :: o in xs ==> o.StrObj?
    ensures |names| == |xs|
    ensures forall k :: 0 <= k < |xs| ==> StrObj(names[k]) == xs[k]
  {
    if xs == [] then [] else [xs[0].s] + Names(xs[1..])
  }

  /** The type ids of a list of class objects. */
  function ClassIds(xs: seq<PyObject>): (ids: seq<TypeId>)
    requires forall o :: o in xs ==> o.ElementClass?
    ensures |ids| == |xs|
    ensures forall k :: 0 <= k < |xs| ==> ElementClass(ids[k]) == xs[k]
  {
    if xs == [] then [] else [xs[0].id] + ClassIds(xs[1..])
  }

  /**
   * The class dictionary after the metaclass has run: the body's own
   * members, plus a default property for every declared attribute name
   * the body does not define.
   */
  function ClassDict(members: map<string, Member>, names: seq<string>): (d: map<string, Member>)
    ensures d.Keys == members.Keys + set a | a in names
    ensures forall a :: a in members ==> d[a] == members[a]
    ensures forall a :: a in names && a !in members ==> d[a] == DefaultProperty
  {
    members + map a | a in names && a !in members :: DefaultProperty
  }

  /**
   * `type.__new__`: the class a well-formed body creates, with the next
   * free id. It is a subclass of its base, and the two lists are the
   * body's own, converted entry by entry, or else inherited from the base.
   */
  function NewType(reg: seq<NodeType>, body: ClassBody): (t: NodeType)
    requires body.base < |reg|
    requires WellFormed(reg, body)
    ensures t.id == |reg| && StrObj(t.elementName) == body.elementName
    ensures t.id in t.ancestors && reg[body.base].ancestors <= t.ancestors
    ensures body.attributes.None? ==> t.attributes == reg[body.base].attributes
    ensures body.attributes.Some? ==>
              |t.attributes| == |body.attributes.value| &&
              forall i :: 0 <= i < |t.attributes| ==> StrObj(t.attributes[i]) == body.attributes.value[i]
    ensures body.subElements.None? ==> t.subElements == reg[body.base].subElements
    ensures body.subElements.Some? ==>
              |t.subElements| == |body.subElements.value| &&
              forall i :: 0 <= i < |t.subElements| ==> ElementClass(t.subElements[i]) == body.subElements.value[i]
  {
    var base := reg[body.base];
    var names := Names(body.attributes.GetOr([]));
    var ids := ClassIds(body.subElements.GetOr([]));
    NodeType(
      |reg|,
      body.elementName.s,
      if body.attributes.Some? then names else base.attributes,
      if body.subElements.Some? then ids else base.subElements,
      base.members + ClassDict(body.members, names),
      {|reg|} + base.ancestors)
  }

  /**
   * `ElementMeta.__new__`: the element name must be a `str`, every
   * whitelisted child must be an element class, every attribute name must
   * be a `str`, checked in that order; the error names the first offence.
   */
  function Declaration(reg: seq<NodeType>, body: ClassBody): (r: Result<NodeType, DeclError>)
    requires body.base < |reg|
    ensures r.Ok? <==> WellFormed(reg, body)
    ensures r.Err? && r.error.ElementNameNotStr? <==> !body.elementName.StrObj?
    ensures r.Err? && r.error.ElementNameNotStr? ==> r.error.found == body.elementName
    ensures r.Err? && r.error.SubElementNotClass? ==>
              body.elementName.StrObj? && r.error.found in body.subElements.GetOr([]) &&
              !IsElementClass(reg, r.error.found)
    ensures r.Err? && r.error.AttributeNotStr? ==>
              body.elementName.StrObj? &&
              (forall o :: o in body.subElements.GetOr([]) ==> IsElementClass(reg, o)) &&
              r.error.found in body.attributes.GetOr([]) && !r.error.found.StrObj?
    ensures r.Ok? ==> r.value.id == |reg| && body.elementName == StrObj(r.value.elementName)
  {
    var subs := body.subElements.GetOr([]);
    var attrs := body.attributes.GetOr([]);
    var i := FirstNonClass(reg, subs);
    var j := FirstNonStr(attrs);
    if !body.elementName.StrObj? then Err(ElementNameNotStr(body.elementName))
    else if i < |subs| then Err(SubElementNotClass(subs[i]))
    else if j < |attrs| then Err(AttributeNotStr(attrs[j]))
    else Ok(NewType(reg, body))
  }

  /**
   * Default accessors are installed for exactly the declared attribute
   * names the class body does not define; everything else is the body's
   * own member or is inherited from the base class.
   */
  lemma DeclarationAccessors(reg: seq<NodeType>, body: ClassBody, a: string)
    requires body.base < |reg|
    requires Declaration(reg, body).Ok?
    ensures var t := Declaration(reg, body).value;
            var declared := exists o :: o in body.attributes.GetOr([]) && o == StrObj(a);
            && (a in body.members ==> a in t.members && t.members[a] == body.members[a])
            && (a !in body.members && declared ==> a in t.members && t.members[a] == DefaultProperty)
            && (a !in body.members && !declared ==>
                  (a in t.members <==> a in reg[body.base].members) &&
                  (a in t.members ==> t.members[a] == reg[body.base].members[a]))
  {
    var attrs := body.attributes.GetOr([]);
    var names := Names(attrs);
    assert (exists o :: o in attrs && o == StrObj(a)) <==> a in names by {
      if a in names {
        var k :| 0 <= k < |names| && names[k] == a;
        assert attrs[k] in attrs && attrs[k] == StrObj(a);
      }
      if o :| o in attrs && o == StrObj(a) {
        var k :| 0 <= k < |attrs| && attrs[k] == o;
        assert names[k] == a;
      }
    }
  }

  /**
   * The metaclass itself: the two checking loops of `ElementMeta.__new__`,
   * the second of which inserts the default accessors into the class
   * dictionary as it goes.
   */
  method NewClass(reg: seq<NodeType>, body: ClassBody) returns (r: Result<NodeType, DeclError>)
    requires body.base < |reg|
    ensures r == Declaration(reg, body)
  {
    if !body.elementName.StrObj? {
      return Err(ElementNameNotStr(body.elementName));
    }

    var subs := body.subElements.GetOr([]);
    var ids: seq<TypeId> := [];
    var i := 0;
    while i < |subs|
      invariant 0 <= i <= |subs|
      invariant forall k :: 0 <= k < i ==> IsElementClass(reg, subs[k])
      invariant |ids| == i && forall k :: 0 <= k < i ==> ids[k] == subs[k].id
    {
      if !IsElementClass(reg, subs[i]) {
        assert FirstNonClass(reg, subs) == i;
        return Err(SubElementNotClass(subs[i]));
      }
      ids := ids + [subs[i].id];
      i := i + 1;
    }

    assert FirstNonClass(reg, subs) == |subs|;
    var attrs := body.attributes.GetOr([]);
    var dict := body.members;
    var names: seq<string> := [];
    var j := 0;
    while j < |attrs|
      invariant 0 <= j <= |attrs|
      invariant forall k :: 0 <= k < j ==> attrs[k].StrObj?
      invariant |names| == j && forall k :: 0 <= k < j ==> names[k] == attrs[k].s
      invariant dict == ClassDict(body.members, names)
    {
      if !attrs[j].StrObj? {
        assert FirstNonStr(attrs) == j;
        return Err(AttributeNotStr(attrs[j]));
      }
      var a := attrs[j].s;
      DictStep(body.members, names, a);
      if a !in dict {
        dict := dict[a := DefaultProperty];
      }
      names := names + [a];
      j := j + 1;
    }

    assert FirstNonStr(attrs) == |attrs|;
    assert WellFormed(reg, body);
    assert names == Names(attrs);
    assert ids == ClassIds(subs);
    var base := reg[body.base];
    var t := NodeType(
      |reg|,
      body.elementName.s,
      if body.attributes.Some? then names else base.attributes,
      if body.subElements.Some? then ids else base.subElements,
      base.members + dict,
      {|reg|} + base.ancestors);
    assert t == NewType(reg, body);
    r := Ok(t);
  }

  /** One step of the accessor-installing loop: testing the dictionary or the body gives the same dictionary. */
  lemma DictStep(members: map<string, Member>, names: seq<string>, a: string)
    ensures a !in ClassDict(members, names) ==> ClassDict(members, names)[a := DefaultProperty] == ClassDict(members, names + [a])
    ensures a in ClassDict(members, names) ==> ClassDict(members, names) == ClassDict(members, names + [a])
  {
    var d, d' := ClassDict(members, names), ClassDict(members, names + [a]);
    assert d'.Keys == d.Keys + {a};
  }

  /** Running a class statement: on success the new class joins the registry. */
  function Register(reg: seq<NodeType>, body: ClassBody): (r: Result<seq<NodeType>, DeclError>)
    requires body.base < |reg|
    ensures r.Ok? <==> WellFormed(reg, body)
    ensures r.Ok? ==> r.value == reg + [NewType(reg, body)]
  {
    var t :- Declaration(reg, body);
    Ok(reg + [t])
  }

  /** A class registry as the metaclass builds it up. */
  ghost predicate ValidRegistry(reg: seq<NodeType>) {
    && |reg| > 0
    && reg[0] == ElementBase
    && forall i :: 0 <= i < |reg| ==> WellPlaced(reg[i], i)
  }

  /**
   * The class at index i knows its own id, descends from `Element`, has
   * only earlier classes as bases, and whitelists only earlier classes.
   */
  ghost predicate WellPlaced(t: NodeType, i: nat) {
    && t.id == i
    && i in t.ancestors
    && 0 in t.ancestors
    && (forall a :: a in t.ancestors ==> a <= i)
    && (forall s :: s in t.subElements ==> s < i)
  }

  /** Declaring a class keeps the registry well formed. */
  lemma RegisterKeepsRegistryValid(reg: seq<NodeType>, body: ClassBody)
    requires ValidRegistry(reg)
    requires body.base < |reg|
    requires Register(reg, body).Ok?
    ensures ValidRegistry(Register(reg, body).value)
  {
    var t := Declaration(reg, body).value;
    var reg' := Register(reg, body).value;
    assert reg' == reg + [t];
    var base := reg[body.base];
    assert WellPlaced(base, body.base);
    assert forall s :: s in t.subElements ==> s < |reg| by {
      if body.subElements.Some? {
        var subs := body.subElements.value;
        forall s | s in t.subElements ensures s < |reg| {
          var k :| 0 <= k < |t.subElements| && t.subElements[k] == s;
          assert subs[k] in subs;
        }
      }
    }
    assert WellPlaced(t, |reg|);
    forall i | 0 <= i < |reg'| ensures WellPlaced(reg'[i], i) {
      if i < |reg| {
        assert reg'[i] == reg[i];
      }
    }
  }

  // ---------------------------------------------------------------------
  // Attribute access
  // ---------------------------------------------------------------------

  /** The member that attribute access on an instance of `k` goes through. */
  function AccessorOf(k: NodeType, a: string): Member {
    if a in k.members then k.members[a] else Plain
  }

  /** What `setattr(self, a, v)` leaves in the attribute's storage. */
  function StoredValue(k: NodeType, a: string, v: PyObject): PyObject {
    match AccessorOf(k, a)
    case Property(store, _) => store(v)
    case _ => v
  }

  /** `setattr(self, a, v)`: a property's setter, otherwise the pass-through `setter(a)`. */
  function Store(k: NodeType, slots: map<string, PyObject>, a: string, v: PyObject): (r: map<string, PyObject>)
    ensures r.Keys == slots.Keys + {a}
    ensures forall b :: b in slots && b != a ==> r[b] == slots[b]
    ensures !AccessorOf(k, a).Property? ==> Load(k, r, a) == v
  {
    slots[a := StoredValue(k, a, v)]
  }

  /**
   * `getattr(self, a)`: a property's getter, otherwise the pass-through
   * `getter(a)`, which returns what the attribute's storage holds.
   */
  function Load(k: NodeType, slots: map<string, PyObject>, a: string): (v: PyObject)
    requires a in slots
    ensures !AccessorOf(k, a).Property? ==> v == slots[a]
  {
    match AccessorOf(k, a)
    case Property(_, load) => load(slots[a])
    case _ => slots[a]
  }

  /** Every declared attribute has storage. */
  predicate Complete(k: NodeType, slots: map<string, PyObject>) {
    forall a :: a in k.attributes ==> a in slots
  }

  /** The storage `__init__` leaves: every declared attribute set from the keywords, or to None. */
  function InitialSlots(k: NodeType, kwargs: map<string, PyObject>): (slots: map<string, PyObject>)
    ensures Complete(k, slots)
    ensures slots.Keys == set a | a in k.attributes
  {
    map a | a in k.attributes :: StoredValue(k, a, KwArg(kwargs, a))
  }

  /** The `attributes` property: the declared attributes whose value is not None. */
  function AttributesOf(k: NodeType, slots: map<string, PyObject>): (m: map<string, PyObject>)
    requires Complete(k, slots)
    ensures forall a :: a in m <==> a in k.attributes && Load(k, slots, a) != NoneObj
    ensures forall a :: a in m ==> m[a] == Load(k, slots, a)
    ensures NoneObj !in m.Values
  {
    map a | a in k.attributes && Load(k, slots, a) != NoneObj :: Load(k, slots, a)
  }

  /** A class whose declared attributes all use pass-through accessors. */
  predicate PassThrough(k: NodeType) {
    forall a :: a in k.attributes ==> !AccessorOf(k, a).Property?
  }

  /**
   * For a class without custom accessors, a fresh instance's `attributes`
   * are exactly the keyword arguments that name a declared attribute and
   * are not None: other keywords are ignored.
   */
  lemma AttributesAfterInit(k: NodeType, kwargs: map<string, PyObject>)
    requires PassThrough(k)
    ensures AttributesOf(k, InitialSlots(k, kwargs)) ==
            map a | a in kwargs && a in k.attributes && kwargs[a] != NoneObj :: kwargs[a]
  {
    var slots := InitialSlots(k, kwargs);
    var m := AttributesOf(k, slots);
    var want := map a | a in kwargs && a in k.attributes && kwargs[a] != NoneObj :: kwargs[a];
    forall a | a in k.attributes
      ensures Load(k, slots, a) == KwArg(kwargs, a)
    {
      assert slots[a] == StoredValue(k, a, KwArg(kwargs, a));
    }
    assert m.Keys == want.Keys;
  }

  // ---------------------------------------------------------------------
  // Whitelist and output tree
  // ---------------------------------------------------------------------

  /** `isinstance(child, tuple(parent.__sub_elements__))` for an element `child`. */
  predicate Accepts(parent: NodeType, child: NodeType)
    ensures parent.subElements == [] ==> !Accepts(parent, child)
    ensures child.id in parent.subElements && child.id in child.ancestors ==> Accepts(parent, child)
  {
    exists t :: t in parent.subElements && t in child.ancestors
  }

  /** The TypeError raised by `append`: the whitelist and the rejected element's class. */
  datatype AppendError = NotAllowed(allowed: seq<TypeId>, found: TypeId)

  /** The generic XML node `build` produces (an ElementTree element, abstractly). */
  datatype XmlNode = XmlNode(
    tag: string,
    attrib: map<string, PyObject>,
    text: Option<PyObject>,
    children: seq<XmlNode>)

  /** The largest number in a list, 0 for an empty one. */
  function MaxOf(xs: seq<nat>): (m: nat)
    ensures forall i :: 0 <= i < |xs| ==> xs[i] <= m
    ensures xs == [] ==> m == 0
    ensures xs != [] ==> exists i :: 0 <= i < |xs| && m == xs[i]
  {
    if xs == [] then 0
    else
      var rest := MaxOf(xs[1..]);
      if xs[0] >= rest then xs[0] else rest
  }

  /** Number of levels of an output tree: 1 for a node without children. */
  function Height(n: XmlNode): (h: nat)
    decreases n
  {
    1 + MaxOf(seq(|n.children|, i requires 0 <= i < |n.children| => Height(n.children[i])))
  }

  /** A node is at most h levels high when each of its children is at most h - 1. */
  lemma HeightAtMost(n: XmlNode, h: nat)
    requires h >= 1
    requires forall i :: 0 <= i < |n.children| ==> Height(n.children[i]) <= h - 1
    ensures Height(n) <= h
  {
    var hs := seq(|n.children|, i requires 0 <= i < |n.children| => Height(n.children[i]));
    if hs != [] {
      var i :| 0 <= i < |hs| && MaxOf(hs) == hs[i];
    }
  }

  // ---------------------------------------------------------------------
  // Instances
  // ---------------------------------------------------------------------

  /**
   * An instance of an element class. `text` and `children` are the
   * read-only properties `text` and `sub_elements`; `slots` is the
   * per-instance storage behind the attribute accessors.
   */
  class Element {
    const kind: NodeType
    const text: PyObject
    var children: seq<Element>
    var slots: map<string, PyObject>
    ghost var Repr: set<Element>

    /**
     * The element and everything below it: no element is its own
     * descendant, and every child passed the whitelist when appended.
     */
    ghost predicate Valid()
      reads this, Repr
      decreases Repr
    {
      && this in Repr
      && Complete(kind, slots)
      && forall i :: 0 <= i < |children| ==>
           && children[i] in Repr
           && children[i].Repr <= Repr
           && this !in children[i].Repr
           && Accepts(kind, children[i].kind)
           && children[i].Valid()
    }

    /** `__init__(self, text=None, **kwargs)` */
    constructor (kind: NodeType, text: PyObject, kwargs: map<string, PyObject>)
      ensures Valid() && Repr == {this}
      ensures this.kind == kind && this.text == text && children == []
      ensures slots == InitialSlots(kind, kwargs)
    {
      this.kind := kind;
      this.text := text;
      children := [];
      slots := map[];
      Repr := {this};
      new;
      var i := 0;
      while i < |kind.attributes|
        invariant 0 <= i <= |kind.attributes|
        invariant children == [] && Repr == {this}
        invariant slots == map a | a in kind.attributes[..i] :: StoredValue(kind, a, KwArg(kwargs, a))
      {
        var a := kind.attributes[i];
        assert kind.attributes[..i + 1] == kind.attributes[..i] + [a];
        slots := Store(kind, slots, a, KwArg(kwargs, a));
        i := i + 1;
      }
      assert kind.attributes[..i] == kind.attributes;
    }

    /** `getattr(self, a)`: through the default accessor, what the attribute's storage holds. */
    function GetAttr(a: string): (v: PyObject)
      reads this
      requires a in slots
      ensures !AccessorOf(kind, a).Property? ==> v == slots[a]
    {
      Load(kind, slots, a)
    }

    /** `setattr(self, a, v)`; with a pass-through accessor, reading `a` gives back `v`. */
    method SetAttr(a: string, v: PyObject)
      requires Valid()
      modifies this`slots
      ensures Valid()
      ensures slots == Store(kind, old(slots), a, v)
      ensures !AccessorOf(kind, a).Property? ==> GetAttr(a) == v
      ensures forall b :: b in old(slots) && b != a ==> b in slots && GetAttr(b) == old(GetAttr(b))
    {
      slots := Store(kind, slots, a, v);
    }

    /** The `attributes` property: each declared attribute that does not read as None, with what it reads as. */
    function Attributes(): (m: map<string, PyObject>)
      reads this
      requires Complete(kind, slots)
      ensures forall a :: a in m <==> a in kind.attributes && GetAttr(a) != NoneObj
      ensures forall a :: a in m ==> a in slots && m[a] == GetAttr(a)
    {
      AttributesOf(kind, slots)
    }

    /**
     * `append(e)`: succeeds exactly when `e` is an instance of a
     * whitelisted class, adds it at the end and returns the receiver;
     * otherwise raises TypeError and changes nothing.
     */
    method Append(child: Element) returns (r: Result<Element, AppendError>)
      requires Valid()
      requires Accepts(kind, child.kind) ==> child.Valid() && this !in child.Repr
      modifies this
      ensures Valid()
      ensures r.Ok? <==> Accepts(kind, child.kind)
      ensures r.Ok? ==> r.value == this && children == old(children) + [child]
      ensures r.Ok? ==> Repr == old(Repr) + child.Repr
      ensures r.Err? ==> r.error == NotAllowed(kind.subElements, child.kind.id)
      ensures r.Err? ==> children == old(children) && Repr == old(Repr)
      ensures slots == old(slots)
    {
      if !Accepts(kind, child.kind) {
        return Err(NotAllowed(kind.subElements, child.kind.id));
      }
      children := children + [child];
      Repr := Repr + child.Repr;
      r := Ok(this);
    }

    /**
     * `build()`: tag, attributes snapshot, text only when truthy, then the
     * children built in insertion order.
     */
    function Build(): (n: XmlNode)
      reads Repr
      requires Valid()
      decreases Repr, 1, 0
      ensures n.tag == kind.elementName
      ensures n.attrib == AttributesOf(kind, slots)
      ensures n.text.Some? <==> Truthy(text)
      ensures n.text.Some? ==> n.text.value == text
      ensures |n.children| == |children|
      ensures forall i :: 0 <= i < |children| ==> n.children[i] == children[i].Build()
    {
      XmlNode(kind.elementName, AttributesOf(kind, slots),
              if Truthy(text) then Some(text) else None,
              BuildFrom(0))
    }

    /** The list comprehension over `sub_elements`, from position i on. */
    function BuildFrom(i: nat): (ns: seq<XmlNode>)
      reads Repr
      requires Valid() && i <= |children|
      decreases Repr, 0, |children| - i
      ensures |ns| == |children| - i
      ensures forall k :: 0 <= k < |ns| ==> ns[k] == children[i + k].Build()
    {
      if i == |children| then []
      else
        assert children[i].Repr < Repr;
        [children[i].Build()] + BuildFrom(i + 1)
    }
  }
}
