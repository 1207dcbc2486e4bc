/**
 * The result-list vocabulary of workflows/script_filter.py: six element
 * classes declared on top of the engine, each a direct subclass of
 * `Element`, in source order.
 */
module ScriptFilter {
  import opened Wrappers
  import opened PyObjects
  import opened XmlTree

  const TitleId: TypeId := 1
  const SubTitleId: TypeId := 2
  const IconId: TypeId := 3
  const TextId: TypeId := 4
  const ItemId: TypeId := 5
  const ItemsId: TypeId := 6

  const TitleBody := ClassBody(0, StrObj("title"), None, None, map[])
  const SubTitleBody := ClassBody(0, StrObj("subtitle"), None, Some([StrObj("mod")]), map[])
  const IconBody := ClassBody(0, StrObj("icon"), None, Some([StrObj("type")]), map[])
  const TextBody := ClassBody(0, StrObj("text"), None, Some([StrObj("type")]), map[])
  const ItemBody := ClassBody(
    0, StrObj("item"),
    Some([ElementClass(TitleId), ElementClass(SubTitleId), ElementClass(IconId), ElementClass(TextId)]),
    Some([StrObj("uid"), StrObj("arg"), StrObj("valid"), StrObj("autocomplete"), StrObj("type")]),
    map[])
  const ItemsBody := ClassBody(0, StrObj("items"), Some([ElementClass(ItemId)]), None, map[])

  /** The six classes the module defines, as the metaclass creates them. */
  const Title := NodeType(TitleId, "title", [], [], map[], {0, TitleId})
  const SubTitle := NodeType(SubTitleId, "subtitle", ["mod"], [], map["mod" := DefaultProperty], {0, SubTitleId})
  const Icon := NodeType(IconId, "icon", ["type"], [], map["type" := DefaultProperty], {0, IconId})
  const Text := NodeType(TextId, "text", ["type"], [], map["type" := DefaultProperty], {0, TextId})
  const Item := NodeType(
    ItemId, "item",
    ["uid", "arg", "valid", "autocomplete", "type"],
    [TitleId, SubTitleId, IconId, TextId],
    map["uid" := DefaultProperty, "arg" := DefaultProperty, "valid" := DefaultProperty,
        "autocomplete" := DefaultProperty, "type" := DefaultProperty],
    {0, ItemId})
  const Items := NodeType(ItemsId, "items", [], [ItemId], map[], {0, ItemsId})

  /** The class registry once the module is imported. */
  function Vocabulary(): seq<NodeType> {
    [ElementBase, Title, SubTitle, Icon, Text, Item, Items]
  }

  /** The module's class statements, in source order. */
  function Bodies(): seq<ClassBody> {
    [TitleBody, SubTitleBody, IconBody, TextBody, ItemBody, ItemsBody]
  }

  /**
   * Running class statements one after the other: the first failure
   * stops the run, and each success adds one class to the registry.
   */
  function Declare(reg: seq<NodeType>, bodies: seq<ClassBody>): (r: Result<seq<NodeType>, DeclError>)
    requires forall i :: 0 <= i < |bodies| ==> bodies[i].base < |reg|
    ensures r.Ok? ==> |r.value| == |reg| + |bodies| && r.value[..|reg|] == reg
    ensures bodies == [] ==> r == Ok(reg)
    decreases |bodies|
  {
    if bodies == [] then Ok(reg)
    else
      var next :- Register(reg, bodies[0]);
      var r := Declare(next, bodies[1..]);
      assert r.Ok? ==> r.value[..|reg|] == next[..|next|][..|reg|];
      r
  }

  /** Importing the module: the six class statements, in order, after `Element`. */
  function Load(): (r: Result<seq<NodeType>, DeclError>)
    ensures r.Ok? ==> |r.value| == 7 && r.value[0] == ElementBase
  {
    Declare([ElementBase], Bodies())
  }

  /** Every declaration of the module passes the metaclass and creates the class listed above. */
  lemma LoadYieldsVocabulary()
    ensures Load() == Ok(Vocabulary())
  {
    DeclareSuffix(1);
    assert Vocabulary()[..1] == [ElementBase];
    assert Bodies()[0..] == Bodies();
  }

  /** Running the class statements from the i-th on, after the classes before it, yields the vocabulary. */
  lemma {:induction false} DeclareSuffix(i: nat)
    requires 1 <= i <= 7
    ensures Declare(Vocabulary()[..i], Bodies()[i - 1..]) == Ok(Vocabulary())
    decreases 7 - i
  {
    var v := Vocabulary();
    if i == 7 {
      assert v[..7] == v;
    } else {
      var rest := Bodies()[i - 1..];
      assert rest[0] == BodyOf(i) && rest[1..] == Bodies()[i..];
      StepAt(i);
      DeclareSuffix(i + 1);
    }
  }

  /** The i-th class statement extends the registry of the classes before it by the i-th class. */
  lemma Step(i: nat, body: ClassBody)
    requires 1 <= i < 7 && body.base == 0
    requires WellFormed(Vocabulary()[..i], body)
    requires NewType(Vocabulary()[..i], body) == Vocabulary()[i]
    ensures Register(Vocabulary()[..i], body) == Ok(Vocabulary()[..i + 1])
  {
    var v := Vocabulary();
    assert v[..i] + [v[i]] == v[..i + 1];
  }

  lemma TitleStep() ensures Register(Vocabulary()[..TitleId], TitleBody) == Ok(Vocabulary()[..TitleId + 1])
  {
    assert NewType(Vocabulary()[..TitleId], TitleBody).ancestors == {0, TitleId};
    Step(TitleId, TitleBody);
  }

  lemma SubTitleStep() ensures Register(Vocabulary()[..SubTitleId], SubTitleBody) == Ok(Vocabulary()[..SubTitleId + 1])
  {
    var t := NewType(Vocabulary()[..SubTitleId], SubTitleBody);
    assert Names(SubTitleBody.attributes.value) == ["mod"];
    assert t.ancestors == {0, SubTitleId};
    assert t.members == map["mod" := DefaultProperty];
    Step(SubTitleId, SubTitleBody);
  }

  lemma IconStep() ensures Register(Vocabulary()[..IconId], IconBody) == Ok(Vocabulary()[..IconId + 1])
  {
    var t := NewType(Vocabulary()[..IconId], IconBody);
    assert Names(IconBody.attributes.value) == ["type"];
    assert t.ancestors == {0, IconId};
    assert t.members == map["type" := DefaultProperty];
    Step(IconId, IconBody);
  }

  lemma TextStep() ensures Register(Vocabulary()[..TextId], TextBody) == Ok(Vocabulary()[..TextId + 1])
  {
    var t := NewType(Vocabulary()[..TextId], TextBody);
    assert Names(TextBody.attributes.value) == ["type"];
    assert t.ancestors == {0, TextId};
    assert t.members == map["type" := DefaultProperty];
    Step(TextId, TextBody);
  }

  lemma ItemStep() ensures Register(Vocabulary()[..ItemId], ItemBody) == Ok(Vocabulary()[..ItemId + 1])
  {
    ItemDeclared();
    Step(ItemId, ItemBody);
  }

  /** The `Item` statement is well formed and creates the class `Item`. */
  lemma ItemDeclared()
    ensures WellFormed(Vocabulary()[..ItemId], ItemBody)
    ensures NewType(Vocabulary()[..ItemId], ItemBody) == Item
  {
    ItemWellFormed();
    ItemNames();
    ItemIds();
    var t := NewType(Vocabulary()[..ItemId], ItemBody);
    assert t.ancestors == {0, ItemId};
    ItemMembers();
  }

  lemma ItemMembers() ensures map[] + ClassDict(map[], Item.attributes) == Item.members
  {
    var d := ClassDict(map[], Item.attributes);
    assert d.Keys == Item.members.Keys;
  }

  lemma ItemWellFormed() ensures WellFormed(Vocabulary()[..ItemId], ItemBody)
  {
    var reg := Vocabulary()[..ItemId];
    forall o | o in ItemBody.subElements.value ensures IsElementClass(reg, o) {
      assert o.ElementClass? && o.id < ItemId;
    }
  }

  lemma ItemNames() ensures Names(ItemBody.attributes.value) == Item.attributes
  {
    var names := Names(ItemBody.attributes.value);
    assert names[0] == "uid" && names[1] == "arg" && names[2] == "valid";
    assert names[3] == "autocomplete" && names[4] == "type";
  }

  lemma ItemIds() ensures ClassIds(ItemBody.subElements.value) == Item.subElements
  {
    var ids := ClassIds(ItemBody.subElements.value);
    assert ids[0] == TitleId && ids[1] == SubTitleId && ids[2] == IconId && ids[3] == TextId;
  }

  lemma ItemsStep() ensures Register(Vocabulary()[..ItemsId], ItemsBody) == Ok(Vocabulary()[..ItemsId + 1])
  {
    var t := NewType(Vocabulary()[..ItemsId], ItemsBody);
    assert ClassIds(ItemsBody.subElements.value) == [ItemId];
    assert t.ancestors == {0, ItemsId};
    Step(ItemsId, ItemsBody);
  }

  /** The registry the module leaves behind is well formed. */
  lemma VocabularyRegistryValid()
    ensures ValidRegistry(Vocabulary())
  {
    PrefixValid(7);
    assert Vocabulary()[..7] == Vocabulary();
  }

  /** The class statement that creates the class with id i. */
  function BodyOf(i: nat): (body: ClassBody)
    requires 1 <= i < 7
    ensures body.base == 0
  {
    Bodies()[i - 1]
  }

  /** The i-th class statement extends the registry of the classes before it by one. */
  lemma StepAt(i: nat)
    requires 1 <= i < 7
    ensures Register(Vocabulary()[..i], BodyOf(i)) == Ok(Vocabulary()[..i + 1])
  {
    if i <= IconId { LeafStepAt(i); } else { UpperStepAt(i); }
  }

  lemma LeafStepAt(i: nat)
    requires 1 <= i <= IconId
    ensures Register(Vocabulary()[..i], BodyOf(i)) == Ok(Vocabulary()[..i + 1])
  {
    var body := BodyOf(i);
    if i == TitleId { assert body == TitleBody; TitleStep(); }
    else if i == SubTitleId { assert body == SubTitleBody; SubTitleStep(); }
    else { assert body == IconBody; IconStep(); }
  }

  lemma UpperStepAt(i: nat)
    requires TextId <= i < 7
    ensures Register(Vocabulary()[..i], BodyOf(i)) == Ok(Vocabulary()[..i + 1])
  {
    var body := BodyOf(i);
    if i == TextId { assert body == TextBody; TextStep(); }
    else if i == ItemId { assert body == ItemBody; ItemStep(); }
    else { assert body == ItemsBody; ItemsStep(); }
  }

  /** The registry after the first i - 1 class statements is well formed. */
  lemma {:induction false} PrefixValid(i: nat)
    requires 1 <= i <= 7
    ensures ValidRegistry(Vocabulary()[..i])
  {
    if i == 1 {
      assert Vocabulary()[..1] == [ElementBase];
    } else {
      PrefixValid(i - 1);
      StepAt(i - 1);
      ValidStep(i - 1, BodyOf(i - 1));
    }
  }

  /** One class statement of the module keeps the registry well formed. */
  lemma ValidStep(i: nat, body: ClassBody)
    requires 1 <= i < 7 && body.base == 0
    requires ValidRegistry(Vocabulary()[..i])
    requires Register(Vocabulary()[..i], body) == Ok(Vocabulary()[..i + 1])
    ensures ValidRegistry(Vocabulary()[..i + 1])
  {
    RegisterKeepsRegistryValid(Vocabulary()[..i], body);
  }

  /**
   * The whitelists: `Items` takes instances of `Item` (or of a subclass of
   * it), `Item` takes instances of `Title`, `SubTitle`, `Icon` and `Text`,
   * and the four leaf classes take nothing, so every append on them fails.
   */
  lemma Whitelists(c: NodeType)
    ensures Accepts(Items, c) <==> ItemId in c.ancestors
    ensures Accepts(Item, c) <==>
              TitleId in c.ancestors || SubTitleId in c.ancestors ||
              IconId in c.ancestors || TextId in c.ancestors
    ensures !Accepts(Title, c) && !Accepts(SubTitle, c) && !Accepts(Icon, c) && !Accepts(Text, c)
  {
    if TitleId in c.ancestors { assert TitleId in Item.subElements; }
    if SubTitleId in c.ancestors { assert SubTitleId in Item.subElements; }
    if IconId in c.ancestors { assert IconId in Item.subElements; }
    if TextId in c.ancestors { assert TextId in Item.subElements; }
    if ItemId in c.ancestors { assert ItemId in Items.subElements; }
  }

  /** Among the module's own classes, `Items` takes only `Item` and `Item` only the four leaves. */
  lemma WhitelistsWithinVocabulary(i: TypeId)
    requires i < |Vocabulary()|
    ensures Accepts(Items, Vocabulary()[i]) <==> i == ItemId
    ensures Accepts(Item, Vocabulary()[i]) <==> TitleId <= i <= TextId
  {
    Whitelists(Vocabulary()[i]);
  }

  /** The element is an instance of one of the module's classes, not of a further subclass. */
  ghost predicate OfVocabulary(e: Element)
    reads e
  {
    e.kind.id < |Vocabulary()| && e.kind == Vocabulary()[e.kind.id]
  }

  /** Every element of the tree below `e` is an instance of one of the module's classes. */
  ghost predicate MadeOfVocabulary(e: Element)
    reads e, e.Repr
  {
    forall x :: x in e.Repr ==> OfVocabulary(x)
  }

  /** Levels a tree may have below (and including) an instance of class `id`. */
  function Levels(id: TypeId): nat {
    if id == ItemsId then 3 else if id == ItemId then 2 else 1
  }

  /** A child the whitelist admits sits one level lower than its parent. */
  lemma ChildLevel(p: NodeType, c: NodeType)
    requires p.id < |Vocabulary()| && p == Vocabulary()[p.id]
    requires c.id < |Vocabulary()| && c == Vocabulary()[c.id]
    requires Accepts(p, c)
    ensures Levels(c.id) < Levels(p.id)
  {
    var t :| t in p.subElements && t in c.ancestors;
  }

  /**
   * Built from the module's classes, a tree rooted at `Items` is at most
   * three levels deep (items, item, leaf), one rooted at `Item` at most
   * two, and a leaf element has no children.
   */
  lemma {:induction false} VocabularyTreeHeight(e: Element)
    requires e.Valid() && MadeOfVocabulary(e)
    ensures Height(e.Build()) <= Levels(e.kind.id)
    decreases e.Repr
  {
    var n := e.Build();
    forall i | 0 <= i < |e.children|
      ensures Height(n.children[i]) <= Levels(e.kind.id) - 1
    {
      var c := e.children[i];
      assert c.Repr < e.Repr;
      VocabularyTreeHeight(c);
      ChildLevel(e.kind, c.kind);
    }
    HeightAtMost(n, Levels(e.kind.id));
  }

  /** The module defines no accessors of its own: every declared attribute is pass-through. */
  lemma VocabularyPassThrough(i: TypeId)
    requires i < |Vocabulary()|
    ensures PassThrough(Vocabulary()[i])
  {
    var k := Vocabulary()[i];
    forall a | a in k.attributes ensures !AccessorOf(k, a).Property? {
      assert a in k.members && k.members[a] == DefaultProperty;
    }
  }

  /** Keyword arguments that all name declared attributes of `k` and none is None come back as its `attributes`. */
  lemma AttributesAreKeywords(k: NodeType, kwargs: map<string, PyObject>)
    requires PassThrough(k)
    requires forall a :: a in kwargs ==> a in k.attributes && kwargs[a] != NoneObj
    ensures AttributesOf(k, InitialSlots(k, kwargs)) == kwargs
  {
    AttributesAfterInit(k, kwargs);
    var m := map a | a in kwargs && a in k.attributes && kwargs[a] != NoneObj :: kwargs[a];
    assert m.Keys == kwargs.Keys;
  }

  /** The output tree of one leaf element made from keyword arguments that all name declared attributes. */
  lemma LeafBuild(e: Element, kwargs: map<string, PyObject>)
    requires e.Valid() && e.children == [] && e.kind.id < |Vocabulary()| && e.kind == Vocabulary()[e.kind.id]
    requires e.slots == InitialSlots(e.kind, kwargs) && Truthy(e.text)
    requires forall a :: a in kwargs ==> a in e.kind.attributes && kwargs[a] != NoneObj
    ensures e.Build() == XmlNode(e.kind.elementName, kwargs, Some(e.text), [])
  {
    VocabularyPassThrough(e.kind.id);
    AttributesAreKeywords(e.kind, kwargs);
  }

  /** The expected output of the first item of the repository's script-filter test. */
  function DesktopItemNode(): XmlNode {
    XmlNode("item",
            map["uid" := StrObj("desktop"), "arg" := StrObj("~/Desktop"), "valid" := BoolObj(true),
                "autocomplete" := StrObj("Desktop"), "type" := StrObj("file")],
            None,
            [XmlNode("title", map[], Some(StrObj("Desktop")), []),
             XmlNode("subtitle", map[], Some(StrObj("~/Desktop")), []),
             XmlNode("icon", map["type" := StrObj("fileicon")], Some(StrObj("~/Desktop")), [])])
  }

  /**
   * The first item of the repository's script-filter test: an `Item` with five
   * attributes and `Title`, `SubTitle` and `Icon` children, in a result
   * list. `valid=True` is stored as given: no accessor converts it.
   */
  method DesktopResultList() returns (root: Element)
    ensures root.Valid()
    ensures root.Build() == XmlNode("items", map[], None, [DesktopItemNode()])
  {
    var item, title, subtitle, icon;
    root, item, title, subtitle, icon := AssembleDesktop();
    DesktopTree(root, item, title, subtitle, icon);
  }

  /** The calls of the test: the item and its three children, appended in order, then the list. */
  method AssembleDesktop() returns (root: Element, item: Element, title: Element, subtitle: Element, icon: Element)
    ensures DesktopShape(root, item, title, subtitle, icon)
  {
    item, title, subtitle, icon := AssembleDesktopItem();
    root := new Element(Items, NoneObj, map[]);
    Whitelists(Item);
    var r := root.Append(item);
  }

  /** The item of the test with its `Title`, `SubTitle` and `Icon` children. */
  method AssembleDesktopItem() returns (item: Element, title: Element, subtitle: Element, icon: Element)
    ensures DesktopItemShape(item, title, subtitle, icon) && fresh(item.Repr)
  {
    title, subtitle, icon := DesktopLeaves();
    item := new Element(Item, NoneObj, map["uid" := StrObj("desktop"), "arg" := StrObj("~/Desktop"),
                                           "valid" := BoolObj(true), "autocomplete" := StrObj("Desktop"),
                                           "type" := StrObj("file")]);
    Whitelists(Title);
    Whitelists(SubTitle);
    Whitelists(Icon);
    var r := item.Append(title);
    r := item.Append(subtitle);
    r := item.Append(icon);
  }

  /** The three leaves of the test's item, each a fresh childless element. */
  method DesktopLeaves() returns (title: Element, subtitle: Element, icon: Element)
    ensures fresh(title) && fresh(subtitle) && fresh(icon)
    ensures title.Valid() && title.Repr == {title} && title.children == []
    ensures subtitle.Valid() && subtitle.Repr == {subtitle} && subtitle.children == []
    ensures icon.Valid() && icon.Repr == {icon} && icon.children == []
    ensures title.kind == Title && subtitle.kind == SubTitle && icon.kind == Icon
    ensures title.text == StrObj("Desktop") && subtitle.text == StrObj("~/Desktop") && icon.text == StrObj("~/Desktop")
    ensures title.slots == InitialSlots(Title, map[]) && subtitle.slots == InitialSlots(SubTitle, map[])
    ensures icon.slots == InitialSlots(Icon, map["type" := StrObj("fileicon")])
  {
    title := new Element(Title, StrObj("Desktop"), map[]);
    subtitle := new Element(SubTitle, StrObj("~/Desktop"), map[]);
    icon := new Element(Icon, StrObj("~/Desktop"), map["type" := StrObj("fileicon")]);
  }

  /** The item of the test, its children linked and every element initialised as in the test. */
  ghost predicate DesktopItemShape(item: Element, title: Element, subtitle: Element, icon: Element)
    reads item, title, subtitle, icon, item.Repr
  {
    && item.Valid() && item.children == [title, subtitle, icon]
    && title.children == [] && subtitle.children == [] && icon.children == []
    && item.kind == Item && title.kind == Title && subtitle.kind == SubTitle && icon.kind == Icon
    && item.text == NoneObj
    && title.text == StrObj("Desktop") && subtitle.text == StrObj("~/Desktop") && icon.text == StrObj("~/Desktop")
    && item.slots == InitialSlots(Item, map["uid" := StrObj("desktop"), "arg" := StrObj("~/Desktop"),
                                            "valid" := BoolObj(true), "autocomplete" := StrObj("Desktop"),
                                            "type" := StrObj("file")])
    && title.slots == InitialSlots(Title, map[]) && subtitle.slots == InitialSlots(SubTitle, map[])
    && icon.slots == InitialSlots(Icon, map["type" := StrObj("fileicon")])
  }

  /** The whole list of the test: `Items` holding the item. */
  ghost predicate DesktopShape(root: Element, item: Element, title: Element, subtitle: Element, icon: Element)
    reads root, item, title, subtitle, icon, root.Repr, item.Repr
  {
    && root.Valid() && root.children == [item] && root.kind == Items && root.text == NoneObj
    && root.slots == InitialSlots(Items, map[])
    && DesktopItemShape(item, title, subtitle, icon)
  }

  /** The output of the tree `AssembleDesktop` builds. */
  lemma DesktopTree(root: Element, item: Element, title: Element, subtitle: Element, icon: Element)
    requires DesktopShape(root, item, title, subtitle, icon)
    ensures root.Build() == XmlNode("items", map[], None, [DesktopItemNode()])
  {
    assert root.children[0] == item && item.Valid();
    DesktopItemTree(item, title, subtitle, icon);
    VocabularyPassThrough(ItemsId);
    AttributesAreKeywords(Items, map[]);
  }

  /** The output of the item `AssembleDesktopItem` builds. */
  lemma DesktopItemTree(item: Element, title: Element, subtitle: Element, icon: Element)
    requires DesktopItemShape(item, title, subtitle, icon)
    ensures item.Build() == DesktopItemNode()
  {
    DesktopItemChildren(item, title, subtitle, icon);
    DesktopItemAttributes(item, title, subtitle, icon);
  }

  /** The attributes of the item `AssembleDesktopItem` builds. */
  lemma DesktopItemAttributes(item: Element, title: Element, subtitle: Element, icon: Element)
    requires DesktopItemShape(item, title, subtitle, icon)
    ensures item.Build().attrib == DesktopItemNode().attrib
  {
    VocabularyPassThrough(ItemId);
    AttributesAreKeywords(Item, DesktopItemNode().attrib);
  }

  /** The children of the item `AssembleDesktopItem` builds. */
  lemma DesktopItemChildren(item: Element, title: Element, subtitle: Element, icon: Element)
    requires DesktopItemShape(item, title, subtitle, icon)
    ensures item.Build().children == DesktopItemNode().children
  {
    assert item.children[0] == title && title.Valid();
    assert item.children[1] == subtitle && subtitle.Valid();
    assert item.children[2] == icon && icon.Valid();
    LeafBuild(title, map[]);
    LeafBuild(subtitle, map[]);
    LeafBuild(icon, map["type" := StrObj("fileicon")]);
  }
}
