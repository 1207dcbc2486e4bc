# Declarative XML elements for Alfred script filters, in Dafny

This project models the element engine of python-alfred-workflows. It also
models the fixed result-list vocabulary built on top of that engine.

- **Declaring a node type.** An element class is declared by setting
  `__element_name__`, `__attributes__` and `__sub_elements__` in a class
  body. The metaclass `ElementMeta` checks the declaration and installs
  pass-through accessors for the declared attributes.
- **Using instances.** An instance holds its text, one storage slot per
  declared attribute and an ordered list of child elements. `append`
  accepts only instances of the whitelisted classes. `build` turns the
  tree into an XML node: the tag, the attributes that are not None, the
  text only when it is truthy, and then the children in order.
- **The vocabulary.** `Items`, `Item`, `Title`, `SubTitle`, `Icon` and
  `Text` are declared on this engine.

Files:

- `py_objects.dfy` (`PyObjects`): the Python 2 values the engine looks at.
  A `str` is `StrObj`, a class made by `ElementMeta` is `ElementClass(id)`,
  and there is Python truth testing.
- `xml_tree.dfy` (`XmlTree`): the engine of `workflows/commons/xml_tree.py`.
  - Classes are `NodeType` values in a registry. A class's id is its index
    in the registry, and index 0 is `Element` itself.
  - A class statement is a `ClassBody`. The metaclass is the function
    `Declaration` and the method `NewClass`, which has the two checking
    loops and is proved equal to `Declaration`.
  - An instance is an object of the class `Element`. Its fields are
    `children` and `slots`, and it has a `Repr` footprint.
- `legacy_xml_tree.dfy` (`LegacyXmlTree`): the earlier copy
  `commons/xml_tree.py`. It performs the same checks, but its errors carry
  no message.
- `script_filter.dfy` (`ScriptFilter`): the six class statements of
  `workflows/script_filter.py`, the whitelists they set up, and the depth
  bound that follows from them. It also contains the first item of the
  result list in `tests/test_script_filter.py`, whose built output is proved.
- `wrappers.dfy` (`Wrappers`): `Option` and `Result`.

Behaviour of the code worth noting:

- **Whitelist check.** `append` checks `isinstance(e, tuple(__sub_elements__))`.
  An instance of a subclass of a whitelisted class is therefore accepted
  as well as an instance of the listed class itself (`Accepts`, `Whitelists`).
- **`Element`'s own name.** `Element` itself declares `__element_name__ = ''`.
  The check asks only for a `str`, so an empty name is accepted.
- **Stored values.** An attribute value is stored and built exactly as given:
  `valid=True` stays the boolean `True`, because `workflows/script_filter.py`
  declares no custom accessors.
- **Uniform vocabulary classes.** All six classes use the default
  pass-through accessors (`VocabularyPassThrough`).

## Model

| member | source | states |
|---|---|---|
| XmlTree.Declaration | workflows/commons/xml_tree.py:21-48 | Succeeds iff the element name is a `str`, every `__sub_elements__` entry is an element class and every `__attributes__` entry is a `str`. A missing element name (`dict.get` gives None) or a non-`str` one always fails with the name error. The error payload is the first offending value, checked in source order. An accepted class has the next id and a `str` element name. |
| XmlTree.FirstNonClass | workflows/commons/xml_tree.py:29-35 | The position of the first `__sub_elements__` entry that is not an element class. Every earlier entry is a class, and the result is the list's length iff all entries are classes. |
| XmlTree.FirstNonStr | workflows/commons/xml_tree.py:38-43 | The position of the first `__attributes__` entry that is not a `str`. Every earlier entry is a `str`, and the result is the list's length iff all entries are. |
| XmlTree.NewClass | workflows/commons/xml_tree.py:22-48 | The metaclass's loops, which return early on the first offence and insert an accessor into the class dictionary per attribute. The result equals `Declaration` for every body. |
| XmlTree.NewType | workflows/commons/xml_tree.py:48 | `type.__new__` creates a class with the next free id and the body's `str` name. It is an instance of its own class and of every ancestor of its base. Its attribute list and whitelist are the body's own, converted entry by entry, or else the base's when the body does not set them. |
| XmlTree.DeclarationAccessors | workflows/commons/xml_tree.py:37-46 | A declared attribute that the class body does not define gets the default property. One that the body defines keeps the body's member. Any other name is looked up in the base class. |
| XmlTree.ClassDict | workflows/commons/xml_tree.py:45-46 | The class dictionary after the accessor loop: the body's own keys plus the declared names. Own members are unchanged and new names hold the default property. |
| XmlTree.DictStep | workflows/commons/xml_tree.py:45-46 | One pass of the accessor loop adds one name to the dictionary that the loop has built so far. |
| XmlTree.Register | workflows/commons/xml_tree.py:21-48 | A class statement succeeds iff the body is well formed. On success it extends the registry by exactly the new class. |
| XmlTree.RegisterKeepsRegistryValid | workflows/commons/xml_tree.py:21-48 | Declaring a class keeps every class's own id in its ancestors, keeps `Element` as a base of every class, and keeps every whitelist pointing at earlier classes. |
| XmlTree.Store | workflows/commons/xml_tree.py:13-18 | `setattr` changes only the attribute set. Through the pass-through setter, reading the attribute back gives exactly the value set. |
| XmlTree.Load | workflows/commons/xml_tree.py:5-10 | Through the default accessor, `getattr` returns exactly what the attribute's storage holds. |
| XmlTree.Element.SetAttr | workflows/commons/xml_tree.py:5-18 | Setting an attribute through the default accessor and then getting it returns exactly the value set. Every other attribute reads as before, and the tree stays valid. |
| XmlTree.Element.GetAttr | workflows/commons/xml_tree.py:114 | `getattr(self, a)` on an instance: through the default accessor, the value the attribute's storage holds. |
| XmlTree.InitialSlots | workflows/commons/xml_tree.py:97-98 | After `__init__`, exactly the declared attributes have storage. Each is set from its keyword, or from None when the keyword is absent. |
| XmlTree.Element.constructor | workflows/commons/xml_tree.py:93-98 | A new element has the given text and an empty child list. Every declared attribute is set from the keyword arguments, or to None. The earlier copy's `__init__` (commons/xml_tree.py lines 47-52) is the same code. |
| XmlTree.AttributesOf | workflows/commons/xml_tree.py:107-115 | `attributes` holds exactly the declared attributes whose current value is not None, with those values. It never holds None. The earlier copy's comprehension (commons/xml_tree.py lines 61-64) is the same. |
| XmlTree.Element.Attributes | workflows/commons/xml_tree.py:107-115 | The `attributes` property of an instance holds an attribute iff it is declared and reads as something other than None, and then holds what it reads as. |
| XmlTree.AttributesAfterInit | workflows/commons/xml_tree.py:93-115 | Without custom accessors, a fresh element's `attributes` are exactly the keyword arguments that name a declared attribute and are not None. Any other keyword is ignored. |
| XmlTree.Accepts | workflows/commons/xml_tree.py:143 | An empty whitelist rejects every element. An instance of a listed class is accepted. |
| XmlTree.Element.Append | workflows/commons/xml_tree.py:135-154 | Succeeds iff the child is an instance of a whitelisted class. On success it returns the receiver and the child list gains the child at the end. On failure the TypeError names the whitelist and the child's class, and nothing changes. Attribute storage never changes, and the receiver's tree stays valid. |
| XmlTree.Element.Build | workflows/commons/xml_tree.py:156-180 | The tag is the element name. The attributes are the `attributes` snapshot. Text is present iff it is truthy, and is then the element's text. The children are the built children, in insertion order. As a function, it changes nothing. The earlier copy's `build` (commons/xml_tree.py lines 82-95) is the same traversal. |
| PyObjects.Truthy | workflows/commons/xml_tree.py:175 | The test `if self._text:`: None, False, 0 and the empty string are false, and a non-empty string is true, so only such a text reaches the output. |
| XmlTree.Element.BuildFrom | workflows/commons/xml_tree.py:178 | The comprehension over the children builds the children from position i on, in order. |
| XmlTree.HeightAtMost | workflows/commons/xml_tree.py:178 | A built node is at most h levels high when each of its children is at most h - 1. |
| XmlTree.MaxOf | workflows/commons/xml_tree.py:178 | The largest level count among the children: it bounds every entry and is one of them. It is 0 when there are no children. |
| PyObjects.KwArg | workflows/commons/xml_tree.py:98 | `kwargs.get(a, None)` is None for a keyword that was not given. |
| LegacyXmlTree.Declaration | commons/xml_tree.py:19-36 | The earlier metaclass raises a bare ValueError iff the name is not a `str`, some sub-element is not an element class, or some attribute name is not a `str`. Otherwise it creates the same class as the current copy, with the same generated accessors. |
| LegacyXmlTree.Append | commons/xml_tree.py:74-80 | Succeeds iff the child is an instance of a whitelisted class, and then appends it at the end and returns the receiver. On success the receiver's footprint grows by the child's, so the receiver can in turn be appended to a parent. Otherwise it raises a bare TypeError and leaves the children unchanged. |
| ScriptFilter.Load | workflows/script_filter.py:5-32 | Importing the module runs the six class statements in order after `Element`. When it succeeds, the registry holds seven classes, `Element` first. |
| ScriptFilter.Declare | workflows/script_filter.py:5-32 | Class statements run one after the other: the first failure stops the run, each success adds one class, and the earlier classes are kept unchanged. |
| ScriptFilter.LoadYieldsVocabulary | workflows/script_filter.py:5-32 | All six class statements are accepted, in order. The registry they leave is exactly `Element`, `Title`, `SubTitle`, `Icon`, `Text`, `Item`, `Items`, with their names, attribute lists, whitelists and default accessors. |
| ScriptFilter.DeclareSuffix | workflows/script_filter.py:5-32 | From any point of the module on, the remaining class statements all succeed and complete the registry to exactly the vocabulary. |
| ScriptFilter.TitleStep | workflows/script_filter.py:5-6 | `Title` is declared with the name `title`, no attributes and an empty whitelist. |
| ScriptFilter.SubTitleStep | workflows/script_filter.py:9-11 | `SubTitle` declares the single attribute `mod`, with a default accessor, and an empty whitelist. |
| ScriptFilter.IconStep | workflows/script_filter.py:14-16 | `Icon` declares the single attribute `type` and an empty whitelist. |
| ScriptFilter.TextStep | workflows/script_filter.py:19-21 | `Text` declares the single attribute `type` and an empty whitelist. |
| ScriptFilter.ItemDeclared | workflows/script_filter.py:24-27 | `Item` is well formed and declares exactly uid, arg, valid, autocomplete and type. Its whitelist is `Title`, `SubTitle`, `Icon`, `Text`. |
| ScriptFilter.ItemsStep | workflows/script_filter.py:30-32 | `Items` declares no attributes and whitelists only `Item`. |
| ScriptFilter.VocabularyRegistryValid | workflows/script_filter.py:5-32 | The registry after the module's class statements is well formed: ids in place, every class derives from `Element`, and whitelists point only at earlier classes. |
| ScriptFilter.PrefixValid | workflows/script_filter.py:5-32 | The registry is well formed after every prefix of the class statements. |
| ScriptFilter.Whitelists | workflows/script_filter.py:24-32 | `Items` accepts an element iff it is an instance of `Item`. `Item` accepts one iff it is an instance of one of the four leaves. `Title`, `SubTitle`, `Icon` and `Text` accept nothing, so every append on them fails. |
| ScriptFilter.WhitelistsWithinVocabulary | workflows/script_filter.py:24-32 | Among the module's classes, `Items` accepts only `Item`, and `Item` accepts exactly the four leaves. |
| ScriptFilter.VocabularyPassThrough | workflows/script_filter.py:5-32 | Every attribute declared by the vocabulary uses the pass-through accessor, so no value is converted. |
| ScriptFilter.ChildLevel | workflows/script_filter.py:24-32 | A child admitted by a vocabulary whitelist sits one level lower than its parent (items, item, leaf). |
| ScriptFilter.VocabularyTreeHeight | workflows/script_filter.py:5-32 | A valid tree made of the module's classes and rooted at `Items` builds into a node at most three levels deep. One rooted at `Item` is at most two levels, and a leaf has no children. |
| ScriptFilter.AttributesAreKeywords | workflows/commons/xml_tree.py:93-115 | For a pass-through class, keywords that all name declared attributes and are not None come back unchanged as `attributes`. |
| ScriptFilter.LeafBuild | workflows/commons/xml_tree.py:156-180 | A childless vocabulary element with truthy text builds into its tag, its keyword attributes and its text. |
| ScriptFilter.DesktopResultList | tests/test_script_filter.py:19-26 | The first item of the script-filter test builds to `items` holding an `item` with its five attributes and its `title`, `subtitle` and `icon` children, in order. `valid` is kept as the boolean `True`. |
| ScriptFilter.DesktopTree | tests/test_script_filter.py:19-26 | The tree assembled as in the test builds to the expected result list. |
| ScriptFilter.DesktopItemTree | tests/test_script_filter.py:21-25 | The item assembled as in the test builds to the expected `item` node. |

## Left out

- ElementTree internals: `etree.Element` and `SubElement` are a foreign library. `build` produces the abstract `XmlNode`, and the `parent` argument only decides where etree attaches the node. Serialisation and attribute order are not modelled, since Python 2 dicts are unordered and etree sorts attributes.
- `__repr__` and the text of error messages are not modelled. An error records only the offending value, or the whitelist and the child's class.
- Validators for `valid`, `mod` and `type`, and `uid` generation, are not modelled. The repository's test suite expects them, but `workflows/script_filter.py` does not define them, and `uid` generation would depend on randomness.
- The shovel and date example scripts (git, zip and clock I/O) are not part of this model.
- `sub_elements` returns the live list in the source, so a caller can mutate it behind `append`. The model exposes `children` only for reading, so this aliasing is not captured.
- XmlTree.Element.Append: requires that the child is not an ancestor of the receiver when the append would succeed. The source accepts such an append, and `build` then recurses without end, so cyclic trees are not modelled.
- XmlTree.Element.Append: an element that is already a child of another element cannot be given further children in the model. The parent's `Repr` does not grow with the append, so the parent's `Valid()` is lost and its tree cannot be built. The source builds such a tree, assembled top-down, without complaint. The model covers trees assembled bottom-up, each element receiving all its children before it is appended to its parent.
- XmlTree.Store: keeps every declared attribute in a slot of its own, so the collision of an attribute name with another attribute's storage name `'__' + a` (described below) is not captured.
- XmlTree.Element.SetAttr: states its effect on the element it is called on only. Nothing is stated about the trees that already contain that element, so the model's reasoning about whole trees covers trees assembled bottom-up. Its promise that every other attribute reads as before holds only when no declared attribute name is another one's storage name.
- `append` with an argument that is not an `Element` is not modelled: the parameter type is `Element`. In the source, `isinstance` would reject such an argument with TypeError.
- Multiple inheritance is not modelled. A class has one base, and its members are resolved along that chain.
- A declared attribute name that collides with `Element`'s own members (`append`, `build`, `text`, …), with the declaration keys, or with the storage name `'__' + a` that the default accessor of another attribute `a` uses is not modelled. The model gives every attribute a slot of its own. In the source, with `__attributes__ = ['x', '__x']`, the storage of `x` goes through the property of `__x`, so setting one attribute changes the other. A name such as `class__` makes `__init__` raise TypeError.
- Custom properties are modelled as pure `store`/`load` transforms, with no side effects.
- `unicode` values are not distinguished from other non-`str` objects.
- A declaration list that is not iterable is not modelled: `__sub_elements__` and `__attributes__` are sequences when present.
- ScriptFilter.DesktopResultList: covers the first of the four items of the test.
