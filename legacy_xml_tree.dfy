/**
 * The earlier copy of the element engine, commons/xml_tree.py. It runs the
 * same checks, the same `__init__`, `attributes` and `build` as
 * workflows/commons/xml_tree.py (the members of `XmlTree` model both), but
 * raises its ValueError and TypeError with empty messages: the error
 * carries nothing about the offending value.
 */
module LegacyXmlTree {
  import opened Wrappers
  import opened PyObjects
  import opened XmlTree

  /** `ValueError()` */
  datatype ValueError = ValueError

  /** `TypeError()` */
  datatype TypeError = TypeError

  /**
   * `ElementMeta.__new__` of the earlier copy: rejects a body whose element
   * name is missing or not a `str`, whose `__sub_elements__` hold anything
   * but element classes, or whose `__attributes__` hold anything but `str`;
   * otherwise creates the same class as the current copy.
   */
  function Declaration(reg: seq<NodeType>, body: ClassBody): (r: Result<NodeType, ValueError>)
    requires body.base < |reg|
    ensures r.Err? <==>
              || !body.elementName.StrObj?
              || (exists o :: o in body.subElements.GetOr([]) && !IsElementClass(reg, o))
              || (exists o :: o in body.attributes.GetOr([]) && !o.StrObj?)
    ensures r.Ok? ==> r.value.elementName == body.elementName.s && r.value.id == |reg|
    ensures r.Ok? ==> r.value == XmlTree.Declaration(reg, body).value
  {
    match XmlTree.Declaration(reg, body)
    case Ok(t) => Ok(t)
    case Err(_) => Err(ValueError)
  }

  /** `append(e)` of the earlier copy: as `Element.Append`, but the TypeError is bare. */
  method Append(e: Element, child: Element) returns (r: Result<Element, TypeError>)
    requires e.Valid()
    requires Accepts(e.kind, child.kind) ==> child.Valid() && e !in child.Repr
    modifies e
    ensures e.Valid()
    ensures r.Ok? <==> Accepts(e.kind, child.kind)
    ensures r.Ok? ==> r.value == e && e.children == old(e.children) + [child]
    ensures r.Ok? ==> e.Repr == old(e.Repr) + child.Repr
    ensures r.Err? ==> e.children == old(e.children) && e.Repr == old(e.Repr)
    ensures e.slots == old(e.slots)
  {
    var res := e.Append(child);
    match res
    case Ok(self) => r := Ok(self);
    case Err(_) => r := Err(TypeError);
  }
}
