/**
 * The Python 2 values the element engine inspects: declaration entries
 * (element names, attribute names, child classes), attribute values and
 * text content.
 */
module PyObjects {

  /** Index of an element class in the class registry (see XmlTree.NodeType). */
  type TypeId = nat

  datatype PyObject =
    | NoneObj
    | BoolObj(b: bool)
    | IntObj(i: int)
    | StrObj(s: string)        // a Python 2 `str`
    | ElementClass(id: TypeId) // a class object created by ElementMeta
    | OtherObj(truthy: bool)   // any other object, with its truth value

  /** Python truth testing (`if x:`): None, False, 0 and the empty string are false; a non-empty string is true. */
  predicate Truthy(o: PyObject)
    ensures o == NoneObj || o == BoolObj(false) || o == IntObj(0) || o == StrObj("") ==> !Truthy(o)
    ensures o.StrObj? && o.s != "" ==> Truthy(o)
  {
    match o
    case NoneObj => false
    case BoolObj(b) => b
    case IntObj(i) => i != 0
    case StrObj(s) => s != ""
    case ElementClass(_) => true
    case OtherObj(t) => t
  }

  /** `kwargs.get(k, None)` */
  function KwArg(kwargs: map<string, PyObject>, k: string): (v: PyObject)
    ensures k !in kwargs ==> v == NoneObj
  {
    if k in kwargs then kwargs[k] else NoneObj
  }
}
