/** Property access on a plain object literal, `table[key]`, as JavaScript
    performs it: an own property first, then the members every object literal
    inherits from `Object.prototype`, else `undefined`. */
module JsObject {

  /** What `table[key]` can yield for a table of strings: one of its own
      strings, an inherited member of `Object.prototype` (a function, or the
      prototype object itself for `__proto__`), or `undefined`. */
  datatype JsValue = Str(s: string) | Inherited(name: string) | Undefined

  /** The property names an object literal inherits from `Object.prototype`. */
  const ObjectPrototypeMembers: set<string> := {
    "constructor", "hasOwnProperty", "isPrototypeOf", "propertyIsEnumerable",
    "toLocaleString", "toString", "valueOf", "__proto__",
    "__defineGetter__", "__defineSetter__", "__lookupGetter__", "__lookupSetter__"
  }

  /** `table[key]` on an object literal whose own properties are `table`. */
  function Get(table: map<string, string>, key: string): (v: JsValue)
    ensures key in table ==> v == Str(table[key])
    ensures v.Inherited? <==> key !in table && key in ObjectPrototypeMembers
    ensures v.Undefined? <==> key !in table && key !in ObjectPrototypeMembers
  {
    if key in table then Str(table[key])
    else if key in ObjectPrototypeMembers then Inherited(key)
    else Undefined
  }

  /** JavaScript truthiness: the empty string and `undefined` are falsy,
      functions and objects are truthy. */
  predicate Truthy(v: JsValue)
  {
    match v
    case Str(s) => s != ""
    case Inherited(_) => true
    case Undefined => false
  }
}
