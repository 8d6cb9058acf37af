/** Property lookup on a JavaScript object literal. `name in obj` and `obj[name]`
    see the object's own properties and those it inherits from
    `Object.prototype`, all of which are functions or objects, hence truthy. */
module JsObject {

  /** The property names every object literal inherits. */
  const InheritedNames: seq<string> := [
    "constructor", "hasOwnProperty", "isPrototypeOf", "propertyIsEnumerable",
    "toLocaleString", "toString", "valueOf", "__defineGetter__",
    "__defineSetter__", "__lookupGetter__", "__lookupSetter__", "__proto__"]

  predicate IsInherited(name: string) {
    name in InheritedNames
  }
}
