/** JavaScript values, as far as the relay looks into them: truthiness,
    the `isDefined` helper, and property reads that may throw.
 */
module JsValue {

  /** A JavaScript value. Numbers are reals (so -0 and +0 coincide) plus NaN;
      plain objects, arrays and functions are all `Object`, given by their
      own properties. */
  datatype Value =
    | Undefined
    | Null
    | Bool(b: bool)
    | Num(n: real)
    | NaN
    | Str(s: string)
    | Object(props: map<string, Value>)

  /** The outcome of evaluating an expression that may throw a TypeError. */
  datatype Completion<T> = Normal(value: T) | TypeError

  /** `undefined` and `null`, the two values a property read throws on. */
  predicate Nullish(v: Value) {
    v.Undefined? || v.Null?
  }

  /** ECMAScript ToBoolean: the values that make `if (v)` take its branch. */
  predicate Truthy(v: Value) {
    match v
    case Undefined => false
    case Null => false
    case Bool(b) => b
    case Num(n) => n != 0.0
    case NaN => false
    case Str(s) => s != ""
    case Object(_) => true
  }

  /** `typeof v == 'undefined'` */
  predicate TypeofIsUndefined(v: Value) {
    v.Undefined?
  }

  /** `v != null` under loose equality: only `null` and `undefined` are
      loosely equal to `null`. */
  predicate LooselyDiffersFromNull(v: Value) {
    !(v.Null? || v.Undefined?)
  }

  /** The source's `isDefined`, check by check; it is exactly truthiness. */
  function IsDefined(v: Value): (r: bool)
    ensures r <==> Truthy(v)
    ensures r ==> !Nullish(v)
  {
    if TypeofIsUndefined(v) then false
    else if !Truthy(v) then false
    else LooselyDiffersFromNull(v)
  }

  /** The names every object (and every boxed primitive) inherits from
      `Object.prototype`; each of them is a function or an object, so truthy. */
  const ObjectPrototypeMembers: set<string> := {
    "constructor", "hasOwnProperty", "isPrototypeOf", "propertyIsEnumerable",
    "toLocaleString", "toString", "valueOf", "__proto__",
    "__defineGetter__", "__defineSetter__", "__lookupGetter__", "__lookupSetter__"
  }

  /** The stand-in for an inherited member: a function object. */
  const InheritedMember: Value := Object(map[])

  /** `v[key]`: an own property, else an inherited `Object.prototype` member,
      else `undefined`; on `undefined` or `null` it throws a TypeError. */
  function Get(v: Value, key: string): (r: Completion<Value>)
    ensures r.TypeError? <==> Nullish(v)
    ensures v.Object? && key in v.props ==> r == Normal(v.props[key])
    ensures r.Normal? && key !in ObjectPrototypeMembers && !(v.Object? && key in v.props)
            ==> r.value == Undefined
  {
    match v
    case Undefined => TypeError
    case Null => TypeError
    case Object(props) =>
      if key in props then Normal(props[key])
      else if key in ObjectPrototypeMembers then Normal(InheritedMember)
      else Normal(Undefined)
    case _ =>
      if key in ObjectPrototypeMembers then Normal(InheritedMember) else Normal(Undefined)
  }

  /** A truthy value never makes a property read throw. */
  lemma TruthyReadIsSafe(v: Value, key: string)
    requires Truthy(v)
    ensures Get(v, key).Normal?
  {
  }

  /** No inherited member name contains a dash. */
  lemma NoMemberHasDash()
    ensures forall m :: m in ObjectPrototypeMembers ==> '-' !in m
  {
  }
}
