/** Decoded JSON: what json.unmarshal (Rego) and encoding/json (Go) hand to the rules. */
module Json {

  datatype Json =
    | Null
    | Bool(b: bool)
    | Num(n: real)
    | Str(s: string)
    | Arr(items: seq<Json>)
    | Obj(fields: map<string, Json>)
}

/**
 How Rego evaluates the constructs the gate uses. A term is None when it is undefined; a rule body with an
 undefined term fails, which is why every comparison below asks that its operands are defined.
 */
module Rego {
  import opened Wrappers
  import opened Json

  type Term = Option<Json>

  /** t.key */
  function Dot(t: Term, key: string): Term {
    if t.Some? && t.value.Obj? && key in t.value.fields then Some(t.value.fields[key]) else None
  }

  /** t[0] */
  function First(t: Term): Term {
    if t.Some? && t.value.Arr? && t.value.items != [] then Some(t.value.items[0]) else None
  }

  /** a == b */
  predicate Eq(a: Term, b: Term) {
    a.Some? && a == b
  }

  /** a != b, which is not the negation of a == b: both sides must be defined. */
  predicate Neq(a: Term, b: Term) {
    a.Some? && b.Some? && a != b
  }

  function Text(s: string): Term {
    Some(Str(s))
  }

  predicate EqText(t: Term, s: string) {
    t == Some(Str(s))
  }

  /** t in {"...", ...} */
  predicate OneOf(t: Term, options: set<string>) {
    t.Some? && t.value.Str? && t.value.s in options
  }

  /** count(t): defined on arrays, objects and strings. */
  function Count(t: Term): Option<nat> {
    if t.None? then None
    else match t.value
      case Arr(items) => Some(|items|)
      case Obj(fields) => Some(|fields|)
      case Str(s) => Some(|s|)
      case _ => None
  }

  /** Whether `every _ in t` has anything to range over; a scalar makes it fail. */
  predicate Iterable(t: Term) {
    t.Some? && (t.value.Arr? || t.value.Obj?)
  }

  /** The values `some x in t` ranges over. */
  function Elements(t: Term): set<Json> {
    if t.None? then {}
    else match t.value
      case Arr(items) => set x | x in items
      case Obj(fields) => fields.Values
      case _ => {}
  }

  function Positions(n: nat): set<Json> {
    if n == 0 then {} else Positions(n - 1) + {Num((n - 1) as real)}
  }

  /** The keys `some k, _ in t` ranges over: member names, or array positions. */
  function Keys(t: Term): set<Json> {
    if t.None? then {}
    else match t.value
      case Arr(items) => Positions(|items|)
      case Obj(fields) => set k | k in fields :: Str(k)
      case _ => {}
  }

  /** t >= bound in Rego's total order of values: null and booleans sort below numbers, the rest above. */
  predicate AtLeast(t: Term, bound: real) {
    t.Some? &&
    match t.value
    case Null => false
    case Bool(_) => false
    case Num(n) => n >= bound
    case _ => true
  }

  /** The policy's object_shape: an object with every required member and none outside the allowed ones. */
  predicate ObjectShape(t: Term, required: set<string>, allowed: set<string>) {
    && t.Some?
    && t.value.Obj?
    && required <= t.value.fields.Keys <= allowed
  }
}
