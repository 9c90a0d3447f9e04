/**
 * The slice of JavaScript value semantics that the entity core relies on:
 * values and object references, property lookup on plain objects (which
 * falls back to the members every object inherits from Object.prototype),
 * `typeof`, truthiness, and the decimal text of a non-negative integer as
 * a template literal prints it.
 */
module JsValues {

  datatype Option<T> = None | Some(value: T) {
    function GetOr(default: T): T {
      match this
      case Some(v) => v
      case None => default
    }
  }

  /** The two error classes the core can throw: `Error` and the host's `TypeError`. */
  datatype ErrorKind = PlainError | TypeError

  /**
   * A JavaScript value. Objects are references (`Obj`), so two holders of the
   * same object see each other's writes. `Builtin(name)` is a member that
   * every plain object inherits from Object.prototype (or a global
   * constructor such as `Set`); the model does not track its own properties.
   * Numbers are integers: no arithmetic of the core depends on fractions.
   */
  datatype Value =
    | Undefined
    | Null
    | Bool(b: bool)
    | Num(n: int)
    | Str(s: string)
    | Obj(o: JsObject)
    | ErrorObj(kind: ErrorKind, message: Value)
    | Builtin(name: string)

  /** An ordinary mutable object: its own enumerable properties. */
  class JsObject {
    var props: map<string, Value>

    constructor (props: map<string, Value>)
      ensures this.props == props
    {
      this.props := props;
    }
  }

  /** The object a value refers to, as a frame. */
  function ObjectsOf(v: Value): set<JsObject> {
    if v.Obj? then {v.o} else {}
  }

  /** How a completed statement ended: normally, or by throwing a value. */
  datatype Completion = Normal | Throw(exception: Value)

  /** The global `Set` constructor. */
  const SET_CONSTRUCTOR: Value := Builtin("Set")

  /** A TypeError raised by the host; its message text is not modelled. */
  const HOST_TYPE_ERROR: Value := ErrorObj(TypeError, Undefined)

  /** Names that a plain object `{}` inherits from Object.prototype. */
  const INHERITED_NAMES: set<string> := {
    "constructor", "hasOwnProperty", "isPrototypeOf", "propertyIsEnumerable",
    "toLocaleString", "toString", "valueOf", "__proto__",
    "__defineGetter__", "__defineSetter__", "__lookupGetter__", "__lookupSetter__"
  }

  /** The setting names the entity reads, and the wildcard event name, are not inherited members. */
  lemma SettingNamesNotInherited()
    ensures "name" !in INHERITED_NAMES && "services" !in INHERITED_NAMES && "disableSkills" !in INHERITED_NAMES
    ensures "testMode" !in INHERITED_NAMES && "strictMode" !in INHERITED_NAMES && "verboseMode" !in INHERITED_NAMES
    ensures "_id" !in INHERITED_NAMES && "all" !in INHERITED_NAMES
  {
  }

  /**
   * `obj[key]` on a plain object whose own properties are `own`: an own
   * property wins, then an inherited Object.prototype member, else undefined.
   */
  function Property(own: map<string, Value>, key: string): (v: Value)
    ensures key in own ==> v == own[key]
    ensures key !in own ==> (v != Undefined <==> key in INHERITED_NAMES)
    ensures key !in own && key in INHERITED_NAMES ==> v == Builtin(key)
  {
    if key in own then own[key]
    else if key in INHERITED_NAMES then Builtin(key)
    else Undefined
  }

  /** The result of the `typeof` operator. */
  function TypeOf(v: Value): string {
    match v
    case Undefined => "undefined"
    case Null => "object"
    case Bool(_) => "boolean"
    case Num(_) => "number"
    case Str(_) => "string"
    case Obj(_) => "object"
    case ErrorObj(_, _) => "object"
    case Builtin(name) => if name == "__proto__" then "object" else "function"
  }

  /** Every string `typeof` can produce for a value of the model. */
  const TYPEOF_RESULTS: set<string> := {"undefined", "object", "boolean", "number", "string", "function"}

  /** `typeof` of anything a function value: the bound handler and every callback. */
  const TYPEOF_FUNCTION: string := "function"

  /** `typeof v === 'undefined'` holds exactly for the undefined value. */
  lemma TypeOfUndefined(v: Value)
    ensures TypeOf(v) == "undefined" <==> v == Undefined
  {
  }

  /**
   * `typeof` never yields "Promise": that string is not among its results,
   * so a comparison of `typeof x` against it is always false.
   */
  lemma TypeOfNeverPromise(v: Value)
    ensures TypeOf(v) in TYPEOF_RESULTS
    ensures TypeOf(v) != "Promise" && TYPEOF_FUNCTION != "Promise"
  {
  }

  /** JavaScript truthiness, as `if (v)` tests it. */
  predicate Truthy(v: Value) {
    match v
    case Undefined => false
    case Null => false
    case Bool(b) => b
    case Num(n) => n != 0
    case Str(s) => s != ""
    case _ => true
  }

  /** Decimal digit character of `d`. */
  function Digit(d: nat): (c: char)
    requires d < 10
    ensures '0' <= c <= '9'
    ensures c as int - '0' as int == d
  {
    ['0', '1', '2', '3', '4', '5', '6', '7', '8', '9'][d]
  }

  /** The decimal text of `n`, as `${n}` prints a non-negative integer. */
  function Decimal(n: nat): (s: string)
    decreases n
  {
    if n < 10 then [Digit(n)] else Decimal(n / 10) + [Digit(n % 10)]
  }

  /** Decimal text is a non-empty string of digits with no leading zero. */
  lemma {:induction false} DecimalShape(n: nat)
    ensures |Decimal(n)| >= 1
    ensures forall i :: 0 <= i < |Decimal(n)| ==> '0' <= Decimal(n)[i] <= '9'
    ensures n >= 10 ==> |Decimal(n)| >= 2 && Decimal(n)[0] != '0'
    ensures n < 10 <==> |Decimal(n)| == 1
    decreases n
  {
    if n >= 10 {
      DecimalShape(n / 10);
    }
  }

  /** Distinct numbers print differently. */
  lemma {:induction false} DecimalInjective(a: nat, b: nat)
    requires Decimal(a) == Decimal(b)
    ensures a == b
    decreases a
  {
    DecimalShape(a);
    DecimalShape(b);
    if a >= 10 && b >= 10 {
      var sa, sb := Decimal(a / 10), Decimal(b / 10);
      assert Decimal(a) == sa + [Digit(a % 10)];
      assert Decimal(b) == sb + [Digit(b % 10)];
      assert sa == Decimal(a)[..|Decimal(a)| - 1];
      assert sb == Decimal(b)[..|Decimal(b)| - 1];
      assert Digit(a % 10) == Decimal(a)[|Decimal(a)| - 1];
      assert Digit(b % 10) == Decimal(b)[|Decimal(b)| - 1];
      DecimalInjective(a / 10, b / 10);
    } else if a < 10 && b < 10 {
      assert Decimal(a)[0] == Digit(a);
      assert Decimal(b)[0] == Digit(b);
    }
  }
}
