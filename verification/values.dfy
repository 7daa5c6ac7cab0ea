/**
  Values shared by the test-tracking server's store, its request handling and
  its schema migrations: optional and failure-carrying results, the SQL values a
  column holds, the JavaScript values a request carries, and the errors the
  server raises.
 */
module Values {

  datatype Option<+T> = None | Some(value: T) {
    /** The value held, or `default` when there is none. */
    function GetOr(default: T): T
    {
      match this
      case Some(v) => v
      case None => default
    }
  }

  datatype Result<+R, +E> = Ok(value: R) | Err(error: E)

  /** A value stored in (or bound to) an SQL column. */
  datatype Value = Null | Text(text: string) | Number(n: real)

  /**
    A JavaScript value as it arrives in a parsed request. Numbers are real
    numbers: NaN and the infinities are not represented.
   */
  datatype JsValue =
    | Undefined
    | JsNull
    | Bool(b: bool)
    | Num(n: real)
    | Str(s: string)
    | Arr(items: seq<JsValue>)
    | Obj(fields: map<string, JsValue>)

  /** JavaScript truthiness: undefined, null, false, 0 and "" are falsy. */
  predicate Truthy(v: JsValue)
  {
    match v
    case Undefined => false
    case JsNull => false
    case Bool(b) => b
    case Num(n) => n != 0.0
    case Str(s) => s != ""
    case Arr(_) => true
    case Obj(_) => true
  }

  /** Reading property `key` of a value that is not null or undefined. */
  function Prop(v: JsValue, key: string): JsValue
  {
    if v.Obj? && key in v.fields then v.fields[key] else Undefined
  }

  /**
    The errors the server throws. Messages that interpolate a value are kept
    as the value they interpolate.
   */
  datatype Error =
    | NoValidFields                      // "No valid fields to update"
    | InvalidStatus(status: JsValue)
    | InvalidPriority(priority: JsValue)
    | InvalidId(field: string)           // "Invalid <field>: must be a positive integer"
    | RequiredString(field: string)      // "<field> is required and must be a non-empty string"
    | NotAString(field: string)          // "<field> must be a string"
    | CaseNotFound(id: JsValue)          // "Test case with ID <id> not found"
    | UnknownTool(name: JsValue)
    | UnknownMethod(methodName: JsValue)
    | NotDestructurable                  // destructuring null or undefined
    | ParseFailure                       // JSON.parse rejected the line

  /** A non-empty sequence is its prefix followed by its last element. */
  lemma SplitLast<T>(s: seq<T>)
    requires s != []
    ensures s == s[..|s| - 1] + [s[|s| - 1]]
    ensures forall x :: x in s[..|s| - 1] ==> x in s
  {
  }

  /** Dropping the last element of a sequence with a new head keeps the head. */
  lemma InitCons<T>(x: T, s: seq<T>)
    requires s != []
    ensures ([x] + s)[..|s|] == [x] + s[..|s| - 1]
    ensures forall y :: y in ([x] + s)[..|s|] ==> y == x || y in s[..|s| - 1]
  {
    assert ([x] + s)[..|s|] == [x] + s[..|s| - 1];
  }

  /** A sequence splits at most one way around a first occurrence of `x`. */
  lemma SplitAtFirst<T>(a: seq<T>, b: seq<T>, c: seq<T>, d: seq<T>, x: T)
    requires x !in a && x !in c && a + [x] + b == c + [x] + d
    ensures a == c && b == d
  {
    var s := a + [x] + b;
    assert s[|a|] == x && (c + [x] + d)[|c|] == x;
    if |a| != |c| {
      assert false;
    }
    assert a == s[..|a|] && c == s[..|c|];
    assert b == s[|a| + 1..] && d == s[|c| + 1..];
  }

  lemma AppendAssoc<T>(a: seq<T>, b: seq<T>, c: seq<T>)
    ensures a + (b + c) == (a + b) + c
  {
  }
}
