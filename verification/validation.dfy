/**
  The input validators of the tool-call server: the status and priority
  enumerations, positive-integer ids, and required or optional strings, with
  JavaScript's `String.prototype.trim` they rely on.
 */
module Validation {
  import opened Values

  /** A validator either lets its argument through or throws. */
  datatype Check = Pass | Fail(error: Error)

  const VALID_STATUSES: seq<string> := ["pending", "passed", "failed", "blocked", "skipped"]
  const VALID_PRIORITIES: seq<string> := ["low", "medium", "high", "critical"]

  /** The characters `trim` removes: ECMAScript WhiteSpace and LineTerminator. */
  predicate IsJsWhitespace(c: char)
  {
    || c == ' ' || c == '\t' || c == '\n' || c == '\r' || c == '\U{000B}' || c == '\U{000C}'
    || c == '\U{00A0}' || c == '\U{1680}' || ('\U{2000}' <= c <= '\U{200A}')
    || c == '\U{2028}' || c == '\U{2029}' || c == '\U{202F}' || c == '\U{205F}'
    || c == '\U{3000}' || c == '\U{FEFF}'
  }

  /** `s` with its leading whitespace removed. */
  function TrimStart(s: string): (r: string)
    ensures |r| <= |s|
  {
    if s != [] && IsJsWhitespace(s[0]) then TrimStart(s[1..]) else s
  }

  /**
    What `TrimStart` keeps is a suffix of its argument that does not start
    with whitespace, and all it drops is whitespace.
   */
  lemma {:induction false} TrimStartSuffix(s: string)
    ensures TrimStart(s) == s[|s| - |TrimStart(s)|..]
    ensures forall i :: 0 <= i < |s| - |TrimStart(s)| ==> IsJsWhitespace(s[i])
    ensures TrimStart(s) != [] ==> !IsJsWhitespace(TrimStart(s)[0])
  {
    if s != [] && IsJsWhitespace(s[0]) {
      TrimStartSuffix(s[1..]);
    }
  }

  /** `s` with its trailing whitespace removed. */
  function TrimEnd(s: string): (r: string)
    ensures |r| <= |s|
  {
    if s != [] && IsJsWhitespace(s[|s| - 1]) then TrimEnd(s[..|s| - 1]) else s
  }

  /**
    What `TrimEnd` keeps is a prefix of its argument that does not end with
    whitespace, and all it drops is whitespace.
   */
  lemma {:induction false} TrimEndPrefix(s: string)
    ensures TrimEnd(s) == s[..|TrimEnd(s)|]
    ensures forall i :: |TrimEnd(s)| <= i < |s| ==> IsJsWhitespace(s[i])
    ensures TrimEnd(s) != [] ==> !IsJsWhitespace(TrimEnd(s)[|TrimEnd(s)| - 1])
  {
    if s != [] && IsJsWhitespace(s[|s| - 1]) {
      TrimEndPrefix(s[..|s| - 1]);
    }
  }

  /**
    `s.trim()`: the part of `s` between its leading and its trailing
    whitespace, which neither starts nor ends with whitespace.
   */
  function Trim(s: string): (r: string)
    ensures |r| <= |s|
    ensures var k := |s| - |TrimStart(s)|;
      && k + |r| <= |s| && r == s[k..k + |r|]
      && (forall i :: 0 <= i < k ==> IsJsWhitespace(s[i]))
      && (forall i :: k + |r| <= i < |s| ==> IsJsWhitespace(s[i]))
    ensures r != "" ==> !IsJsWhitespace(r[0]) && !IsJsWhitespace(r[|r| - 1])
  {
    TrimStartSuffix(s);
    TrimEndPrefix(TrimStart(s));
    TrimEnd(TrimStart(s))
  }

  /** Trimming leaves nothing exactly when the string is all whitespace. */
  lemma TrimEmpty(s: string)
    ensures Trim(s) == "" <==> forall i :: 0 <= i < |s| ==> IsJsWhitespace(s[i])
  {
    var t := TrimStart(s);
    TrimStartSuffix(s);
    TrimEndPrefix(t);
    if Trim(s) == "" {
      assert t == [];
    } else {
      var r := Trim(s);
      assert t[0] == r[0];
      assert !IsJsWhitespace(s[|s| - |t|]);
    }
  }

  /** `validateStatus`: throws on a truthy value that is not one of the five statuses. */
  function ValidateStatus(status: JsValue): (r: Check)
    ensures r.Pass? <==>
      || status in {Undefined, JsNull, Bool(false), Num(0.0), Str("")}
      || (status.Str? && status.s in VALID_STATUSES)
    ensures r.Fail? ==> r.error == InvalidStatus(status)
  {
    if Truthy(status) && !(status.Str? && status.s in VALID_STATUSES) then Fail(InvalidStatus(status)) else Pass
  }

  /** `validatePriority`: throws on a truthy value that is not one of the four priorities. */
  function ValidatePriority(priority: JsValue): (r: Check)
    ensures r.Pass? <==>
      || priority in {Undefined, JsNull, Bool(false), Num(0.0), Str("")}
      || (priority.Str? && priority.s in VALID_PRIORITIES)
    ensures r.Fail? ==> r.error == InvalidPriority(priority)
  {
    if Truthy(priority) && !(priority.Str? && priority.s in VALID_PRIORITIES) then Fail(InvalidPriority(priority)) else Pass
  }

  /** `v` is the JavaScript number `k`. */
  predicate IsNumber(v: JsValue, k: int)
  {
    v == Num(k as real)
  }

  /** `validateId`: throws unless the value is a number that is a positive integer. */
  function ValidateId(id: JsValue, fieldName: string): (r: Check)
    ensures r.Pass? <==> exists k :: k >= 1 && IsNumber(id, k)
    ensures r.Fail? ==> r.error == InvalidId(fieldName)
  {
    if !id.Num? || id.n <= 0.0 || id.n != id.n.Floor as real then
      assert forall k :: k >= 1 ==> !IsNumber(id, k);
      Fail(InvalidId(fieldName))
    else
      assert IsNumber(id, id.n.Floor);
      Pass
  }

  /**
    `validateString`: a required value must be a string with a character
    other than whitespace; an optional one may be undefined, null or any
    string.
   */
  function ValidateString(value: JsValue, fieldName: string, required: bool): (r: Check)
    ensures required ==>
      (r.Pass? <==> value.Str? && exists i :: 0 <= i < |value.s| && !IsJsWhitespace(value.s[i]))
    ensures !required ==> (r.Pass? <==> value == Undefined || value == JsNull || value.Str?)
    ensures r.Fail? ==> r.error == if required then RequiredString(fieldName) else NotAString(fieldName)
  {
    assert value.Str? ==> (Trim(value.s) == "" <==> forall i :: 0 <= i < |value.s| ==> IsJsWhitespace(value.s[i])) by {
      if value.Str? {
        TrimEmpty(value.s);
      }
    }
    if required && (!Truthy(value) || !value.Str? || Trim(value.s) == "") then Fail(RequiredString(fieldName))
    else if !required && value != Undefined && value != JsNull && !value.Str? then Fail(NotAString(fieldName))
    else Pass
  }
}
