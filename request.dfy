/** Request bodies as express-validator sees them, and the rules the routes apply to them. */
module Request {
  import opened Wrappers

  /** A JSON value in a request body. `Obj` is any object, with its `_id` when it has a string one. */
  datatype Value =
    | Null
    | Bool(b: bool)
    | Int(i: int)
    | Fraction          // a number that is not an integer
    | Str(s: string)
    | Arr(items: seq<Value>)
    | Obj(id: Option<string>)

  predicate IsHexDigit(c: char) {
    ('0' <= c <= '9') || ('a' <= c <= 'f') || ('A' <= c <= 'F')
  }

  predicate AllHex(s: string) {
    forall i :: 0 <= i < |s| ==> IsHexDigit(s[i])
  }

  /** validator's `isHexadecimal`: an optional `0x`/`0h` prefix (any case), then hex digits. */
  predicate IsHexadecimal(s: string) {
    || (s != [] && AllHex(s))
    || (|s| > 2 && s[0] == '0' && s[1] in {'x', 'X', 'h', 'H'} && AllHex(s[2..]))
  }

  /** validator's `isMongoId`: 24 characters that pass `isHexadecimal`. */
  predicate IsMongoId(s: string) {
    |s| == 24 && IsHexadecimal(s)
  }

  /** `isMongoId` on a body field: only a string can pass. */
  predicate IsMongoIdValue(v: Option<Value>) {
    v.Some? && v.value.Str? && IsMongoId(v.value.s)
  }

  /** `isInt({ min: lo, max: hi })` on a present field. */
  predicate IsIntIn(v: Value, lo: int, hi: int) {
    v.Int? && lo <= v.i <= hi
  }

  /** A rule of an `optional()` field: an absent field passes, a present one must satisfy `rule`. */
  predicate OptionalPasses(v: Option<Value>, rule: Value -> bool) {
    v.None? || rule(v.value)
  }

  /** The string a `trim()` sanitizer leaves for a field; an absent field reads as the empty string. */
  function FieldText(v: Option<string>): string {
    if v.Some? then v.value else ""
  }

  /** `handleValidationErrors`: any collected error answers 400 with the list; none lets the handler run. */
  function HandleValidationErrors<T>(errors: seq<string>): (r: Option<Reply<T>>)
    ensures r.None? <==> errors == []
    ensures r.Some? ==> r.value == BadRequest(errors) && r.value.Status() == 400
  {
    if errors == [] then None else Some(BadRequest(errors))
  }

  /** One rule's contribution to the error list: its message when the rule fails. */
  function Check(ok: bool, message: string): (errors: seq<string>)
    ensures errors == [] <==> ok
  {
    if ok then [] else [message]
  }

  /** A chain of five rules reports no error exactly when none of its rules does. */
  lemma Concat5Empty(e1: seq<string>, e2: seq<string>, e3: seq<string>, e4: seq<string>, e5: seq<string>)
    ensures e1 + e2 + e3 + e4 + e5 == [] <==> e1 == [] && e2 == [] && e3 == [] && e4 == [] && e5 == []
  {
    if e1 + e2 + e3 + e4 + e5 == [] {
      assert |e1 + e2 + e3 + e4 + e5| == |e1| + |e2| + |e3| + |e4| + |e5|;
    }
  }

  /** A chain of six rules reports no error exactly when none of its rules does. */
  lemma Concat6Empty(e1: seq<string>, e2: seq<string>, e3: seq<string>, e4: seq<string>, e5: seq<string>, e6: seq<string>)
    ensures e1 + e2 + e3 + e4 + e5 + e6 == [] <==> e1 == [] && e2 == [] && e3 == [] && e4 == [] && e5 == [] && e6 == []
  {
    if e1 + e2 + e3 + e4 + e5 + e6 == [] {
      assert |e1 + e2 + e3 + e4 + e5 + e6| == |e1| + |e2| + |e3| + |e4| + |e5| + |e6|;
    }
  }
}
