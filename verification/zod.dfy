/**
 * The parts of the zod schema library the request handlers rely on: the
 * string, email and optional-string field checks with their default
 * messages, and the list of issues a failed `parse` reports.
 */
module Zod {
  import opened Outcomes
  import opened JsonValue
  import opened Text

  /** zod's name for the type of a value it did not expect. */
  function TypeName(j: Json): string {
    match j
    case Null => "null"
    case Bool(_) => "boolean"
    case Num(_) => "number"
    case Str(_) => "string"
  }

  /** The message for a present value of the wrong type. */
  function Expected(kind: string, j: Json): string {
    "Expected " + kind + ", received " + TypeName(j)
  }

  /** `z.string().min(min, tooShort)`: the length is JavaScript's, in UTF-16 code units. */
  function RequiredString(v: Option<Json>, min: nat, tooShort: string): (r: Result<string, string>)
    ensures r.Ok? <==> v.Some? && v.value.Str? && Utf16Length(v.value.s) >= min
    ensures r.Ok? ==> r.value == v.value.s
    ensures v.None? ==> r == Err("Required")
  {
    match v
    case None => Err("Required")
    case Some(Str(s)) => if Utf16Length(s) < min then Err(tooShort) else Ok(s)
    case Some(j) => Err(Expected("string", j))
  }

  /** `z.string().email(invalid)`, the address check being the predicate `isEmail`. */
  function EmailString(v: Option<Json>, isEmail: string -> bool, invalid: string): (r: Result<string, string>)
    ensures r.Ok? <==> v.Some? && v.value.Str? && isEmail(v.value.s)
    ensures r.Ok? ==> r.value == v.value.s
    ensures v.None? ==> r == Err("Required")
  {
    match v
    case None => Err("Required")
    case Some(Str(s)) => if isEmail(s) then Ok(s) else Err(invalid)
    case Some(j) => Err(Expected("string", j))
  }

  /** `z.string().optional()`: an absent key is accepted, `null` is not. */
  function OptionalString(v: Option<Json>): (r: Result<Option<string>, string>)
    ensures r.Ok? <==> v.None? || v.value.Str?
    ensures r.Ok? ==> r.value == (if v.None? then None else Some(v.value.s))
  {
    match v
    case None => Ok(None)
    case Some(Str(s)) => Ok(Some(s))
    case Some(j) => Err(Expected("string", j))
  }

  /** The message of a failed check, if it failed. */
  function ErrorOf<T>(r: Result<T, string>): Option<string> {
    if r.Err? then Some(r.error) else None
  }

  /** One entry of `ZodError.errors`: the failing field and its message. */
  datatype Issue<F> = Issue(path: F, message: string)

  /**
   * The issues of a failed `parse`, given each field's check in the order the
   * schema declares the fields: one issue for each failing field, in that order.
   */
  function Issues<F(!new)>(checks: seq<(F, Option<string>)>): (r: seq<Issue<F>>)
    ensures |r| <= |checks|
    ensures forall issue :: issue in r <==> (issue.path, Some(issue.message)) in checks
    ensures r == [] <==> forall i :: 0 <= i < |checks| ==> checks[i].1.None?
  {
    if checks == [] then []
    else
      var (field, error) := checks[0];
      (if error.Some? then [Issue(field, error.value)] else []) + Issues(checks[1..])
  }
}
