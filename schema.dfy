/** The Mongoose schema rules the three models declare, one function per kind
    of validator: how a request body is cast onto a String or Number path, and
    which error, if any, each path reports. */
module Schema {
  import opened Js
  import opened Text
  import opened Email

  /** The paths every schema has without declaring them: `_id` and `__v`, and
      the `timestamps: true` Date paths. The model does not cast a body onto them. */
  const ImplicitPaths: set<string> := {"_id", "__v", "createdAt", "updatedAt"}

  /** The kind of validator that rejected a path. */
  datatype Violation = RequiredFailed | LengthExceeded | PatternMismatch
                     | BelowMinimum | AboveMaximum | NotInEnum | CastFailed

  /** One entry of a ValidationError's `errors`: the path, the failed validator, its message. */
  datatype FieldError = FieldError(path: string, violation: Violation, message: string)

  /** A Number path after casting: no value, a number, or a value the cast rejected. */
  datatype NumberSlot = Unset | Cast(n: Number) | Uncastable(raw: Value)

  // ---------------------------------------------------------------------------
  // Casting a body onto a document.

  /** A String path: absent stays absent; a number is converted with `toString`;
      then the path's setter (`trim`, `lowercase`, or none) runs. */
  function StringPath(rt: Runtime, b: Body, k: string, setter: string -> string): (r: Option<string>)
    ensures r.Some? <==> k in b
    ensures k in b ==> r.value == setter(ToText(rt, b[k]))
  {
    if k in b then Some(setter(ToText(rt, b[k]))) else None
  }

  /** The setter of a path declared without `trim` or `lowercase`. */
  function Unchanged(s: string): string
  {
    s
  }

  /** A Number path: `''` counts as no value, a string goes through `Number(s)`,
      and NaN, from either, is a cast failure. */
  function NumberPath(rt: Runtime, b: Body, k: string): (r: NumberSlot)
    ensures r.Unset? <==> k !in b || b[k] == Str("")
    ensures r.Cast? ==> !r.n.NaN?
    ensures k in b && b[k].Num? && !b[k].number.NaN? ==> r == Cast(b[k].number)
    ensures k in b && b[k] == Num(NaN) ==> r == Uncastable(Num(NaN))
  {
    if k !in b then Unset
    else match b[k]
      case Num(n) => if n.NaN? then Uncastable(b[k]) else Cast(n)
      case Str(s) =>
        if s == "" then Unset
        else if rt.toNumber(s).NaN? then Uncastable(b[k])
        else Cast(rt.toNumber(s))
  }

  // ---------------------------------------------------------------------------
  // Validators. Each returns the error it reports, or `None`.

  /** `required` on a String path: the value must be a non-empty string. */
  function RequiredCheck(path: string, v: Option<string>, message: string): (r: Option<FieldError>)
    ensures r.None? <==> v.Some? && v.value != ""
    ensures r.Some? ==> r.value == FieldError(path, RequiredFailed, message)
  {
    if v.None? || v.value == "" then Some(FieldError(path, RequiredFailed, message)) else None
  }

  /** `maxLength`: an absent value passes. */
  function MaxLengthCheck(path: string, v: Option<string>, max: nat, message: string): (r: Option<FieldError>)
    ensures r.None? <==> v.None? || |v.value| <= max
    ensures r.Some? ==> r.value == FieldError(path, LengthExceeded, message)
  {
    if v.Some? && |v.value| > max then Some(FieldError(path, LengthExceeded, message)) else None
  }

  /** `match` with the email pattern: an absent or empty value passes. */
  function EmailCheck(path: string, v: Option<string>, message: string): (r: Option<FieldError>)
    ensures r.None? <==> v.None? || v.value == "" || IsValidEmail(v.value)
    ensures r.Some? ==> r.value == FieldError(path, PatternMismatch, message)
  {
    if v.Some? && v.value != "" && !IsValidEmail(v.value)
    then Some(FieldError(path, PatternMismatch, message)) else None
  }

  /** `match` with `^[0-9]{10}$`: an absent or empty value passes. */
  function PhoneCheck(path: string, v: Option<string>, message: string): (r: Option<FieldError>)
    ensures r.None? <==> v.None? || v.value == "" || TenDigits(v.value)
    ensures r.Some? ==> r.value == FieldError(path, PatternMismatch, message)
  {
    if v.Some? && v.value != "" && !TenDigits(v.value)
    then Some(FieldError(path, PatternMismatch, message)) else None
  }

  /** Mongoose's default enum message. */
  function EnumMessage(value: string, path: string): string
  {
    "`" + value + "` is not a valid enum value for path `" + path + "`."
  }

  /** `enum`: an absent value passes, any other must be one of `values`. */
  function EnumCheck(path: string, v: Option<string>, values: seq<string>): (r: Option<FieldError>)
    ensures r.None? <==> v.None? || v.value in values
    ensures r.Some? ==> r.value == FieldError(path, NotInEnum, EnumMessage(v.value, path))
  {
    if v.Some? && v.value !in values
    then Some(FieldError(path, NotInEnum, EnumMessage(v.value, path))) else None
  }

  /** Mongoose's cast error message for a Number path. */
  function CastMessage(rt: Runtime, raw: Value, path: string): string
  {
    "Cast to Number failed for value \"" + ToText(rt, raw) + "\" (type "
    + (if raw.Str? then "string" else "number") + ") at path \"" + path + "\""
  }

  /** A required Number path with inclusive `min` and `max`: the cast error, else
      `required`, else `min`, else `max`, whichever fails first. */
  function AmountCheck(rt: Runtime, path: string, slot: NumberSlot, required: string,
                       lo: real, tooLow: string, hi: real, tooHigh: string): (r: Option<FieldError>)
    ensures slot.Unset? ==> r == Some(FieldError(path, RequiredFailed, required))
    ensures slot.Uncastable? ==> r == Some(FieldError(path, CastFailed, CastMessage(rt, slot.raw, path)))
    ensures slot.Cast? && !AtLeast(slot.n, lo) ==> r == Some(FieldError(path, BelowMinimum, tooLow))
    ensures slot.Cast? && AtLeast(slot.n, lo) && !AtMost(slot.n, hi)
            ==> r == Some(FieldError(path, AboveMaximum, tooHigh))
    ensures r.None? <==> slot.Cast? && AtLeast(slot.n, lo) && AtMost(slot.n, hi)
  {
    match slot
    case Unset => Some(FieldError(path, RequiredFailed, required))
    case Uncastable(raw) => Some(FieldError(path, CastFailed, CastMessage(rt, raw, path)))
    case Cast(n) =>
      if !AtLeast(n, lo) then Some(FieldError(path, BelowMinimum, tooLow))
      else if !AtMost(n, hi) then Some(FieldError(path, AboveMaximum, tooHigh))
      else None
  }

  /** A path stops at its first failing validator. */
  function FirstOf(a: Option<FieldError>, b: Option<FieldError>): (r: Option<FieldError>)
    ensures r.None? <==> a.None? && b.None?
    ensures a.Some? ==> r == a
    ensures a.None? ==> r == b
  {
    if a.Some? then a else b
  }

  // ---------------------------------------------------------------------------
  // Collecting the errors of all paths.

  /** The error a path reports, as a list of at most one; a schema's errors are
      the concatenation of these in path order. */
  function Listed(check: Option<FieldError>): (r: seq<FieldError>)
    ensures |r| <= 1
    ensures r == [] <==> check.None?
    ensures check.Some? ==> r == [check.value]
  {
    if check.Some? then [check.value] else []
  }

  // ---------------------------------------------------------------------------
  // Paths declared alike in several schemas.

  /** A required String path with a `maxLength`: `required` first, then the length. */
  function BoundedText(path: string, v: Option<string>, required: string, max: nat, tooLong: string)
    : (r: Option<FieldError>)
    ensures r.None? <==> v.Some? && v.value != "" && |v.value| <= max
    ensures v.None? || v.value == "" ==> r == Some(FieldError(path, RequiredFailed, required))
    ensures v.Some? && v.value != "" && |v.value| > max ==> r == Some(FieldError(path, LengthExceeded, tooLong))
  {
    FirstOf(RequiredCheck(path, v, required), MaxLengthCheck(path, v, max, tooLong))
  }

  /** The `name` path of the entrepreneur and investor schemas: required, at most 100 characters. */
  function NamePathError(v: Option<string>): (r: Option<FieldError>)
    ensures r.None? <==> v.Some? && v.value != "" && |v.value| <= 100
    ensures r.Some? && v.Some? && v.value != "" ==> r.value.violation == LengthExceeded
  {
    BoundedText("name", v, "Name is required", 100, "Name cannot exceed 100 characters")
  }

  /** The `email` path of all three schemas: required, then the email pattern. */
  function EmailPathError(v: Option<string>): (r: Option<FieldError>)
    ensures r.None? <==> v.Some? && IsValidEmail(v.value)
    ensures v.None? || v.value == "" ==> r == Some(FieldError("email", RequiredFailed, "Email is required"))
  {
    FirstOf(RequiredCheck("email", v, "Email is required"),
            EmailCheck("email", v, "Please enter a valid email"))
  }

  /** The `phone` path of the entrepreneur and investor schemas: required, then ten digits. */
  function PhonePathError(v: Option<string>): (r: Option<FieldError>)
    ensures r.None? <==> v.Some? && TenDigits(v.value)
    ensures v.None? || v.value == "" ==> r == Some(FieldError("phone", RequiredFailed, "Phone number is required"))
  {
    FirstOf(RequiredCheck("phone", v, "Phone number is required"),
            PhoneCheck("phone", v, "Please enter a valid 10-digit phone number"))
  }

  /** `Object.values(err.errors).map(e => e.message)`. */
  function Messages(errors: seq<FieldError>): (r: seq<string>)
    ensures |r| == |errors|
    ensures forall i :: 0 <= i < |errors| ==> r[i] == errors[i].message
  {
    seq(|errors|, i requires 0 <= i < |errors| => errors[i].message)
  }
}
