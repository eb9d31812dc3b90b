/**
  * Decoded JSON values as the handlers receive them (request bodies) and
  * produce them (response bodies), plus the few pieces of Python and sqlite3
  * behaviour the handlers rely on when they look at a value.
  */
module Json {

  datatype Option<+T> = None | Some(value: T)

  /** A decoded JSON value; `Null` is Python's `None` and SQL's NULL. */
  datatype Value =
    | Null
    | Bool(b: bool)
    | Num(x: real)
    | Str(s: string)
    | Arr(items: seq<Value>)
    | Obj(fields: map<string, Value>)

  /** A request body: a JSON object already decoded into a dictionary. */
  type Body = map<string, Value>

  /** `dict.get(key)`: the value under `key`, or `None` when the key is absent. */
  function Get(body: Body, key: string): Value
  {
    if key in body then body[key] else Null
  }

  /** `dict.get(key, default)`. */
  function GetOr(body: Body, key: string, default: Value): Value
  {
    if key in body then body[key] else default
  }

  /** Python truthiness of a decoded JSON value (`not v` is its negation). */
  predicate Truthy(v: Value)
  {
    match v
    case Null => false
    case Bool(b) => b
    case Num(x) => x != 0.0
    case Str(s) => s != ""
    case Arr(items) => items != []
    case Obj(fields) => fields != map[]
  }

  /**
    * sqlite3 binds None, booleans, numbers and strings; a list or a dict
    * fails, and so does an integer outside the signed 64-bit range, which
    * this model does not tell apart (`Num` holds any number). This is all a
    * `String` or `Text` column asks; a `Float` column asks more
    * (`FloatBindable`).
    */
  predicate Bindable(v: Value)
  {
    !v.Arr? && !v.Obj?
  }

  /**
    * What SQLAlchemy's `Float` type lets through on SQLite: its bind
    * processor passes `float(value)` to sqlite3, so besides null, booleans
    * and numbers only text that `float()` reads as a number gets through;
    * any other text, a list or a dict raises when the commit executes.
    */
  predicate FloatBindable(v: Value)
  {
    match v
    case Str(s) => FloatText(s)
    case _ => Bindable(v)
  }

  // ---------------------------------------------------------------------------
  // The text `float()` accepts

  predicate IsDigit(c: char)
  {
    '0' <= c <= '9'
  }

  /** The ASCII whitespace `float()` strips from both ends of its argument. */
  predicate IsSpace(c: char)
  {
    c == ' ' || c == '\t' || c == '\n' || c == '\r' || c == '\U{0B}' || c == '\U{0C}'
  }

  /** `s.strip()`: `s` without its leading and trailing whitespace. */
  function Strip(s: string): (t: string)
    ensures |t| <= |s|
    ensures t != [] ==> !IsSpace(t[0]) && !IsSpace(t[|t| - 1])
    decreases |s|
  {
    if s != [] && IsSpace(s[0]) then Strip(s[1..])
    else if s != [] && IsSpace(s[|s| - 1]) then Strip(s[..|s| - 1])
    else s
  }

  /** The index of the first character of `s` in `cs`, or `|s|` when there is none. */
  function FirstOf(s: string, cs: set<char>): (i: nat)
    ensures i <= |s| && (i < |s| ==> s[i] in cs)
    ensures forall j | 0 <= j < i :: s[j] !in cs
  {
    if s == [] || s[0] in cs then 0 else 1 + FirstOf(s[1..], cs)
  }

  /** `digit (["_"] digit)*`: ASCII digits, with single underscores only between two of them. */
  predicate DigitPart(s: string)
  {
    && s != [] && IsDigit(s[0])
    && (|s| == 1 || DigitPart(s[1..]) || (s[1] == '_' && DigitPart(s[2..])))
  }

  lemma {:induction false} DigitsArePart(s: string)
    requires s != [] && forall i | 0 <= i < |s| :: IsDigit(s[i])
    ensures DigitPart(s)
  {
    if |s| > 1 {
      DigitsArePart(s[1..]);
    }
  }

  /** A mantissa: `digitpart ["." [digitpart]]` or `"." digitpart`. */
  predicate Mantissa(s: string)
  {
    var d := FirstOf(s, {'.'});
    if d == |s| then DigitPart(s)
    else
      var whole, fraction := s[..d], s[d + 1..];
      || (DigitPart(whole) && (fraction == [] || DigitPart(fraction)))
      || (whole == [] && DigitPart(fraction))
  }

  /** An unsigned decimal literal: a mantissa, then optionally `e` or `E`, a sign and digits. */
  predicate Decimal(s: string)
  {
    var e := FirstOf(s, {'e', 'E'});
    && Mantissa(s[..e])
    && (e < |s| ==>
          var x := s[e + 1..];
          DigitPart(x) || (x != [] && (x[0] == '+' || x[0] == '-') && DigitPart(x[1..])))
  }

  /** ASCII letters in lower case, every other character as it is. */
  function Lower(s: string): (t: string)
    ensures |t| == |s|
  {
    seq(|s|, i requires 0 <= i < |s| => if 'A' <= s[i] <= 'Z' then (s[i] as int + 32) as char else s[i])
  }

  /**
    * `float(s)` returns rather than raising `ValueError`: after stripping
    * whitespace, an optional sign and then a decimal literal or one of `inf`,
    * `infinity` and `nan` in any letter case.
    */
  predicate FloatText(s: string)
  {
    var t := Strip(s);
    var u := if t != [] && (t[0] == '+' || t[0] == '-') then t[1..] else t;
    Lower(u) in {"inf", "infinity", "nan"} || Decimal(u)
  }

  /** Stripping keeps the first character when it is not whitespace. */
  lemma {:induction false} StripKeepsFirst(s: string)
    requires s != [] && !IsSpace(s[0])
    ensures Strip(s) != [] && Strip(s)[0] == s[0]
    decreases |s|
  {
    if IsSpace(s[|s| - 1]) {
      StripKeepsFirst(s[..|s| - 1]);
    }
  }

  /** A plain numeral, such as a JSON client sends for a number typed as text, passes `float()`. */
  lemma NumeralIsFloatText(s: string)
    requires s != [] && forall i | 0 <= i < |s| :: IsDigit(s[i])
    ensures FloatText(s)
  {
    DigitsArePart(s);
    assert Strip(s) == s;
    assert FirstOf(s, {'e', 'E'}) == |s|;
    assert FirstOf(s, {'.'}) == |s|;
    assert s[..|s|] == s;
  }

  /**
    * Text that starts with a letter other than those of `inf` and `nan`, a
    * word such as `warm` or `north`, fails `float()`.
    */
  lemma WordIsNotFloatText(s: string)
    requires s != [] && ('a' <= s[0] <= 'z' || 'A' <= s[0] <= 'Z')
    requires s[0] !in {'i', 'I', 'n', 'N'}
    ensures !FloatText(s)
  {
    StripKeepsFirst(s);
    var t := Strip(s);
    assert Lower(t)[0] != 'i' && Lower(t)[0] != 'n';
    var e := FirstOf(t, {'e', 'E'});
    if e > 0 {
      var m := t[..e];
      assert m[0] == s[0];
      var d := FirstOf(m, {'.'});
      assert d > 0;
    }
  }

  /** An HTTP response: status code and JSON body. */
  datatype Response = Response(status: int, body: Value)

  function Message(text: string): Value
  {
    Obj(map["message" := Str(text)])
  }

  function Error(text: string): Value
  {
    Obj(map["error" := Str(text)])
  }

  /** Flask's reply to an exception that no handler catches. */
  const InternalError: Response := Response(500, Str("Internal Server Error"))

  /** Flask's reply to `abort(404, description=...)` and `get_or_404`. */
  function Abort404(description: string): Response
  {
    Response(404, Str(description))
  }
}
