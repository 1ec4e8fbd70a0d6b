/** The parts of Python's runtime that the integration relies on: the JSON-like
    values the OnStar client returns, truthiness, the `in`, `x[key]`, `x.get(key)`
    and `x[0]` operators together with the exceptions they raise, iteration,
    `float(...)`, `int(...)` on digit strings and `str(...)`. */
module Python {

  /** The exception classes the modelled code raises or catches. */
  datatype Exception =
    | ClientError          // aiohttp transport failure
    | HomeAssistantError
    | UpdateFailed         // a HomeAssistantError subclass
    | CannotConnectError   // a HomeAssistantError subclass, raised by the config flow
    | ValueError
    | KeyError
    | TypeError
    | AttributeError
    | IndexError
    | OtherError           // any exception class not named above

  predicate IsHomeAssistantError(e: Exception)
  {
    e == HomeAssistantError || e == UpdateFailed || e == CannotConnectError
  }

  /** The handler list every coordinator, sensor, lock and switch method uses:
      `except ClientError`, `except HomeAssistantError`, `except (ValueError, KeyError)`. */
  predicate IsCaught(e: Exception)
  {
    e == ClientError || IsHomeAssistantError(e) || e == ValueError || e == KeyError
  }

  /** The outcome of evaluating a Python expression: a value or a raised exception. */
  datatype Py<+T> = Ok(value: T) | Raise(error: Exception) {
    predicate IsFailure() { Raise? }
    function PropagateFailure<U>(): Py<U>
      requires Raise?
    {
      Raise(error)
    }
    function Extract(): T
      requires Ok?
    {
      value
    }
  }

  datatype Option<+T> = None | Some(value: T)

  /** A JSON-decoded Python value. `Num` stands for any JSON number. */
  datatype Json =
    | Null
    | Bool(b: bool)
    | Num(n: int)
    | Str(s: string)
    | Arr(items: seq<Json>)
    | Obj(fields: map<string, Json>)

  /** `bool(j)`. */
  predicate Truthy(j: Json)
  {
    match j
    case Null => false
    case Bool(b) => b
    case Num(n) => n != 0
    case Str(s) => s != ""
    case Arr(xs) => xs != []
    case Obj(m) => m != map[]
  }

  predicate OccursAt(needle: string, hay: string, i: int)
  {
    0 <= i && i + |needle| <= |hay| && hay[i..i + |needle|] == needle
  }

  /** `needle in hay` for two strings. */
  predicate IsSubstring(needle: string, hay: string)
  {
    exists i | 0 <= i <= |hay| - |needle| :: OccursAt(needle, hay, i)
  }

  /** `key in container` for a string key. */
  function In(key: string, container: Json): (r: Py<bool>)
    ensures container.Obj? ==> r == Ok(key in container.fields)
    ensures r.Raise? <==> container.Null? || container.Bool? || container.Num?
  {
    match container
    case Obj(m) => Ok(key in m)
    case Arr(xs) => Ok(Str(key) in xs)
    case Str(s) => Ok(IsSubstring(key, s))
    case _ => Raise(TypeError)
  }

  /** `container[key]` for a string key. */
  function Item(container: Json, key: string): (r: Py<Json>)
    ensures r.Ok? <==> container.Obj? && key in container.fields
    ensures r.Ok? ==> r.value == container.fields[key]
    ensures r.Raise? ==> r.error == (if container.Obj? then KeyError else TypeError)
  {
    match container
    case Obj(m) => if key in m then Ok(m[key]) else Raise(KeyError)
    case _ => Raise(TypeError)
  }

  /** `container.get(key, default)`; only dicts have `.get`. */
  function Get(container: Json, key: string, default: Json := Null): (r: Py<Json>)
    ensures r.Ok? <==> container.Obj?
    ensures r.Ok? && key in container.fields ==> r.value == container.fields[key]
    ensures r.Ok? && key !in container.fields ==> r.value == default
    ensures r.Raise? ==> r.error == AttributeError
  {
    if container.Obj? then
      Ok(if key in container.fields then container.fields[key] else default)
    else
      Raise(AttributeError)
  }

  /** `container[0]`. JSON objects have string keys only, so `0` is never a key. */
  function First(container: Json): (r: Py<Json>)
    ensures container.Arr? && container.items != [] ==> r == Ok(container.items[0])
    ensures r.Ok? ==> container.Arr? || container.Str?
  {
    match container
    case Arr(xs) => if xs == [] then Raise(IndexError) else Ok(xs[0])
    case Str(s) => if s == [] then Raise(IndexError) else Ok(Str([s[0]]))
    case Obj(_) => Raise(KeyError)
    case _ => Raise(TypeError)
  }

  /** The items of `for x in j:` when the loop body starts by calling `x.get(...)`,
      as every such loop in this integration does. A list yields its elements.
      A dict or a string yields strings, which have no `.get`, so a non-empty one
      raises AttributeError at the first item and an empty one runs no iteration.
      Anything else is not iterable. */
  function IterateForGet(j: Json): (r: Py<seq<Json>>)
    ensures j.Arr? ==> r == Ok(j.items)
    ensures r.Raise? <==> j.Null? || j.Bool? || j.Num? || ((j.Obj? || j.Str?) && Truthy(j))
  {
    match j
    case Arr(xs) => Ok(xs)
    case Obj(m) => if m == map[] then Ok([]) else Raise(AttributeError)
    case Str(s) => if s == "" then Ok([]) else Raise(AttributeError)
    case _ => Raise(TypeError)
  }

  /** `table.get(key, default)` on a dict whose keys are strings, with a JSON
      value as the key: a list or a dict is unhashable. */
  function LookupByValue(table: map<string, string>, key: Json, default: string): (r: Py<string>)
    ensures r.Raise? <==> key.Arr? || key.Obj?
    ensures r.Ok? ==> r.value == (if key.Str? && key.s in table then table[key.s] else default)
  {
    if key.Arr? || key.Obj? then Raise(TypeError)
    else if key.Str? && key.s in table then Ok(table[key.s])
    else Ok(default)
  }

  // ---------------------------------------------------------------------------
  // float(...)

  predicate IsDigit(c: char) { '0' <= c <= '9' }

  /** The ASCII characters str.strip() and float() treat as white space. */
  predicate IsSpace(c: char)
  {
    c == ' ' || (9 <= c as int <= 13) || (28 <= c as int <= 31)
  }

  function TrimStart(s: string): (r: string)
    ensures |r| <= |s| && r == s[|s| - |r|..]
    ensures r != "" ==> !IsSpace(r[0])
  {
    if s != "" && IsSpace(s[0]) then TrimStart(s[1..]) else s
  }

  function TrimEnd(s: string): (r: string)
    ensures |r| <= |s| && r == s[..|r|]
    ensures r != "" ==> !IsSpace(r[|r| - 1])
  {
    if s != "" && IsSpace(s[|s| - 1]) then TrimEnd(s[..|s| - 1]) else s
  }

  function Strip(s: string): string
  {
    TrimEnd(TrimStart(s))
  }

  function LowerAscii(s: string): (r: string)
    ensures |r| == |s|
  {
    if s == "" then ""
    else [if 'A' <= s[0] <= 'Z' then (s[0] as int + 32) as char else s[0]] + LowerAscii(s[1..])
  }

  /** digit (["_"] digit)* */
  predicate DigitPart(s: string)
  {
    && s != ""
    && IsDigit(s[0])
    && forall i | 0 <= i < |s| :: IsDigit(s[i]) || (s[i] == '_' && i + 1 < |s| && IsDigit(s[i + 1]))
  }

  /** [digitpart] "." digitpart | digitpart ["."] */
  predicate PointNumber(s: string)
  {
    || DigitPart(s)
    || (s != "" && s[|s| - 1] == '.' && DigitPart(s[..|s| - 1]))
    || exists i | 0 <= i < |s| :: s[i] == '.' && (i == 0 || DigitPart(s[..i])) && DigitPart(s[i + 1..])
  }

  predicate Exponent(s: string)
  {
    DigitPart(s) || (s != "" && (s[0] == '+' || s[0] == '-') && DigitPart(s[1..]))
  }

  /** number [("e" | "E") exponent] */
  predicate FloatNumber(s: string)
  {
    || PointNumber(s)
    || exists i | 0 <= i < |s| :: (s[i] == 'e' || s[i] == 'E') && PointNumber(s[..i]) && Exponent(s[i + 1..])
  }

  predicate UnsignedFloat(s: string)
  {
    FloatNumber(s) || LowerAscii(s) in {"inf", "infinity", "nan"}
  }

  /** The strings float() accepts: surrounding white space, an optional sign, then a
      decimal literal or inf, infinity, nan in any case. */
  predicate FloatText(s: string)
  {
    var t := Strip(s);
    UnsignedFloat(t) || (t != "" && (t[0] == '+' || t[0] == '-') && UnsignedFloat(t[1..]))
  }

  /** `float(j)`. The model does not compute the float: an `Ok` carries the
      value that was converted. */
  function ToFloat(j: Json): (r: Py<Json>)
    ensures r.Ok? ==> r.value == j
    ensures r.Raise? ==> r.error == (if j.Str? then ValueError else TypeError)
    ensures j.Num? || j.Bool? ==> r.Ok?
    ensures j.Null? || j.Arr? || j.Obj? ==> r.Raise?
  {
    match j
    case Bool(_) => Ok(j)
    case Num(_) => Ok(j)
    case Str(s) => if FloatText(s) then Ok(j) else Raise(ValueError)
    case _ => Raise(TypeError)
  }

  lemma LeadingLetterPointNumber(s: string)
    requires s != "" && !IsDigit(s[0]) && s[0] != '.'
    ensures !PointNumber(s)
  {
  }

  /** A string that starts with a letter other than i or n (in either case) and
      does not end in white space is never accepted by float(): the names the
      sensors pass as defaults ("TIRE PRESSURE LF", "EV RANGE", ...) are such strings. */
  lemma LeadingLetterNotFloat(s: string)
    requires s != "" && ('A' <= s[0] <= 'Z' || 'a' <= s[0] <= 'z')
    requires s[0] !in {'i', 'I', 'n', 'N'}
    requires !IsSpace(s[|s| - 1])
    ensures !FloatText(s)
  {
    assert TrimStart(s) == s;
    assert Strip(s) == s;
    LeadingLetterPointNumber(s);
    forall i | 0 <= i < |s| && (s[i] == 'e' || s[i] == 'E') && i > 0
      ensures !PointNumber(s[..i])
    {
      assert s[..i][0] == s[0];
      LeadingLetterPointNumber(s[..i]);
    }
    assert !FloatNumber(s) by {
      if exists i | 0 <= i < |s| :: (s[i] == 'e' || s[i] == 'E') && PointNumber(s[..i]) && Exponent(s[i + 1..]) {
        var i :| 0 <= i < |s| && (s[i] == 'e' || s[i] == 'E') && PointNumber(s[..i]) && Exponent(s[i + 1..]);
      }
    }
    var low := LowerAscii(s);
    assert low[0] !in {'i', 'n'};
    assert low != "inf" && low != "infinity" && low != "nan";
  }

  // ---------------------------------------------------------------------------
  // int(...) on digit strings and str(...) of integers

  function DigitValue(c: char): nat
    requires IsDigit(c)
  {
    c as int - '0' as int
  }

  function DigitChar(d: nat): (c: char)
    requires d < 10
    ensures IsDigit(c) && DigitValue(c) == d
  {
    ('0' as int + d) as char
  }

  predicate AllDigits(s: string)
  {
    forall i | 0 <= i < |s| :: IsDigit(s[i])
  }

  /** The value of a string of decimal digits. */
  function DigitsValue(s: string): nat
    requires AllDigits(s)
  {
    if s == "" then 0 else DigitsValue(s[..|s| - 1]) * 10 + DigitValue(s[|s| - 1])
  }

  /** `str(n)` for a natural number. */
  function NatToString(n: nat): (r: string)
    ensures r != "" && AllDigits(r)
  {
    if n < 10 then [DigitChar(n)] else NatToString(n / 10) + [DigitChar(n % 10)]
  }

  /** `str(i)` for an integer. */
  function IntToString(i: int): string
  {
    if i < 0 then "-" + NatToString(-i) else NatToString(i)
  }

  /** `int(s)` where `s` contains only digits and dots (the strings the version
      regex captures): the empty string and a dot are rejected. */
  function ParseNat(s: string): (r: Py<nat>)
    ensures r.Ok? <==> s != "" && AllDigits(s)
    ensures r.Raise? ==> r.error == ValueError
  {
    if s != "" && AllDigits(s) then Ok(DigitsValue(s)) else Raise(ValueError)
  }

  lemma {:induction false} NatToStringRoundTrip(n: nat)
    ensures DigitsValue(NatToString(n)) == n
  {
    if n >= 10 {
      var s := NatToString(n);
      NatToStringRoundTrip(n / 10);
      assert s[..|s| - 1] == NatToString(n / 10);
    }
  }

  /** `str(...)` of the scalar values a vehicle record holds. Lists and dicts are
      rendered by a placeholder instead of Python's repr. */
  function PyStr(j: Json): string
  {
    match j
    case Null => "None"
    case Bool(b) => if b then "True" else "False"
    case Num(n) => IntToString(n)
    case Str(s) => s
    case Arr(_) => "[...]"
    case Obj(_) => "{...}"
  }
}
