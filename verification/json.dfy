/**
 * The dynamically typed values the program passes around in dicts: what `json.load`
 * produces and what settings, sessions and analysis results hold, together with the
 * Python built-ins the program applies to them (`dict.get`, `bool()`, `int()`).
 */
module JsonValues {
  import opened Wrappers
  import opened Text
  import opened Decimal

  datatype Json =
    | JNull
    | JBool(b: bool)
    | JInt(i: int)
    | JReal(r: real)
    | JStr(s: string)
    | JList(items: seq<Json>)
    | JObj(fields: map<string, Json>)

  /** `d.get(k, default)`. */
  function Get(d: map<string, Json>, k: string, default: Json): (v: Json)
    ensures k in d ==> v == d[k]
    ensures k !in d ==> v == default
  {
    if k in d then d[k] else default
  }

  /** Python truthiness, `bool(v)`: None, False, zero and empty containers are false. */
  predicate Truthy(v: Json) {
    match v
    case JNull => false
    case JBool(b) => b
    case JInt(i) => i != 0
    case JReal(r) => r != 0.0
    case JStr(s) => s != []
    case JList(items) => items != []
    case JObj(fields) => fields != map[]
  }

  /** `v in allowed` for a list of strings: only a string equal to one of them is in it. */
  predicate InStrings(v: Json, allowed: seq<string>) {
    v.JStr? && v.s in allowed
  }

  /** `int(x)` of a float: truncation toward zero. */
  function Trunc(x: real): (n: int)
    ensures x >= 0.0 ==> n as real <= x < n as real + 1.0
    ensures x < 0.0 ==> n as real - 1.0 < x <= n as real
  {
    if x >= 0.0 then x.Floor else -((-x).Floor)
  }

  /** `str(n)` for any integer. */
  function IntStr(n: int): (r: string)
    ensures |r| >= 1
  {
    if n < 0 then "-" + NatStr(-n) else NatStr(n)
  }

  /** `int(s)` of a string: surrounding whitespace, an optional sign, then one or more
      decimal digits; anything else raises `ValueError`, here `None`. */
  function ParseInt(s: string): (r: Option<int>)
    ensures r.Some? ==> Strip(s) != []
  {
    var t := Strip(s);
    if t == [] then None
    else
      var neg := t[0] == '-';
      var body := if t[0] == '-' || t[0] == '+' then t[1..] else t;
      if body == [] || !AllDigits(body) then None
      else
        var magnitude: int := DigitsValue(body);
        Some(if neg then -magnitude else magnitude)
  }

  /** Neither a digit nor a minus sign is whitespace. */
  lemma NotSpace(c: char)
    requires IsDigit(c) || c == '-'
    ensures c !in Whitespace
  {
  }

  /** A run of digits, possibly signed, is its own `strip()`. */
  lemma StripNumeral(s: string)
    requires |s| >= 1 && (IsDigit(s[0]) || s[0] == '-') && IsDigit(s[|s| - 1])
    ensures Strip(s) == s
  {
    NotSpace(s[0]);
    NotSpace(s[|s| - 1]);
    StripSetNoop(s, Whitespace);
  }

  /** Reading back `str(n)` gives `n`. */
  lemma ParseIntStr(n: int)
    ensures ParseInt(IntStr(n)) == Some(n)
  {
    var m: nat := if n < 0 then -n else n;
    var digits := NatStr(m);
    assert DigitsValue(digits) == m by {
      ValueOfNatStr(m);
    }
    if n < 0 {
      assert ParseInt("-" + digits) == Some(-(DigitsValue(digits) as int)) by {
        NegDigitsParse(digits);
      }
    } else {
      assert ParseInt(digits) == Some(DigitsValue(digits)) by {
        DigitsParse(digits);
      }
    }
  }

  /** `int()` of a minus sign and a nonempty run of digits is the negated number. */
  lemma NegDigitsParse(ds: string)
    requires ds != [] && AllDigits(ds)
    ensures ParseInt("-" + ds) == Some(-(DigitsValue(ds) as int))
  {
    var s := "-" + ds;
    assert s[|s| - 1] == ds[|ds| - 1] && IsDigit(ds[|ds| - 1]);
    StripNumeral(s);
    assert s[1..] == ds;
  }

  /** `int()` of a nonempty run of digits is the number they spell. */
  lemma DigitsParse(ds: string)
    requires ds != [] && AllDigits(ds)
    ensures ParseInt(ds) == Some(DigitsValue(ds))
  {
    StripNumeral(ds);
  }

  /** `int(v)` as the validators call it: `None` where Python raises `ValueError` or
      `TypeError`. */
  function PyInt(v: Json): (r: Option<int>)
    ensures v.JInt? ==> r == Some(v.i)
    ensures v.JBool? ==> r == Some(if v.b then 1 else 0)
    ensures v.JNull? || v.JList? || v.JObj? ==> r == None
  {
    match v
    case JInt(i) => Some(i)
    case JBool(b) => Some(if b then 1 else 0)
    case JReal(x) => Some(Trunc(x))
    case JStr(s) => ParseInt(s)
    case _ => None
  }

  /** Whether `v` can be a dict key (lists and dicts cannot). */
  predicate Hashable(v: Json) {
    !v.JList? && !v.JObj?
  }

  /** `lo if n < lo else hi if n > hi else n`. */
  function Clamp(n: int, lo: int, hi: int): (r: int)
    requires lo <= hi
    ensures lo <= r <= hi
    ensures lo <= n <= hi ==> r == n
  {
    if n < lo then lo else if n > hi then hi else n
  }
}
