/** The JavaScript values the dashboard reads out of its JSON snapshot, and the
    few built-in operations of the language its chart code relies on.

    A decoded JSON value is a `Json`; a property that is absent reads as
    `undefined`, which is `None` of an `Option<Json>`.  `JSON.parse`,
    `parseFloat` on text and the calendar fields of `new Date(...)` are not
    written out: they are parameters (`Builtins`) that every derivation takes,
    so each property proved below holds whatever those functions do. */
module Js {
  import opened Results

  datatype Json =
    | JNull
    | JBool(b: bool)
    | JNum(n: real)
    | JStr(s: string)
    | JArr(items: seq<Json>)
    | JObj(fields: map<string, Json>)

  /** A JavaScript number that is not NaN; NaN itself is `None` of an `Option<Num>`. */
  datatype Num = Fin(r: real) | PosInf | NegInf

  /** `getFullYear()` and `getMonth()` (0 to 11) of a `Date`, or an invalid date. */
  datatype CalendarMonth = Month(year: int, month: int) | InvalidDate

  datatype Builtins = Builtins(
    parseJson: string -> Option<Json>,         // JSON.parse on a text; None: it throws SyntaxError
    parseFloat: string -> Option<Num>,         // parseFloat on a text; None: NaN
    calendar: Option<Json> -> CalendarMonth)   // new Date(v), read through getFullYear/getMonth

  /** The properties of an object in `Object.keys` order. */
  type Entries = seq<(string, Json)>

  function Keys(e: Entries): (ks: seq<string>)
    ensures |ks| == |e| && forall i :: 0 <= i < |e| ==> ks[i] == e[i].0
  {
    seq(|e|, i requires 0 <= i < |e| => e[i].0)
  }

  /** `obj[key]`. */
  function Lookup(e: Entries, key: string): (r: Option<Json>)
    ensures r.Some? <==> key in Keys(e)
    ensures r.Some? ==> exists i :: 0 <= i < |e| && e[i] == (key, r.value)
    decreases |e|
  {
    if e == [] then None
    else if e[0].0 == key then Some(e[0].1)
    else
      var r := Lookup(e[1..], key);
      assert Keys(e) == [e[0].0] + Keys(e[1..]);
      assert r.Some? ==> exists i :: 0 <= i < |e[1..]| && e[1..][i] == (key, r.value);
      r
  }

  /** JavaScript truthiness of a defined value (NaN cannot occur in JSON). */
  predicate Truthy(v: Json)
  {
    match v
    case JNull => false
    case JBool(b) => b
    case JNum(n) => n != 0.0
    case JStr(s) => s != ""
    case JArr(_) => true
    case JObj(_) => true
  }

  predicate TruthyOpt(v: Option<Json>)
  {
    v.Some? && Truthy(v.value)
  }

  /** `v || 0`: the value itself when it is truthy, otherwise the number 0. */
  function OrZero(v: Option<Json>): (r: Json)
    ensures TruthyOpt(v) ==> Some(r) == v
    ensures !TruthyOpt(v) ==> r == JNum(0.0)
  {
    if TruthyOpt(v) then v.value else JNum(0.0)
  }

  /** `v.key` on a defined value: reading a property of `null` throws, a primitive
      or an array has none of the record keys the charts read. */
  function Get(v: Json, key: string): (r: Result<Option<Json>>)
    ensures r.Err? <==> v == JNull
    ensures r.Err? ==> r.failure == TypeError
    ensures r.Ok? && r.value.Some? ==> v.JObj? && key in v.fields && r.value.value == v.fields[key]
    ensures v.JObj? && key in v.fields ==> r == Ok(Some(v.fields[key]))
  {
    match v
    case JNull => Err(TypeError)
    case JObj(m) => Ok(if key in m then Some(m[key]) else None)
    case _ => Ok(None)
  }

  /** `v.forEach(...)` / `v.map(...)`: only an array has these methods. */
  function AsArray(v: Json): (r: Result<seq<Json>>)
    ensures r.Ok? <==> v.JArr?
    ensures r.Ok? ==> r.value == v.items
    ensures r.Err? ==> r.failure == TypeError
  {
    if v.JArr? then Ok(v.items) else Err(TypeError)
  }

  /** `s.slice(0, 10)` on a string. */
  function Prefix10(s: string): (r: string)
    ensures |r| == if |s| < 10 then |s| else 10
    ensures r == s[..|r|]
  {
    if |s| < 10 then s else s[..10]
  }

  /** `v.slice(0, 10)`: strings and arrays have `slice`; anything else throws. */
  function SliceTen(v: Option<Json>): (r: Result<Json>)
    ensures r.Ok? <==> v.Some? && (v.value.JStr? || v.value.JArr?)
    ensures r.Ok? && v.value.JStr? ==> r.value == JStr(Prefix10(v.value.s))
    ensures r.Err? ==> r.failure == TypeError
  {
    match v
    case Some(JStr(s)) => Ok(JStr(Prefix10(s)))
    case Some(JArr(xs)) => Ok(JArr(if |xs| < 10 then xs else xs[..10]))
    case _ => Err(TypeError)
  }

  /** `item.date.slice(0, 10)` with neither the item nor its date guarded. */
  function SliceDate(item: Json): (r: Result<Json>)
    ensures r.Ok? <==> item.JObj? && "date" in item.fields && (item.fields["date"].JStr? || item.fields["date"].JArr?)
    ensures r.Ok? && item.fields["date"].JStr? ==> r.value == JStr(Prefix10(item.fields["date"].s))
    ensures r.Err? ==> r.failure == TypeError
  {
    var date :- Get(item, "date");
    SliceTen(date)
  }

  /** `parseFloat(v)`: the argument is first turned into text.  A number's text
      parses back to the number; `null`, booleans and objects never read as
      numbers; an array's text is its elements joined by commas, and since a
      comma ends a number, only the first element's text is read. */
  function ParseFloat(v: Json, env: Builtins): (r: Option<Num>)
    ensures v.JNum? ==> r == Some(Fin(v.n))
    ensures v.JStr? ==> r == env.parseFloat(v.s)
    ensures v.JNull? || v.JBool? || v.JObj? ==> r == None
    decreases v
  {
    match v
    case JNum(n) => Some(Fin(n))
    case JStr(s) => env.parseFloat(s)
    case JArr(xs) =>
      if xs == [] || xs[0] == JNull then None else ParseFloat(xs[0], env)
    case _ => None
  }

  /** `ToNumber(v)` as used by `>`, `<`, `-` and unary minus, for the values whose
      conversion the model follows: `None` of the inner option is NaN (from
      `undefined`); texts, arrays and objects are `Unsupported`. */
  function ToNumeric(v: Option<Json>): (r: Result<Option<real>>)
    ensures v.Some? && v.value.JNum? ==> r == Ok(Some(v.value.n))
    ensures v == None ==> r == Ok(None)
    ensures v == Some(JNull) ==> r == Ok(Some(0.0))
    ensures v.Some? && v.value.JBool? ==> r == Ok(Some(if v.value.b then 1.0 else 0.0))
    ensures v.Some? && (v.value.JStr? || v.value.JArr? || v.value.JObj?) ==> r == Err(Unsupported)
    ensures r.Err? ==> r.failure == Unsupported
  {
    match v
    case None => Ok(None)
    case Some(JNull) => Ok(Some(0.0))
    case Some(JBool(b)) => Ok(Some(if b then 1.0 else 0.0))
    case Some(JNum(n)) => Ok(Some(n))
    case Some(_) => Err(Unsupported)
  }

  /** `JSON.parse(s)` on a text. */
  function ParseText(s: string, env: Builtins): (r: Result<Json>)
    ensures r.Ok? <==> env.parseJson(s).Some?
    ensures r.Ok? ==> r.value == env.parseJson(s).value
    ensures r.Err? ==> r.failure == SyntaxError
  {
    match env.parseJson(s)
    case Some(j) => Ok(j)
    case None => Err(SyntaxError)
  }

  /** `JSON.parse(v)`.  Its argument is first turned into text: `undefined`
      becomes "undefined", which is not JSON; a number, a boolean or `null`
      reads back as itself; a record becomes "[object Object]", which is not
      JSON; an array becomes the text of its elements joined by commas, which
      is then parsed.  An array holding a number is `Unsupported`. */
  function JsonParse(v: Option<Json>, env: Builtins): (r: Result<Json>)
    ensures v.Some? && v.value.JStr? ==> r == ParseText(v.value.s, env)
    ensures v.Some? && v.value.JArr? && ElementText(v.value).Some? ==>
      r == ParseText(ElementText(v.value).value, env)
    ensures v == None || (v.Some? && v.value.JObj?) ==> r == Err(SyntaxError)
    ensures v.Some? && (v.value.JNull? || v.value.JBool? || v.value.JNum?) ==> r == Ok(v.value)
    ensures r.Err? ==> r.failure == SyntaxError || (r.failure == Unsupported && v.Some? && v.value.JArr?)
  {
    match v
    case None => Err(SyntaxError)
    case Some(JStr(s)) => ParseText(s, env)
    case Some(JArr(xs)) =>
      (match ElementText(JArr(xs))
       case Some(t) => ParseText(t, env)
       case None => Err(Unsupported))
    case Some(JObj(_)) => Err(SyntaxError)
    case Some(j) => Ok(j)
  }

  /** `String(v)` for a value inside an array being joined: `null` gives the
      empty text, a record "[object Object]", an array the comma-joined text of
      its own elements.  `None` for a number, whose text the model does not
      write out. */
  function ElementText(v: Json): (r: Option<string>)
    ensures v.JNull? ==> r == Some("")
    ensures v.JBool? ==> r == Some(if v.b then "true" else "false")
    ensures v.JObj? ==> r == Some("[object Object]")
    ensures v.JStr? ==> r == Some(v.s)
    ensures v.JArr? && |v.items| == 1 ==> r == ElementText(v.items[0])
    ensures r.None? <==> v.JNum? || (v.JArr? && exists i :: 0 <= i < |v.items| && ElementText(v.items[i]).None?)
    decreases v
  {
    match v
    case JNull => Some("")
    case JBool(b) => Some(if b then "true" else "false")
    case JNum(_) => None
    case JStr(s) => Some(s)
    case JArr(xs) =>
      var ts := seq(|xs|, i requires 0 <= i < |xs| => ElementText(xs[i]));
      assert forall i :: 0 <= i < |xs| ==> ts[i] == ElementText(xs[i]);
      Join(ts)
    case JObj(_) => Some("[object Object]")
  }

  /** The texts joined with commas, or `None` when one of them is missing. */
  function Join(ts: seq<Option<string>>): (r: Option<string>)
    ensures r.Some? <==> forall i :: 0 <= i < |ts| ==> ts[i].Some?
    ensures |ts| == 1 ==> r == ts[0]
    decreases |ts|
  {
    if ts == [] then Some("")
    else if ts[0].None? then None
    else if |ts| == 1 then ts[0]
    else
      var rest := Join(ts[1..]);
      assert forall i :: 1 <= i < |ts| ==> ts[1..][i - 1] == ts[i];
      if rest.None? then None else Some(ts[0].value + "," + rest.value)
  }

  /** An array holding only a text parses as that text itself: the element
      is the whole of the array's text. */
  lemma ParseSingleton(s: string, env: Builtins)
    ensures JsonParse(Some(JArr([JStr(s)])), env) == JsonParse(Some(JStr(s)), env)
  {
    assert ElementText(JArr([JStr(s)])) == ElementText(JStr(s));
  }

  /** `parseFloat(x.toFixed(d))` on a finite number, `unit` being 10^d: the
      nearest multiple of `1 / unit`, a tie going to the larger magnitude
      (`toFixed` rounds the magnitude and writes the sign in front).  From 10^21
      on, `toFixed` writes the number in exponent form, which reads back as the
      number itself. */
  function Fixed(x: real, unit: nat): (r: real)
    requires unit > 0
    ensures -1_000_000_000_000_000_000_000.0 < x < 1_000_000_000_000_000_000_000.0 ==>
      -0.5 / unit as real <= r - x <= 0.5 / unit as real
    ensures x <= -1_000_000_000_000_000_000_000.0 || 1_000_000_000_000_000_000_000.0 <= x ==> r == x
    ensures (x >= 0.0 ==> r >= 0.0) && (x <= 0.0 ==> r <= 0.0)
  {
    if x <= -1_000_000_000_000_000_000_000.0 || 1_000_000_000_000_000_000_000.0 <= x then x
    else if x >= 0.0 then NearestMultiple(x, unit as real)
    else -NearestMultiple(-x, unit as real)
  }

  /** Below 10^21 the rounded number has at most `d` decimals: it is a whole
      number of steps `1 / unit`. */
  lemma FixedSteps(x: real, unit: nat)
    requires unit > 0
    ensures -1_000_000_000_000_000_000_000.0 < x < 1_000_000_000_000_000_000_000.0 ==>
      MultipleOf(Fixed(x, unit), unit as real)
  {
    if -1_000_000_000_000_000_000_000.0 < x < 1_000_000_000_000_000_000_000.0 {
      if x >= 0.0 {
        NearestMultipleWhole(x, unit as real);
      } else {
        NearestMultipleWhole(-x, unit as real);
        MultipleNegate(NearestMultiple(-x, unit as real), unit as real);
      }
    }
  }

  /** `r` is a whole number of steps `1 / u`. */
  predicate MultipleOf(r: real, u: real)
  {
    (r * u).Floor as real == r * u
  }

  lemma MultipleNegate(r: real, u: real)
    requires MultipleOf(r, u)
    ensures MultipleOf(-r, u)
  {
    var k := (r * u).Floor;
    assert -r * u == -(r * u);
    assert -r * u == (-k) as real;
  }

  /** A non-negative `y` rounded to the nearest multiple of `1 / u`, a tie going up. */
  function NearestMultiple(y: real, u: real): (f: real)
    requires y >= 0.0 && u > 0.0
    ensures -0.5 / u <= f - y <= 0.5 / u && f >= 0.0
    ensures y == 0.0 ==> f == 0.0
  {
    var k := (y * u + 0.5).Floor;
    var n := k as real;
    NearestBounds(y, u, n);
    DivMonotone(0.0, n, u);
    n / u
  }

  /** The rounded value is a whole number of steps `1 / u`. */
  lemma NearestMultipleWhole(y: real, u: real)
    requires y >= 0.0 && u > 0.0
    ensures MultipleOf(NearestMultiple(y, u), u)
  {
    var k := (y * u + 0.5).Floor;
    assert NearestMultiple(y, u) == k as real / u;
    DivTimes(k as real, u);
    assert NearestMultiple(y, u) * u == k as real;
  }

  /** A whole number within half a step of `y * u` is, divided by `u`, within
      half of `1 / u` of `y`. */
  lemma NearestBounds(y: real, u: real, n: real)
    requires u > 0.0 && y * u - 0.5 < n <= y * u + 0.5
    ensures -0.5 / u <= n / u - y <= 0.5 / u
  {
    var z := y * u;
    assert y == z / u;
    assert n / u - y == (n - z) / u;
    DivMonotone(-0.5, n - z, u);
    DivMonotone(n - z, 0.5, u);
  }

  lemma DivTimes(n: real, u: real)
    requires u > 0.0
    ensures (n / u) * u == n
  {
  }

  lemma DivMonotone(a: real, b: real, u: real)
    requires a <= b && u > 0.0
    ensures a / u <= b / u
  {
    assert b / u - a / u == (b - a) / u;
  }

  /** `toFixed(2)`, read back as a number. */
  function Round2(x: real): (r: real)
    ensures -1_000_000_000_000_000_000_000.0 < x < 1_000_000_000_000_000_000_000.0 ==>
      -0.005 <= r - x <= 0.005 && MultipleOf(r, 100.0)
    ensures x <= -1_000_000_000_000_000_000_000.0 || 1_000_000_000_000_000_000_000.0 <= x ==> r == x
    ensures (x >= 0.0 ==> r >= 0.0) && (x <= 0.0 ==> r <= 0.0)
  {
    FixedSteps(x, 100);
    Fixed(x, 100)
  }

  /** `toFixed(4)`, read back as a number. */
  function Round4(x: real): (r: real)
    ensures -1_000_000_000_000_000_000_000.0 < x < 1_000_000_000_000_000_000_000.0 ==>
      -0.00005 <= r - x <= 0.00005 && MultipleOf(r, 10000.0)
    ensures x <= -1_000_000_000_000_000_000_000.0 || 1_000_000_000_000_000_000_000.0 <= x ==> r == x
    ensures (x >= 0.0 ==> r >= 0.0) && (x <= 0.0 ==> r <= 0.0)
  {
    FixedSteps(x, 10000);
    Fixed(x, 10000)
  }

  /** The decimal digits '0' to '9'. */
  predicate IsDigit(c: char)
  {
    '0' <= c <= '9'
  }

  predicate AllDigits(s: string)
  {
    forall i :: 0 <= i < |s| ==> IsDigit(s[i])
  }

  /** The number a text of decimal digits denotes, most significant first. */
  function DecimalValue(s: string): (r: nat)
    requires AllDigits(s)
    ensures s == [] ==> r == 0
    decreases |s|
  {
    if s == [] then 0
    else DecimalValue(s[..|s| - 1]) * 10 + (s[|s| - 1] as int - '0' as int)
  }

  /** The decimal text of an integer, as `String(n)` writes it: a minus sign
      for a negative number, then the digits with no leading zero. */
  function IntToString(n: int): (r: string)
    ensures n >= 0 ==> AllDigits(r) && r != [] && (r[0] == '0' ==> n == 0)
    ensures n < 0 ==> |r| >= 2 && r[0] == '-' && AllDigits(r[1..]) && r[1] != '0'
    decreases if n < 0 then 1 - n else n
  {
    if n < 0 then "-" + IntToString(-n)
    else if n < 10 then [DigitChar(n)]
    else IntToString(n / 10) + [DigitChar(n % 10)]
  }

  function DigitChar(d: int): (c: char)
    requires 0 <= d < 10
    ensures IsDigit(c) && c as int - '0' as int == d
  {
    ('0' as int + d) as char
  }

  /** The digits read back as the number: `String` of a non-negative integer
      is its decimal text. */
  lemma {:induction false} IntToStringValue(n: nat)
    ensures AllDigits(IntToString(n)) && DecimalValue(IntToString(n)) == n
    decreases n
  {
    if n >= 10 {
      IntToStringValue(n / 10);
      var t := IntToString(n / 10);
      var s := IntToString(n);
      assert s == t + [DigitChar(n % 10)];
      assert s[..|s| - 1] == t;
    }
  }

  /** Distinct integers have distinct texts, so each year gets its own label. */
  lemma IntToStringInjective(a: int, b: int)
    ensures IntToString(a) == IntToString(b) ==> a == b
  {
    if IntToString(a) == IntToString(b) {
      if a >= 0 && b >= 0 {
        IntToStringValue(a);
        IntToStringValue(b);
      } else if a < 0 && b < 0 {
        assert IntToString(a)[1..] == IntToString(-a);
        assert IntToString(b)[1..] == IntToString(-b);
        IntToStringValue(-a);
        IntToStringValue(-b);
      }
    }
  }
}
