/** The slice of the Python runtime that the map generator relies on: the
    values that travel in keyword-argument bags, the exceptions its code can
    raise, dictionary lookup and indexing, and `str()` of integers. */
module PyValues {

  /** A byte of an HTTP response body (a Python 2 `str`). */
  type Byte = b: int | 0 <= b < 256
  type Bytes = seq<Byte>

  /** A value in a keyword-argument bag. `Object` stands for any other Python
      object (a float, `None`, a GeoJSON geometry passed through unread) whose
      contents the model does not inspect; `id` only distinguishes such
      objects from one another. Subscripting an `Object` raises TypeError, as
      it does for a float or `None`. */
  datatype Value =
    | Int(i: int)
    | Str(s: string)
    | List(items: seq<Value>)
    | Object(id: nat)

  /** A `**kwargs` dictionary. */
  type Params = map<string, Value>

  /** The exceptions raised by the modelled code. The three request errors
      carry the URL and query parameters their messages report; `WandError`
      is what the image library raises for bytes it cannot decode. */
  datatype Exception =
    | KeyError(key: string)
    | IndexError
    | TypeError
    | AttributeError(name: string)
    | ConnectionError(url: Value, query: Params)
    | HTTPNotFound(url: Value, query: Params)
    | ValueError(url: Value, query: Params, body: Bytes)
    | NotImplementedError
    | WandError(blob: Bytes)

  /** Either a value, or the exception that was raised instead. */
  datatype Result<+T> = Ok(value: T) | Err(error: Exception) {
    predicate IsFailure() { Err? }

    function PropagateFailure<U>(): Result<U>
      requires Err?
    {
      Err(error)
    }

    function Extract(): T
      requires Ok?
    {
      value
    }
  }

  /** `kw[key]`: the stored value, or `KeyError(key)`. */
  function Get(kw: Params, key: string): (r: Result<Value>)
    ensures r.Ok? <==> key in kw
    ensures r.Ok? ==> r.value == kw[key]
    ensures r.Err? ==> r.error == KeyError(key)
  {
    if key in kw then Ok(kw[key]) else Err(KeyError(key))
  }

  /** True when `v[0]`, ..., `v[n-1]` can all be evaluated. */
  predicate Indexable(v: Value, n: nat) {
    (v.List? && n <= |v.items|) || (v.Str? && n <= |v.s|)
  }

  /** `v[i]` for a non-negative literal index: a list gives its element, a
      string gives a one-character string, anything else is not subscriptable. */
  function Index(v: Value, i: nat): (r: Result<Value>)
    ensures r.Ok? <==> Indexable(v, i + 1)
    ensures r.Ok? ==> r.value == (if v.List? then v.items[i] else Str([v.s[i]]))
    ensures r.Err? ==> r.error == (if v.List? || v.Str? then IndexError else TypeError)
  {
    match v
    case List(items) => if i < |items| then Ok(items[i]) else Err(IndexError)
    case Str(s) => if i < |s| then Ok(Str([s[i]])) else Err(IndexError)
    case _ => Err(TypeError)
  }

  /** `prefix + v` with a string literal on the left: only a string can be
      concatenated to it. */
  function Concat(prefix: string, v: Value): (r: Result<Value>)
    ensures r.Ok? <==> v.Str?
    ensures r.Ok? ==> r.value == Str(prefix + v.s)
    ensures r.Err? ==> r.error == TypeError
  {
    if v.Str? then Ok(Str(prefix + v.s)) else Err(TypeError)
  }

  // ----- str() of integers, and its inverse -----

  predicate IsDigit(c: char) { '0' <= c <= '9' }

  function DigitChar(d: int): (c: char)
    requires 0 <= d < 10
    ensures IsDigit(c) && c as int - '0' as int == d
  {
    ('0' as int + d) as char
  }

  /** The decimal text of a natural number, most significant digit first,
      without leading zeros. */
  function NatText(n: nat): (s: string)
    ensures |s| >= 1
    ensures forall k :: 0 <= k < |s| ==> IsDigit(s[k])
    ensures |s| > 1 ==> s[0] != '0'
    decreases n
  {
    if n < 10 then [DigitChar(n)] else NatText(n / 10) + [DigitChar(n % 10)]
  }

  /** Python's `str(n)` for an integer. */
  function IntText(n: int): (s: string)
    ensures |s| >= 1
    ensures ',' !in s
  {
    if n < 0 then "-" + NatText(-n) else NatText(n)
  }

  /** Reads a run of decimal digits back. */
  function ParseNat(s: string): nat
    decreases |s|
  {
    if |s| == 0 then 0
    else ParseNat(s[..|s| - 1]) * 10 + (if IsDigit(s[|s| - 1]) then s[|s| - 1] as int - '0' as int else 0)
  }

  function ParseInt(s: string): int {
    if |s| > 0 && s[0] == '-' then -(ParseNat(s[1..]) as int) else ParseNat(s)
  }

  lemma {:induction false} ParseNatText(n: nat)
    ensures ParseNat(NatText(n)) == n
    decreases n
  {
    if n >= 10 {
      var s := NatText(n);
      assert s[..|s| - 1] == NatText(n / 10);
      ParseNatText(n / 10);
    }
  }

  /** `str` on integers loses nothing: its text reads back as the same number. */
  lemma IntTextRoundTrip(n: int)
    ensures ParseInt(IntText(n)) == n
  {
    if n < 0 {
      ParseNatText(-n);
      assert IntText(n)[1..] == NatText(-n);
    } else {
      ParseNatText(n);
    }
  }

  /** Python's `str(v)`. Exact for integers and strings; lists and opaque
      objects get a fixed placeholder text. */
  function PyStr(v: Value): (s: string)
    ensures v.Str? ==> s == v.s
    ensures v.Int? ==> ParseInt(s) == v.i && ',' !in s
  {
    match v
    case Int(i) => IntTextRoundTrip(i); IntText(i)
    case Str(s) => s
    case List(_) => "[...]"
    case Object(_) => "<object>"
  }

  // ----- splitting on commas -----

  /** `s.split(",")`: the pieces between commas, in order. */
  function SplitCommas(s: string): (parts: seq<string>)
    ensures |parts| >= 1
    decreases |s|
  {
    if |s| == 0 then [""]
    else if s[0] == ',' then [""] + SplitCommas(s[1..])
    else
      var rest := SplitCommas(s[1..]);
      [[s[0]] + rest[0]] + rest[1..]
  }

  lemma {:induction false} SplitCommasPlain(a: string)
    requires ',' !in a
    ensures SplitCommas(a) == [a]
    decreases |a|
  {
    if |a| > 0 {
      SplitCommasPlain(a[1..]);
      assert [a[0]] + a[1..] == a;
    }
  }

  /** Splitting a comma-joined text gives back its first piece when that piece
      holds no comma. */
  lemma {:induction false} SplitCommasJoin(a: string, b: string)
    requires ',' !in a
    ensures SplitCommas(a + "," + b) == [a] + SplitCommas(b)
    decreases |a|
  {
    if |a| == 0 {
      assert a + "," + b == [','] + b;
      assert (a + "," + b)[1..] == b;
    } else {
      var t := a + "," + b;
      assert t[0] == a[0];
      assert t[1..] == a[1..] + "," + b;
      SplitCommasJoin(a[1..], b);
      assert [a[0]] + a[1..] == a;
    }
  }
}
