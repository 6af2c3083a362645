/** The slice of Python's runtime the two request handlers depend on: the JSON
    values a decoded request body holds, the objects their arithmetic produces,
    the exceptions it raises (with CPython's message text), and the
    `try: ... except Exception as e: return {"error": str(e)}` boundary both
    handlers wrap around their work. */
module Python {
  import Render

  /** One element of a decoded JSON request body. `Obj` is a JSON object, which
      decodes to a `dict`; its contents play no part in either handler. */
  datatype Value = Null | Bool(b: bool) | Int(i: int) | Str(s: string) | Obj

  /** `type(v).__name__` of the decoded value. */
  function TypeName(v: Value): string
  {
    match v
    case Null => "NoneType"
    case Bool(_) => "bool"
    case Int(_) => "int"
    case Str(_) => "str"
    case Obj => "dict"
  }

  /** Only a `dict` among the decoded values cannot be a dictionary key. */
  predicate Hashable(v: Value) { !v.Obj? }

  /** A value Python arithmetic accepts as an integer (`bool` is a subclass of `int`). */
  predicate IsInteger(v: Value) { v.Int? || v.Bool? }

  function AsInt(v: Value): int
    requires IsInteger(v)
  {
    if v.Int? then v.i else if v.b then 1 else 0
  }

  /** The objects the handlers compute: an int, a float (exact, as a real), or a str. */
  datatype Object = IntObj(i: int) | FloatObj(x: real) | StrObj(s: string)

  /** The exceptions raised on the handlers' paths. */
  datatype Exception =
    | NotEnoughValues(expected: nat, got: nat)                        // ValueError from unpacking
    | TooManyValues(expected: nat)                                    // ValueError from unpacking
    | UnsupportedOperand(symbol: string, left: string, right: string) // TypeError from an operator
    | ConcatenateStr(other: string)                                   // TypeError from str + non-str
    | Unhashable(typeName: string)                                    // TypeError from a dict lookup
    | IntTooLong(limit: nat)                                          // ValueError from str() of an int
  {
    /** `str(e)`. */
    function Message(): (m: string)
      ensures |m| > 0
    {
      match this
      case NotEnoughValues(e, g) =>
        "not enough values to unpack (expected " + Render.Int(e) + ", got " + Render.Int(g) + ")"
      case TooManyValues(e) =>
        "too many values to unpack (expected " + Render.Int(e) + ")"
      case UnsupportedOperand(op, l, r) =>
        "unsupported operand type(s) for " + op + ": '" + l + "' and '" + r + "'"
      case ConcatenateStr(o) =>
        "can only concatenate str (not \"" + o + "\") to str"
      case Unhashable(t) =>
        "unhashable type: '" + t + "'"
      case IntTooLong(n) =>
        "Exceeds the limit (" + Render.Int(n) + " digits) for integer string conversion; "
        + "use sys.set_int_max_str_digits() to increase the limit"
    }
  }

  /** How a Python block ends: by producing a value, or by raising. */
  datatype Completion<T> = Returned(value: T) | Raised(exc: Exception)

  /** What a handler hands back: its value, or the record `{"error": message}`. */
  datatype Response<T> = Ok(value: T) | Error(message: string)

  /** `try: return <block> except Exception as e: return {"error": str(e)}` */
  function Catch<T>(c: Completion<T>): (r: Response<T>)
    ensures r.Ok? <==> c.Returned?
    ensures c.Returned? ==> r.value == c.value
    ensures c.Raised? ==> r.message == c.exc.Message() && |r.message| > 0
  {
    match c
    case Returned(v) => Ok(v)
    case Raised(e) => Error(e.Message())
  }

  /** The outer layer: `try: return await self.model(request) except Exception
      as e: return {"error": str(e)}`, given how the inner call ended. */
  function Rewrap<T>(c: Completion<Response<T>>): (r: Response<T>)
    ensures c.Returned? ==> r == c.value
    ensures c.Raised? ==> r == Error(c.exc.Message())
  {
    match c
    case Returned(inner) => inner
    case Raised(e) => Error(e.Message())
  }

  /** `first, second = data` for a decoded JSON array. */
  function Unpack2(data: seq<Value>): (c: Completion<(Value, Value)>)
    ensures c.Returned? <==> |data| == 2
    ensures c.Returned? ==> c.value == (data[0], data[1])
    ensures |data| < 2 ==> c == Raised(NotEnoughValues(2, |data|))
    ensures |data| > 2 ==> c == Raised(TooManyValues(2))
  {
    if |data| < 2 then Raised(NotEnoughValues(2, |data|))
    else if |data| > 2 then Raised(TooManyValues(2))
    else Returned((data[0], data[1]))
  }

  /** `s * k` for a str `s`: `k` copies of `s` in a row, empty when `k <= 0`. */
  function Repeat(s: string, k: int): (r: string)
    ensures k <= 0 ==> r == []
    ensures k > 0 ==> |r| == |s| * k
    decreases k
  {
    if k <= 0 then [] else s + Repeat(s, k - 1)
  }

  /** Every block of `s * k` is `s`: position `o` of the `b`-th copy holds `s[o]`. */
  lemma {:induction false} RepeatAt(s: string, k: int, b: int, o: int)
    requires 0 <= b < k && 0 <= o < |s|
    ensures b * |s| + o < |Repeat(s, k)| && Repeat(s, k)[b * |s| + o] == s[o]
    decreases k
  {
    var r := Repeat(s, k);
    assert r == s + Repeat(s, k - 1);
    if b > 0 {
      RepeatAt(s, k - 1, b - 1, o);
      assert (b - 1) * |s| + o + |s| == b * |s| + o;
    }
  }

  /** `v + k` */
  function Add(v: Value, k: int): (c: Completion<Object>)
    ensures c.Returned? <==> IsInteger(v)
    ensures IsInteger(v) ==> c.value == IntObj(AsInt(v) + k)
    ensures v.Str? ==> c == Raised(ConcatenateStr("int"))
  {
    if IsInteger(v) then Returned(IntObj(AsInt(v) + k))
    else if v.Str? then Raised(ConcatenateStr("int"))
    else Raised(UnsupportedOperand("+", TypeName(v), "int"))
  }

  /** `v - k` */
  function Sub(v: Value, k: int): (c: Completion<Object>)
    ensures c.Returned? <==> IsInteger(v)
    ensures IsInteger(v) ==> c.value == IntObj(AsInt(v) - k)
    ensures !IsInteger(v) ==> c == Raised(UnsupportedOperand("-", TypeName(v), "int"))
  {
    if IsInteger(v) then Returned(IntObj(AsInt(v) - k))
    else Raised(UnsupportedOperand("-", TypeName(v), "int"))
  }

  /** `v * k`, where a str operand is repeated rather than rejected. */
  function Mul(v: Value, k: int): (c: Completion<Object>)
    ensures c.Returned? <==> IsInteger(v) || v.Str?
    ensures IsInteger(v) ==> c.value == IntObj(AsInt(v) * k)
    ensures v.Str? ==> c.value == StrObj(Repeat(v.s, k))
  {
    if IsInteger(v) then Returned(IntObj(AsInt(v) * k))
    else if v.Str? then Returned(StrObj(Repeat(v.s, k)))
    else Raised(UnsupportedOperand("*", TypeName(v), "int"))
  }

  /** `k * v`, with the int on the left. */
  function MulBy(k: int, v: Value): (c: Completion<Object>)
    ensures c.Returned? <==> IsInteger(v) || v.Str?
    ensures IsInteger(v) ==> c.value == IntObj(k * AsInt(v))
    ensures v.Str? ==> c.value == StrObj(Repeat(v.s, k))
    ensures c.Raised? ==> c.exc == UnsupportedOperand("*", "int", TypeName(v))
  {
    if IsInteger(v) then Returned(IntObj(k * AsInt(v)))
    else if v.Str? then Returned(StrObj(Repeat(v.s, k)))
    else Raised(UnsupportedOperand("*", "int", TypeName(v)))
  }

  /** `v / k`: true division, whose result is always a float. */
  function TrueDiv(v: Value, k: int): (c: Completion<Object>)
    requires k != 0
    ensures c.Returned? <==> IsInteger(v)
    ensures IsInteger(v) ==> c.value == FloatObj(AsInt(v) as real / k as real)
    ensures !IsInteger(v) ==> c == Raised(UnsupportedOperand("/", TypeName(v), "int"))
  {
    if IsInteger(v) then Returned(FloatObj(AsInt(v) as real / k as real))
    else Raised(UnsupportedOperand("/", TypeName(v), "int"))
  }

  /** A float whose exact value has a one-digit decimal expansion. */
  predicate IsTenths(x: real) { (x * 10.0).Floor as real == x * 10.0 }

  /** The objects whose `str()` this model renders. */
  predicate Renderable(o: Object) { o.FloatObj? ==> IsTenths(o.x) }

  /** `str(o)` (and `f"{o}"`). */
  function StrOf(o: Object): string
    requires Renderable(o)
  {
    match o
    case IntObj(i) => Render.Int(i)
    case FloatObj(x) => Render.Tenths((x * 10.0).Floor)
    case StrObj(s) => s
  }

  /** CPython's default cap on the number of digits `str()` produces for an int. */
  const MaxStrDigits: nat := 4300

  /** `str(i)` stays within the cap; the sign does not count. */
  predicate FitsStr(i: int) { |Render.Digits(if i < 0 then -i else i)| <= MaxStrDigits }

  /** Formatting `o` into text does not raise. */
  predicate Fits(o: Object) { o.IntObj? ==> FitsStr(o.i) }

  /** Formatting the decoded value `v` into text does not raise. */
  predicate Showable(v: Value) { v.Int? ==> FitsStr(v.i) }

  predicate AllShowable(data: seq<Value>) { forall k :: 0 <= k < |data| ==> Showable(data[k]) }

  /** A two-element body is rendered without error exactly when both elements are. */
  lemma AllShowablePair(a: Value, b: Value)
    ensures AllShowable([a, b]) <==> Showable(a) && Showable(b)
  {
    var data := [a, b];
    assert data[0] == a && data[1] == b;
  }

  /** `f"{o}"`: the text of `o`, or the ValueError CPython raises for an int
      with more digits than the cap. */
  function Format(o: Object): (c: Completion<string>)
    requires Renderable(o)
    ensures c.Returned? <==> Fits(o)
    ensures c.Returned? ==> c.value == StrOf(o)
    ensures c.Raised? ==> c.exc == IntTooLong(MaxStrDigits)
  {
    if Fits(o) then Returned(StrOf(o)) else Raised(IntTooLong(MaxStrDigits))
  }

  /** `f"... {data}"` on the decoded body, as a log line does it: every element
      is rendered, and an int beyond the cap raises. */
  function Show(data: seq<Value>): (c: Completion<()>)
    ensures c.Returned? <==> AllShowable(data)
    ensures c.Raised? ==> c.exc == IntTooLong(MaxStrDigits)
    decreases |data|
  {
    if data == [] then Returned(())
    else if !Showable(data[0]) then Raised(IntTooLong(MaxStrDigits))
    else Show(data[1..])
  }

  /** The number a rendered int or float reads back as: the reply text carries
      exactly the computed value. */
  lemma StrOfReadsBack(o: Object)
    requires Renderable(o) && !o.StrObj?
    ensures o.IntObj? ==> Render.Read(StrOf(o)) == Render.Some(o.i as real)
    ensures o.FloatObj? ==> Render.Read(StrOf(o)) == Render.Some(o.x)
  {
    match o
    case IntObj(i) => Render.IntReadsBack(i);
    case FloatObj(x) =>
      var t := (x * 10.0).Floor;
      Render.TenthsReadsBack(t);
      assert t as real / 10.0 == x;
  }

  /** Serving a stream of requests one after another with a handler that keeps no
      state between them: each reply is the one its request gets on its own. */
  function ServeEach<T>(handle: seq<Value> -> Response<T>, requests: seq<seq<Value>>): (replies: seq<Response<T>>)
    ensures |replies| == |requests|
    ensures forall j :: 0 <= j < |requests| ==> replies[j] == handle(requests[j])
    decreases |requests|
  {
    if requests == [] then []
    else [handle(requests[0])] + ServeEach(handle, requests[1..])
  }

  /** Identical requests in a stream get identical replies. This holds for both
      services because their handlers are modelled as functions of the request
      alone, the price table being a constant. */
  lemma IdenticalRequestsGetIdenticalReplies<T>(handle: seq<Value> -> Response<T>, requests: seq<seq<Value>>, j: nat, k: nat)
    requires j < |requests| && k < |requests| && requests[j] == requests[k]
    ensures ServeEach(handle, requests)[j] == ServeEach(handle, requests)[k]
  {
  }
}
