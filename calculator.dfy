/** The calculator service: a request `[operation, number]` asks for `number`
    combined with the constant 5 by ADD, SUB, MUL or DIV, and the reply is the
    result followed by " pizzas please!". `Model` is the inner handler with its
    `try`/`except`; `Deployment` is the outer handler that delegates to it. */
module Calculator {
  import opened Python
  import Render

  /** The constant every recognised operation combines with the request's number. */
  const Operand: int := 5

  /** What follows the rendered result in every successful reply. */
  const Suffix: string := " pizzas please!"

  /** The four operation codes the dispatch recognises. */
  predicate IsCode(operation: Value)
  {
    operation in {Str("ADD"), Str("SUB"), Str("MUL"), Str("DIV")}
  }

  /** The calculator's table, on exact numbers: what the reply should say for an
      integer `n`. Division is true division. An unknown code gives 0. */
  function Expected(operation: Value, n: int): real
  {
    if operation == Str("ADD") then (n + 5) as real
    else if operation == Str("SUB") then (n - 5) as real
    else if operation == Str("MUL") then (n * 5) as real
    else if operation == Str("DIV") then n as real / 5.0
    else 0.0
  }

  /** The number an int or float object stands for. */
  function NumberOf(o: Object): real
    requires !o.StrObj?
  {
    if o.IntObj? then o.i as real else o.x
  }

  /** `n / 5` has an exact one-digit decimal expansion: it is `2 * n` tenths. */
  lemma FifthIsTenths(n: int)
    ensures IsTenths(n as real / 5.0) && ((n as real / 5.0) * 10.0).Floor == 2 * n
  {
    assert (n as real / 5.0) * 10.0 == (2 * n) as real;
  }

  /** The `if`/`elif` chain: the value it leaves in `result` (initially 0), or
      the exception one of the operators raises. */
  function Compute(operation: Value, number: Value): (c: Completion<Object>)
    ensures c.Returned? ==> Renderable(c.value)
    ensures !IsCode(operation) ==> c == Returned(IntObj(0))
    ensures IsInteger(number) ==> c.Returned? && !c.value.StrObj?
  {
    if operation == Str("ADD") then Add(number, Operand)
    else if operation == Str("SUB") then Sub(number, Operand)
    else if operation == Str("MUL") then Mul(number, Operand)
    else if operation == Str("DIV") then
      if IsInteger(number) then FifthIsTenths(AsInt(number)); TrueDiv(number, Operand)
      else TrueDiv(number, Operand)
    else Returned(IntObj(0))
  }

  /** For an integer operand the chain computes the calculator's table, and
      only DIV yields a float. */
  lemma ComputeFollowsTable(operation: Value, number: Value)
    requires IsInteger(number)
    ensures NumberOf(Compute(operation, number).value) == Expected(operation, AsInt(number))
    ensures Compute(operation, number).value.FloatObj? <==> operation == Str("DIV")
  {
  }

  /** The body of the handler's `try` block: log the body, unpack, compute,
      format. The second log line renders only the operation and number, already
      rendered by the first, and the reply text, so it cannot raise. */
  function Attempt(data: seq<Value>): Completion<string>
  {
    match Show(data)
    case Raised(e) => Raised(e)
    case Returned(_) =>
      match Unpack2(data)
      case Raised(e) => Raised(e)
      case Returned((operation, number)) =>
        match Compute(operation, number)
        case Raised(e) => Raised(e)
        case Returned(result) =>
          match Format(result)
          case Raised(e) => Raised(e)
          case Returned(text) => Returned(text + Suffix)
  }

  predicate EndsWith(s: string, suffix: string)
  {
    |suffix| <= |s| && s[|s| - |suffix|..] == suffix
  }

  /** `CalculatorModel.__call__` on the decoded request body. */
  function Model(data: seq<Value>): (r: Response<string>)
    ensures !AllShowable(data) ==> r == Error(IntTooLong(MaxStrDigits).Message())
    ensures AllShowable(data) && |data| < 2 ==> r == Error(NotEnoughValues(2, |data|).Message())
    ensures AllShowable(data) && |data| > 2 ==> r == Error(TooManyValues(2).Message())
    ensures |data| == 2 ==>
      (r.Ok? <==> AllShowable(data) && Compute(data[0], data[1]).Returned? && Fits(Compute(data[0], data[1]).value))
    ensures r.Ok? ==> EndsWith(r.value, Suffix)
    ensures r.Error? ==> |r.message| > 0
  {
    Catch(Attempt(data))
  }

  /** `Calculator.__call__`: awaits the model inside a second `try`/`except`.
      The model catches every exception itself, so the call always returns. */
  function Deployment(data: seq<Value>): (r: Response<string>)
    ensures r == Model(data)
  {
    Rewrap(Returned(Model(data)))
  }

  /** The number a successful reply announces, read back from its text. */
  function Reading(reply: string): Render.Option<real>
  {
    if EndsWith(reply, Suffix) then Render.Read(reply[..|reply| - |Suffix|])
    else Render.None
  }

  /** For every integer operand and every operation code, known or not, the
      reply announces exactly the calculator table's value: no truncation in
      DIV, 0 for an unknown code. It fails only when an int too long for `str()`
      has to be rendered. */
  lemma ReplyAnnouncesExpected(operation: Value, n: int)
    ensures Model([operation, Int(n)]).Ok? <==>
      Showable(operation) && FitsStr(n) && Fits(Compute(operation, Int(n)).value)
    ensures Model([operation, Int(n)]).Ok? ==>
      Reading(Model([operation, Int(n)]).value) == Render.Some(Expected(operation, n))
    ensures Model([operation, Int(n)]).Error? ==>
      Model([operation, Int(n)]).message == IntTooLong(MaxStrDigits).Message()
  {
    AllShowablePair(operation, Int(n));
    var result := Compute(operation, Int(n)).value;
    ComputeFollowsTable(operation, Int(n));
    var reply := StrOf(result) + Suffix;
    StrOfReadsBack(result);
    assert reply[..|reply| - |Suffix|] == StrOf(result);
  }

  lemma AddAddsFive(n: int)
    ensures FitsStr(n) && FitsStr(n + 5) ==> Model([Str("ADD"), Int(n)]) == Ok(Render.Int(n + 5) + Suffix)
    ensures !(FitsStr(n) && FitsStr(n + 5)) ==> Model([Str("ADD"), Int(n)]) == Error(IntTooLong(MaxStrDigits).Message())
  {
    AllShowablePair(Str("ADD"), Int(n));
  }

  lemma SubSubtractsFive(n: int)
    ensures FitsStr(n) && FitsStr(n - 5) ==> Model([Str("SUB"), Int(n)]) == Ok(Render.Int(n - 5) + Suffix)
    ensures !(FitsStr(n) && FitsStr(n - 5)) ==> Model([Str("SUB"), Int(n)]) == Error(IntTooLong(MaxStrDigits).Message())
  {
    AllShowablePair(Str("SUB"), Int(n));
  }

  lemma MulMultipliesByFive(n: int)
    ensures FitsStr(n) && FitsStr(n * 5) ==> Model([Str("MUL"), Int(n)]) == Ok(Render.Int(n * 5) + Suffix)
    ensures !(FitsStr(n) && FitsStr(n * 5)) ==> Model([Str("MUL"), Int(n)]) == Error(IntTooLong(MaxStrDigits).Message())
  {
    AllShowablePair(Str("MUL"), Int(n));
  }

  /** DIV is true division by 5: the reply is a float with one decimal, and the
      division never fails, the divisor being the nonzero constant; only
      logging an operand too long for `str()` does. */
  lemma DivDividesByFive(n: int)
    ensures FitsStr(n) ==> Model([Str("DIV"), Int(n)]) == Ok(Render.Tenths(2 * n) + Suffix)
    ensures !FitsStr(n) ==> Model([Str("DIV"), Int(n)]) == Error(IntTooLong(MaxStrDigits).Message())
  {
    FifthIsTenths(n);
    AllShowablePair(Str("DIV"), Int(n));
  }

  /** The literal texts `["DIV", 7]` involves: 7 fits and 14 tenths is "1.4". */
  lemma SevenRendersSmall()
    ensures FitsStr(7) && Render.Tenths(2 * 7) + Suffix == "1.4 pizzas please!"
  {
    assert Render.Digits(7) == [Render.Digit(7)];
    assert Render.Digits(1) == [Render.Digit(1)];
    assert Render.Digit(1) == '1' && Render.Digit(4) == '4';
    assert Render.Tenths(14) == "1.4";
  }

  lemma DivSevenIsOnePointFour()
    ensures Model([Str("DIV"), Int(7)]) == Ok("1.4 pizzas please!")
  {
    SevenRendersSmall();
    DivDividesByFive(7);
  }

  /** An unrecognised code leaves `result` at 0 and succeeds, whatever the
      second element is, since it is never computed with; only logging an int
      too long for `str()` fails. */
  lemma UnknownCodeGivesZero(operation: Value, number: Value)
    requires !IsCode(operation)
    ensures Showable(operation) && Showable(number) ==> Model([operation, number]) == Ok("0 pizzas please!")
    ensures !(Showable(operation) && Showable(number)) ==>
      Model([operation, number]) == Error(IntTooLong(MaxStrDigits).Message())
  {
    AllShowablePair(operation, number);
    if !(Showable(operation) && Showable(number)) {
      return;
    }
    assert Render.Digits(0) == [Render.Digit(0)];
    assert Attempt([operation, number]) == Returned(StrOf(IntObj(0)) + Suffix);
    assert StrOf(IntObj(0)) == "0";
    assert "0" + Suffix == "0 pizzas please!";
  }

  /** ADD, SUB and DIV of anything but an integer raise a TypeError, which comes
      back as an error record carrying its message. */
  lemma NonIntegerOperandIsError(operation: Value, number: Value)
    requires operation in {Str("ADD"), Str("SUB"), Str("DIV")} && !IsInteger(number)
    ensures operation == Str("ADD") && number.Str? ==>
      Model([operation, number]) == Error(ConcatenateStr("int").Message())
    ensures operation == Str("ADD") && !number.Str? ==>
      Model([operation, number]) == Error(UnsupportedOperand("+", TypeName(number), "int").Message())
    ensures operation == Str("SUB") ==>
      Model([operation, number]) == Error(UnsupportedOperand("-", TypeName(number), "int").Message())
    ensures operation == Str("DIV") ==>
      Model([operation, number]) == Error(UnsupportedOperand("/", TypeName(number), "int").Message())
  {
  }

  /** MUL repeats a str operand five times instead of failing; null and objects
      raise a TypeError. */
  lemma MulOfNonInteger(number: Value)
    requires !IsInteger(number)
    ensures number.Str? ==> Model([Str("MUL"), number]) == Ok(Repeat(number.s, 5) + Suffix)
    ensures !number.Str? ==>
      Model([Str("MUL"), number]) == Error(UnsupportedOperand("*", TypeName(number), "int").Message())
  {
  }

}
