/** The fruit stand service: a request `[fruit, quantity]` is answered with the
    fruit's unit price, from a fixed table with a default of 1, times the
    quantity. `Model` is the inner handler with its `try`/`except`;
    `Deployment` is the outer handler that delegates to it. */
module FruitStand {
  import opened Python

  /** The price table, built once when the model is constructed and only ever
      read afterwards. */
  const Prices: map<string, int> :=
    map["APPLE" := 1, "BANANA" := 2, "ORANGE" := 3, "MANGO" := 3, "STRAWBERRY" := 4]

  /** The unit price of a fruit the table does not list. */
  const DefaultPrice: int := 1

  /** `fruit_prices.get(fruit, 1)`: a listed fruit's price, the default for any
      other key, and a TypeError for a key that cannot be hashed. */
  function UnitPrice(fruit: Value): (c: Completion<int>)
    ensures c.Returned? <==> Hashable(fruit)
    ensures !Hashable(fruit) ==> c == Raised(Unhashable(TypeName(fruit)))
    ensures c.Returned? && fruit.Str? && fruit.s in Prices ==> c.value == Prices[fruit.s]
    ensures c.Returned? && !(fruit.Str? && fruit.s in Prices) ==> c.value == DefaultPrice
    ensures c.Returned? ==> c.value >= 1
  {
    if !Hashable(fruit) then Raised(Unhashable(TypeName(fruit)))
    else if fruit.Str? && fruit.s in Prices then Returned(Prices[fruit.s])
    else Returned(DefaultPrice)
  }

  /** The body of the handler's `try` block: log the body, unpack, look up,
      multiply, log the total. The second log line renders the total first; the
      quantity and the fruit it renders after it were already rendered by the
      first line, so only the total can make it raise. */
  function Attempt(data: seq<Value>): Completion<Object>
  {
    match Show(data)
    case Raised(e) => Raised(e)
    case Returned(_) =>
      match Unpack2(data)
      case Raised(e) => Raised(e)
      case Returned((fruit, quantity)) =>
        match UnitPrice(fruit)
        case Raised(e) => Raised(e)
        case Returned(price) =>
          match MulBy(price, quantity)
          case Raised(e) => Raised(e)
          case Returned(total) =>
            match Format(total)
            case Raised(e) => Raised(e)
            case Returned(_) => Returned(total)
  }

  /** `FruitModel.__call__` on the decoded request body. */
  function Model(data: seq<Value>): (r: Response<Object>)
    ensures !AllShowable(data) ==> r == Error(IntTooLong(MaxStrDigits).Message())
    ensures AllShowable(data) && |data| < 2 ==> r == Error(NotEnoughValues(2, |data|).Message())
    ensures AllShowable(data) && |data| > 2 ==> r == Error(TooManyValues(2).Message())
    ensures |data| == 2 && AllShowable(data) && !Hashable(data[0]) ==>
      r == Error(Unhashable(TypeName(data[0])).Message())
    ensures |data| == 2 && r.Ok? ==> Hashable(data[0]) && (IsInteger(data[1]) || data[1].Str?)
    ensures |data| == 2 && AllShowable(data) && Hashable(data[0]) && data[1].Str? ==> r.Ok?
    ensures |data| == 2 && AllShowable(data) && Hashable(data[0]) && IsInteger(data[1]) ==>
      (r.Ok? <==> FitsStr(UnitPrice(data[0]).value * AsInt(data[1])))
    ensures r.Error? ==> |r.message| > 0
  {
    Catch(Attempt(data))
  }

  /** `FruitStand.__call__`: awaits the model inside a second `try`/`except`.
      The model catches every exception itself, so the call always returns. */
  function Deployment(data: seq<Value>): (r: Response<Object>)
    ensures r == Model(data)
  {
    Rewrap(Returned(Model(data)))
  }

  /** The table lists exactly these five fruits at these prices. */
  lemma PriceTable()
    ensures Prices.Keys == {"APPLE", "BANANA", "ORANGE", "MANGO", "STRAWBERRY"}
    ensures Prices["APPLE"] == 1 && Prices["BANANA"] == 2 && Prices["ORANGE"] == 3
    ensures Prices["MANGO"] == 3 && Prices["STRAWBERRY"] == 4
  {
  }

  /** A unit price is at least 1, so the total never has fewer digits than the
      quantity: when the total can be logged, so could the quantity. */
  lemma TotalDigitsCoverQuantity(price: int, quantity: int)
    requires price >= 1
    ensures FitsStr(price * quantity) ==> FitsStr(quantity)
  {
    var m := if quantity < 0 then -quantity else quantity;
    var t := price * quantity;
    assert (if t < 0 then -t else t) == price * m;
    assert price * m == m + (price - 1) * m;
    Render.DigitsMonotone(m, price * m);
  }

  /** The total is the unit price times the quantity, an unlisted fruit costing
      1; the request fails only when that total is too long for `str()`. */
  lemma TotalIsUnitPriceTimesQuantity(fruit: string, quantity: int)
    ensures fruit in Prices && FitsStr(Prices[fruit] * quantity) ==>
      Model([Str(fruit), Int(quantity)]) == Ok(IntObj(Prices[fruit] * quantity))
    ensures fruit !in Prices && FitsStr(quantity) ==>
      Model([Str(fruit), Int(quantity)]) == Ok(IntObj(quantity))
    ensures !FitsStr(UnitPrice(Str(fruit)).value * quantity) ==>
      Model([Str(fruit), Int(quantity)]) == Error(IntTooLong(MaxStrDigits).Message())
  {
    var price := UnitPrice(Str(fruit)).value;
    AllShowablePair(Str(fruit), Int(quantity));
    TotalDigitsCoverQuantity(price, quantity);
  }

  /** Every unit price is at least 1, so a non-negative quantity never costs
      less than the quantity itself. */
  lemma TotalAtLeastQuantity(fruit: Value, quantity: nat)
    requires Hashable(fruit)
    ensures Model([fruit, Int(quantity)]).Ok? <==>
      Showable(fruit) && FitsStr(UnitPrice(fruit).value * quantity)
    ensures Model([fruit, Int(quantity)]).Ok? ==>
      Model([fruit, Int(quantity)]).value.IntObj? && Model([fruit, Int(quantity)]).value.i >= quantity
    ensures Model([fruit, Int(quantity)]).Error? ==>
      Model([fruit, Int(quantity)]).message == IntTooLong(MaxStrDigits).Message()
  {
    var price := UnitPrice(fruit).value;
    AllShowablePair(fruit, Int(quantity));
    TotalDigitsCoverQuantity(price, quantity);
    assert price * quantity == quantity + (price - 1) * quantity;
  }

  lemma AppleStrawberryKiwi()
    ensures Model([Str("APPLE"), Int(3)]) == Ok(IntObj(3))
    ensures Model([Str("STRAWBERRY"), Int(2)]) == Ok(IntObj(8))
    ensures Model([Str("KIWI"), Int(5)]) == Ok(IntObj(5))
  {
    TotalIsUnitPriceTimesQuantity("APPLE", 3);
    TotalIsUnitPriceTimesQuantity("STRAWBERRY", 2);
    TotalIsUnitPriceTimesQuantity("KIWI", 5);
    assert Render.Digits(3) == [Render.Digit(3)];
    assert Render.Digits(8) == [Render.Digit(8)];
    assert Render.Digits(5) == [Render.Digit(5)];
  }

  /** A quantity that is null or an object makes the multiplication raise a
      TypeError, returned as an error record with its message; a str quantity
      is repeated unit-price times instead. */
  lemma NonIntegerQuantity(fruit: Value, quantity: Value)
    requires Hashable(fruit) && !IsInteger(quantity)
    ensures Showable(fruit) && quantity.Str? ==>
      Model([fruit, quantity]) == Ok(StrObj(Repeat(quantity.s, UnitPrice(fruit).value)))
    ensures Showable(fruit) && !quantity.Str? ==>
      Model([fruit, quantity]) == Error(UnsupportedOperand("*", "int", TypeName(quantity)).Message())
    ensures !Showable(fruit) ==> Model([fruit, quantity]) == Error(IntTooLong(MaxStrDigits).Message())
  {
    AllShowablePair(fruit, quantity);
  }

  /** A fruit given as an object cannot be looked up, and the TypeError comes
      back as an error record before the quantity is multiplied; only logging a
      quantity too long for `str()` fails first. */
  lemma UnhashableFruitIsError(fruit: Value, quantity: Value)
    requires !Hashable(fruit)
    ensures Showable(quantity) ==> Model([fruit, quantity]) == Error(Unhashable(TypeName(fruit)).Message())
    ensures !Showable(quantity) ==> Model([fruit, quantity]) == Error(IntTooLong(MaxStrDigits).Message())
  {
    AllShowablePair(fruit, quantity);
  }

}
