# Calculator and fruit stand request handlers

A model of the two demonstration services in `2-serving-engines/kuberay/`.
Each service is a pair of handlers. The inner one (`CalculatorModel.__call__`,
`FruitModel.__call__`) unpacks a two-element request body, computes, and
catches every exception into an `{"error": str(e)}` record. The outer one
(`Calculator.__call__`, `FruitStand.__call__`) awaits the inner one inside a
second `try`/`except`.

- **Calculator** applies ADD, SUB, MUL or DIV to the request's number and the
  constant 5. Any other code leaves the result at 0. The reply is
  `f"{result} pizzas please!"`.
- **FruitStand** looks the fruit up in a fixed price table
  (APPLE 1, BANANA 2, ORANGE 3, MANGO 3, STRAWBERRY 4), with unit price 1 for
  anything else, and returns the unit price times the quantity.

Files:

- `python.dfy` (module `Python`) holds the Python behaviour both handlers rely on:
  - the decoded JSON values (`Value`) and the computed objects (`Object`);
  - the exceptions raised on these paths, with CPython's message text;
  - how a block ends (`Completion`: returned or raised) and the handler's reply
    (`Response`: the value or an error record);
  - the `except Exception` boundary (`Catch`, `Rewrap`);
  - two-element unpacking and the `+ - * /` operators on these values,
    including `str * int` repetition and `bool` acting as an int.
- `render.dfy` (module `Render`) holds `str()` of ints and of the one-decimal
  floats DIV produces. It also has a reader for that text and round-trip lemmas,
  so the proofs can show that a reply announces exactly the computed number.
- `calculator.dfy` (module `Calculator`) and `fruit.dfy` (module `FruitStand`)
  hold the two services. `Model` is the inner handler and `Deployment` is the
  outer one.

The handlers keep no state that changes: the model fields are set only at
construction, and the price table is a `const`. So every handler is a function
of the decoded request body.

Three behaviours of the code are easy to miss:

- FruitStand's reply is not always a number. A str quantity is repeated
  (`2 * "ab"`), so the success value is an `Object` (an int or a str).
- A fruit given as a JSON object fails at the price lookup with
  `unhashable type: 'dict'`, before the multiplication.
- The reply and the log lines format their values inside the `try` block.
  Since 3.11, CPython refuses to turn an int of more than 4300 digits into
  text and raises a ValueError. So a request whose computed result is that
  long (n + 5, 5n, or price × quantity) gets an error record instead of a
  reply. `Python.Format` models this. `Python.Show` models the same limit on
  the log line that renders the whole body; for a decoded request body its
  raising branch is never reached, because the JSON decoder already refuses
  such an int (see "## Left out").

## Model

| member | source | states |
|---|---|---|
| `Python.Exception.Message` | 2-serving-engines/kuberay/calculator.py:44-47 | the text of `str(e)` carried in an error record is never empty |
| `Python.Catch` | 2-serving-engines/kuberay/calculator.py:44-47 | a block that returns gives its value; one that raises gives an error record with the exception's message; nothing escapes |
| `Python.Rewrap` | 2-serving-engines/kuberay/calculator.py:59-65 | the outer layer passes through what the inner call returns, and turns a raised exception into the same error-record shape |
| `Python.Unpack2` | 2-serving-engines/kuberay/calculator.py:29 | `a, b = data` succeeds exactly for two elements and yields them in order; fewer raises "not enough values (expected 2, got n)", more raises "too many values (expected 2)" |
| `Python.Repeat` | 2-serving-engines/kuberay/calculator.py:37 | `s * k` is empty for k <= 0 and has length \|s\|·k otherwise |
| `Python.RepeatAt` | 2-serving-engines/kuberay/calculator.py:37 | every block of `s * k` is a copy of `s` |
| `Python.Add` | 2-serving-engines/kuberay/calculator.py:33 | `v + k` succeeds exactly for an int or bool operand and gives the integer sum; a str raises the "can only concatenate str" TypeError |
| `Python.Sub` | 2-serving-engines/kuberay/calculator.py:35 | `v - k` succeeds exactly for an int or bool and gives the difference; anything else raises the unsupported-operand TypeError for `-` |
| `Python.Mul` | 2-serving-engines/kuberay/calculator.py:37 | `v * k` succeeds exactly for an int, bool or str: an integer product, or the str repeated k times |
| `Python.MulBy` | 2-serving-engines/kuberay/fruit.py:40 | `k * v` with the int on the left: an integer product or str repetition; otherwise the TypeError names `'int'` first |
| `Python.TrueDiv` | 2-serving-engines/kuberay/calculator.py:39 | `v / k` with k ≠ 0 succeeds exactly for an int or bool and gives the exact real quotient as a float, never a truncated int |
| `Python.StrOfReadsBack` | 2-serving-engines/kuberay/calculator.py:41 | the rendering `Python.StrOf` gives of an int or float result reads back as exactly that number |
| `Python.ServeEach` | 2-serving-engines/kuberay/fruit.py:29-43 | answering a stream of requests gives, at every position, the reply that request gets on its own |
| `Python.IdenticalRequestsGetIdenticalReplies` | 2-serving-engines/kuberay/fruit.py:16-43 | in any stream of requests, identical requests get identical replies; this holds for both services because neither handler changes any state and the price table is a constant |
| `Python.Format` | 2-serving-engines/kuberay/calculator.py:41 | `f"{o}"` gives the text `Python.StrOf(o)`, and raises the int-to-str ValueError exactly when `o` is an int with more than 4300 digits |
| `Python.Show` | 2-serving-engines/kuberay/calculator.py:26 | the log line's `f"...{data}"` succeeds exactly when every int element has at most 4300 digits, and otherwise raises the int-to-str ValueError |
| `Python.AllShowablePair` | 2-serving-engines/kuberay/fruit.py:33 | a two-element body can be logged exactly when both of its elements can |
| `Render.Digits` | 2-serving-engines/kuberay/calculator.py:41 | a number's decimal text is non-empty, all digits, and has no leading zero |
| `Render.DigitsRoundTrip` | 2-serving-engines/kuberay/calculator.py:41 | decimal digits read back as the number they render |
| `Render.DigitsMonotone` | 2-serving-engines/kuberay/fruit.py:42 | a larger number never has fewer digits |
| `Render.IntReadsBack` | 2-serving-engines/kuberay/calculator.py:41 | `str(i)`, modelled by `Render.Int`, of an int, sign included, reads back as `i` |
| `Render.TenthsReadsBack` | 2-serving-engines/kuberay/calculator.py:39-41 | `str(t / 10)`, modelled by `Render.Tenths`, of a float reads back as `t / 10`, fraction kept |
| `Render.IntAndTenthsDiffer` | 2-serving-engines/kuberay/calculator.py:41 | an int result and a float result never render to the same text (`2` against `2.0`) |
| `Calculator.FifthIsTenths` | 2-serving-engines/kuberay/calculator.py:38-39 | `n / 5` has an exact one-decimal form, `2n` tenths |
| `Calculator.Compute` | 2-serving-engines/kuberay/calculator.py:30-39 | an unknown code leaves the result at 0 whatever the number is; an integer operand never raises, DIV included; every result can be rendered |
| `Calculator.ComputeFollowsTable` | 2-serving-engines/kuberay/calculator.py:30-39 | for an integer operand the result equals the table value (n+5, n−5, n·5, n/5, or 0), and only DIV gives a float |
| `Calculator.Model` | 2-serving-engines/kuberay/calculator.py:22-47 | the `try` block, modelled by `Calculator.Attempt`, runs inside the `except` boundary: a body holding an int too long to log gives the int-to-str error record; otherwise a body of the wrong length gives the unpacking error record; a two-element body succeeds exactly when it can be logged, the computation returns, and its result can be formatted; every success ends in " pizzas please!"; every error message is non-empty |
| `Calculator.Deployment` | 2-serving-engines/kuberay/calculator.py:59-65 | the outer handler returns exactly what the inner model returns |
| `Calculator.ReplyAnnouncesExpected` | 2-serving-engines/kuberay/calculator.py:30-43 | for every code and integer n, the reply succeeds exactly when the operation code, n and the result fit in 4300 digits; a success's text before the suffix reads back as the table value; a failure is the int-to-str error record |
| `Calculator.AddAddsFive` | 2-serving-engines/kuberay/calculator.py:32-33 | `["ADD", n]` replies `"{n+5} pizzas please!"` when n and n+5 fit in 4300 digits, and the int-to-str error record otherwise |
| `Calculator.SubSubtractsFive` | 2-serving-engines/kuberay/calculator.py:34-35 | `["SUB", n]` replies `"{n-5} pizzas please!"` when n and n−5 fit in 4300 digits, and the int-to-str error record otherwise |
| `Calculator.MulMultipliesByFive` | 2-serving-engines/kuberay/calculator.py:36-37 | `["MUL", n]` replies `"{n*5} pizzas please!"` when n and 5n fit in 4300 digits, and the int-to-str error record otherwise |
| `Calculator.DivDividesByFive` | 2-serving-engines/kuberay/calculator.py:38-39 | `["DIV", n]` replies with the one-decimal float text of 2n tenths; the division itself never fails, and only an n too long to log gives the int-to-str error record |
| `Calculator.DivSevenIsOnePointFour` | 2-serving-engines/kuberay/calculator.py:38-41 | `["DIV", 7]` replies `"1.4 pizzas please!"` |
| `Calculator.UnknownCodeGivesZero` | 2-serving-engines/kuberay/calculator.py:30-41 | an unrecognised code replies `"0 pizzas please!"`, not an error, whatever the second element is, unless an element is an int too long to log |
| `Calculator.NonIntegerOperandIsError` | 2-serving-engines/kuberay/calculator.py:32-47 | ADD, SUB or DIV of a str, null or object gives an error record with that operator's TypeError message |
| `Calculator.MulOfNonInteger` | 2-serving-engines/kuberay/calculator.py:36-47 | MUL of a str replies with the str repeated five times; MUL of null or an object gives the TypeError record |
| `FruitStand.UnitPrice` | 2-serving-engines/kuberay/fruit.py:39 | `.get(fruit, 1)` gives the table price of a listed fruit, 1 for any other hashable key, and raises for an unhashable one; every price is at least 1 |
| `FruitStand.Model` | 2-serving-engines/kuberay/fruit.py:29-47 | the `try` block, modelled by `FruitStand.Attempt`, runs inside the `except` boundary: a body holding an int too long to log gives the int-to-str error record. Otherwise: a body of the wrong length gives the unpacking error record; an object as fruit gives the unhashable error record; a success has a hashable fruit and an int, bool or str quantity; a str quantity always succeeds; an integer quantity succeeds exactly when price × quantity fits in 4300 digits. Every error message is non-empty |
| `FruitStand.Deployment` | 2-serving-engines/kuberay/fruit.py:59-65 | the outer handler returns exactly what the inner model returns |
| `FruitStand.PriceTable` | 2-serving-engines/kuberay/fruit.py:16-22 | the table lists exactly APPLE 1, BANANA 2, ORANGE 3, MANGO 3, STRAWBERRY 4 |
| `FruitStand.TotalDigitsCoverQuantity` | 2-serving-engines/kuberay/fruit.py:39-42 | with a unit price of at least 1, a total that fits in 4300 digits implies the quantity fits too |
| `FruitStand.TotalIsUnitPriceTimesQuantity` | 2-serving-engines/kuberay/fruit.py:39-43 | the total is the listed price times the quantity, or the quantity itself for an unlisted fruit, whenever that total fits in 4300 digits; a longer total gives the int-to-str error record |
| `FruitStand.TotalAtLeastQuantity` | 2-serving-engines/kuberay/fruit.py:16-40 | for any hashable fruit and quantity ≥ 0, the request succeeds exactly when the fruit and the total can be logged, and then the total is ≥ the quantity; otherwise it gives the int-to-str error record |
| `FruitStand.AppleStrawberryKiwi` | 2-serving-engines/kuberay/fruit.py:39-40 | APPLE×3 is 3, STRAWBERRY×2 is 8, and KIWI×5 is 5 at the default price |
| `FruitStand.NonIntegerQuantity` | 2-serving-engines/kuberay/fruit.py:40-47 | a null or object quantity gives the TypeError record for `int * <type>`; a str quantity is repeated unit-price times; a fruit that is an int too long to log fails first |
| `FruitStand.UnhashableFruitIsError` | 2-serving-engines/kuberay/fruit.py:39-47 | an object as fruit gives the `unhashable type: 'dict'` error record, unless the quantity is an int too long to log, which fails first |

## Left out

- `2-serving-engines/kuberay/deploy_api.py` is not part of this model. It only starts the Ray runtime and the HTTP listener and deploys an API module whose source is not available.
- The `@serve.deployment` decorators and the `.bind()` blocks are left out. They are framework wiring.
- `await request.json()` is left out. It is asynchronous I/O. The handlers take the already-decoded body. A body that is not valid JSON, and a body that is a JSON object or scalar rather than an array, are not modelled.
- The log records and the traceback text are left out, because they are not part of the reply. The formatting that the log lines do inside the `try` block can raise, so it is modelled by `Python.Show` and `Python.Format`.
- The `MODEL_URL` and `HF_TOKEN` environment reads and `setup()` are left out. Their values are never used in the computation.
- JSON numbers with a fraction (Python floats) and nested arrays as request elements are not modelled. Binary floating point and `repr` of lists are outside the model.
- `Render.Tenths`: the one-decimal text of `n / 5` matches CPython's float `repr` only while |n / 5| < 10^14. Beyond that, float rounding and exponent notation (`1e+16`) are not modelled, and the model keeps the exact quotient.
- `Python.TrueDiv` does not model CPython's OverflowError for an int quotient too large for a float (|n| beyond about 10^308). The model divides exactly, so DIV never fails for an integer.
- The JSON decoder's own int limit is not modelled, because decoding is outside the model. `await request.json()` builds every int through `int()`, which refuses more than 4300 digits with its own ValueError ("...: value has N digits; ..."). So a real request never holds such an int, at the top level or inside an object. The `!AllShowable(data)` clauses of `Calculator.Model`, `FruitStand.Model` and the per-case lemmas describe bodies the decoder never produces. A real request with such an int instead gets an error record carrying the decoder's message, because the decoding (calculator.py:25, fruit.py:32) runs inside the same `try` block. The contents of a JSON object element are not rendered for the same reason.
- `Python.Exception.Message` uses CPython 3.12 wording. Python 3.11 writes the int-to-str limit as "(4300)" without "digits", and Python 3.14 adds ", got n" to the "too many values to unpack" message.
- How the framework serialises a reply (a str, an int, or the error dict) into the HTTP response is not modelled.
