/**
 * The command-line argument validators of utils.py (repeated verbatim in
 * lib/utils.py:39-57). Each takes the value that `float(...)` or `int(...)`
 * produced from the argument string; the parsing itself is a library call
 * and is not modelled.
 */
module CliArgs {

  /** The two ways argparse reports a rejected argument. */
  datatype ArgError =
    | ArgumentTypeError(message: string)   // raised from a `type=` converter
    | ParserError(message: string)         // `parser.error(...)`, which exits

  datatype Result<+T> = Success(value: T) | Failure(error: ArgError)

  const TMessage := "t value has to be a float between 0 and 1"
  const RMessage := "r value has to be an integer between 1 and 4"
  const KMessage := "k value has to be an integer greater than 0"
  const BothMessage := "Cannot use both SpanBERT and GPT-3"
  const NeitherMessage := "Must use either SpanBERT or GPT-3"

  /**
   * A Python (IEEE 754 double) float as far as `tValue` looks at it: finite
   * values are taken as reals, and the infinities and NaN are kept apart
   * because ordered comparisons treat them specially.
   */
  datatype PyFloat = Finite(x: real) | PosInf | NegInf | NaN

  /** Python's `v < b` for a finite bound `b`; every comparison with NaN is False. */
  predicate LessThan(v: PyFloat, b: real)
  {
    match v
    case Finite(x) => x < b
    case NegInf => true
    case PosInf => false
    case NaN => false
  }

  /** Python's `v > b` for a finite bound `b`. */
  predicate GreaterThan(v: PyFloat, b: real)
  {
    match v
    case Finite(x) => x > b
    case NegInf => false
    case PosInf => true
    case NaN => false
  }

  /**
   * `tValue` as written: it rejects a value only when `value < 0 or value > 1`
   * holds, so NaN, for which both comparisons are False, is accepted.
   */
  function TValue(v: PyFloat): (res: Result<PyFloat>)
    ensures res.Success? <==> v.NaN? || (v.Finite? && 0.0 <= v.x <= 1.0)
    ensures res.Success? ==> res.value == v
    ensures res.Failure? ==> res.error == ArgumentTypeError(TMessage)
  {
    if LessThan(v, 0.0) || GreaterThan(v, 1.0) then Failure(ArgumentTypeError(TMessage))
    else Success(v)
  }

  /** The input that shows `TValue` letting through a value outside [0, 1]. */
  lemma TValueAcceptsNaN()
    ensures TValue(NaN) == Success(NaN)
  {
  }

  /**
   * The threshold check as its error message states it: accept exactly the
   * floats between 0 and 1, which rules out NaN as well.
   */
  function TValueInRange(v: PyFloat): (res: Result<PyFloat>)
    ensures res.Success? <==> v.Finite? && 0.0 <= v.x <= 1.0
    ensures res.Success? ==> res.value == v
    ensures res.Failure? ==> res.error == ArgumentTypeError(TMessage)
  {
    if v.Finite? && 0.0 <= v.x && v.x <= 1.0 then Success(v)
    else Failure(ArgumentTypeError(TMessage))
  }

  /** The corrected check differs from the written one on NaN alone. */
  lemma TValueInRangeDiffersOnlyOnNaN(v: PyFloat)
    ensures TValue(v) == TValueInRange(v) <==> !v.NaN?
  {
  }

  /** `rValue`: the relation identifier must lie in 1..4. */
  function RValue(v: int): (res: Result<int>)
    ensures res.Success? <==> 1 <= v <= 4
    ensures res.Success? ==> res.value == v
    ensures res.Failure? ==> res.error == ArgumentTypeError(RMessage)
  {
    if v < 1 || v > 4 then Failure(ArgumentTypeError(RMessage)) else Success(v)
  }

  /** `kValue`: the number of requested tuples must be at least 1. */
  function KValue(v: int): (res: Result<int>)
    ensures res.Success? <==> v >= 1
    ensures res.Success? ==> res.value == v
    ensures res.Failure? ==> res.error == ArgumentTypeError(KMessage)
  {
    if v < 1 then Failure(ArgumentTypeError(KMessage)) else Success(v)
  }

  /**
   * `validate_LLM`: the `--spanbert` and `--gpt3` flags must select exactly
   * one relation classifier; both set is checked first.
   */
  function ValidateLLM(spanbert: bool, gpt3: bool): (res: Result<()>)
    ensures res.Success? <==> spanbert != gpt3
    ensures spanbert && gpt3 ==> res == Failure(ParserError(BothMessage))
    ensures !spanbert && !gpt3 ==> res == Failure(ParserError(NeitherMessage))
  {
    if spanbert && gpt3 then Failure(ParserError(BothMessage))
    else if !spanbert && !gpt3 then Failure(ParserError(NeitherMessage))
    else Success(())
  }
}
