/**
 * The JSON converter for timestamps that may arrive either as a fractional
 * number of seconds or as an integer number of milliseconds. It tells the
 * two apart by the kind of token the JSON reader produced, not by magnitude:
 * it first unboxes the token's value as a `double` and, when that cast
 * throws, unboxes it as a `long`.
 */
module FloatUnixTimeConverter {
  import opened Wrappers
  import opened Clr
  import opened Calendar
  import opened DateTimes
  import opened DateTimeExtensions

  /** A scalar JSON token as the reader reports it. */
  datatype JsonToken =
    | Integer(integer: int)
    | Float(float: real)
    | String(text: string)
    | Boolean(flag: bool)
    | Null

  /** The object the reader exposes as its current value. */
  datatype Boxed =
    | BoxedLong(long: Int64)
    | BoxedBigInteger(big: int)
    | BoxedDouble(double: real)
    | BoxedString(chars: string)
    | BoxedBoolean(bit: bool)
    | NullObject

  /**
   * The reader's value for a token: an integer is boxed as a `long` when it
   * fits and as a `BigInteger` otherwise, a float as a `double`, null as a
   * null reference.
   */
  function ReaderValue(token: JsonToken): (value: Boxed)
    ensures value.BoxedLong? <==> token.Integer? && Int64Min <= token.integer <= Int64Max
    ensures value.BoxedLong? ==> value.long == token.integer
    ensures value.BoxedBigInteger? <==> token.Integer? && !(Int64Min <= token.integer <= Int64Max)
    ensures value.BoxedDouble? <==> token.Float?
    ensures value.BoxedDouble? ==> value.double == token.float
    ensures value.NullObject? <==> token.Null?
  {
    match token
    case Integer(n) => if Int64Min <= n <= Int64Max then BoxedLong(n) else BoxedBigInteger(n)
    case Float(x) => BoxedDouble(x)
    case String(s) => BoxedString(s)
    case Boolean(b) => BoxedBoolean(b)
    case Null => NullObject
  }

  /** The unboxing cast `(double)value`: only a boxed `double` unboxes. */
  function UnboxDouble(value: Boxed): (r: Result<real, Exception>)
    ensures r.Ok? <==> value.BoxedDouble?
    ensures r.Ok? ==> r.value == value.double
    ensures r.Err? ==> r.error == if value.NullObject? then NullReference else InvalidCast
  {
    match value
    case BoxedDouble(x) => Ok(x)
    case NullObject => Err(NullReference)
    case _ => Err(InvalidCast)
  }

  /** The unboxing cast `(long)value`: only a boxed `long` unboxes. */
  function UnboxLong(value: Boxed): (r: Result<Int64, Exception>)
    ensures r.Ok? <==> value.BoxedLong?
    ensures r.Ok? ==> r.value == value.long
    ensures r.Err? ==> r.error == if value.NullObject? then NullReference else InvalidCast
  {
    match value
    case BoxedLong(n) => Ok(n)
    case NullObject => Err(NullReference)
    case _ => Err(InvalidCast)
  }

  /** The converter declares that it cannot write timestamps. */
  function CanWrite(): (canWrite: bool)
    ensures !canWrite
  {
    false
  }

  /** Decodes one timestamp token. */
  function ReadJson(token: JsonToken): (r: Result<DateTime, Exception>)
    ensures token.Float? ==> r.Ok?
    ensures token.Float? && Int32Min <= Truncate(token.float) <= Int32Max ==>
              r.value - Epoch == Truncate(token.float) * TicksPerSecond
    ensures token.Float? && Int32Max < Truncate(token.float) ==> r == Ok(FromUnixSeconds(Int32Max))
    ensures token.Float? && Truncate(token.float) < Int32Min ==> r == Ok(FromUnixSeconds(Int32Min))
    ensures token.Integer? && Int64Min <= token.integer <= Int64Max ==>
              r == FromUnixMillis(token.integer)
    ensures token.Integer? && !(Int64Min <= token.integer <= Int64Max) ==> r == Err(InvalidCast)
    ensures token.Null? ==> r == Err(NullReference)
    ensures token.String? || token.Boolean? ==> r == Err(InvalidCast)
  {
    match UnboxDouble(ReaderValue(token))
    case Ok(parsed) =>
      var second := CastToInt32(parsed);
      Ok(FromUnixSeconds(second))
    case Err(_) =>
      match UnboxLong(ReaderValue(token))
      case Ok(milliseconds) => FromUnixMillis(milliseconds)
      case Err(e) => Err(e)
  }

  /** Writing is not implemented: every call throws. */
  function WriteJson(value: Boxed): (r: Outcome<Exception>)
    ensures r == Fail(NotImplemented)
  {
    Fail(NotImplemented)
  }

  /** Only the integer part of a float token matters. */
  lemma FractionDiscarded(x: real)
    ensures ReadJson(Float(x)) == ReadJson(Float(Truncate(x) as real))
  {
  }

  /**
   * An integer token is read as milliseconds whatever its size, so an
   * integer that is meant as seconds lands at a different instant than the
   * same value written as a float.
   */
  lemma IntegerTokenIsMilliseconds(n: Int32)
    requires n != 0
    ensures ReadJson(Integer(n)) == FromUnixMillis(n)
    ensures ReadJson(Integer(n)) != ReadJson(Float(n as real))
  {
  }

  /**
   * A float too large for an `int` saturates to 2038-01-19T03:14:07Z, so a
   * millisecond count written as a float, such as 1e12 for 2001-09-09, lands
   * there.
   */
  lemma FloatBeyondInt32Saturates(x: real)
    requires x >= 2_147_483_648.0
    ensures ReadJson(Float(x)) == Ok(CivilTicks(2038, 1, 19, 3, 14, 7))
    ensures ReadJson(Float(1_000_000_000_000.0)) == ReadJson(Float(x))
  {
  }

  /** Float 1609459200.0 and integer 1609459200000 both decode to 2021-01-01T00:00:00Z. */
  lemma SecondsAndMillisecondsConverge()
    ensures ReadJson(Float(1_609_459_200.0)) == Ok(CivilTicks(2021, 1, 1, 0, 0, 0))
    ensures ReadJson(Integer(1_609_459_200_000)) == Ok(CivilTicks(2021, 1, 1, 0, 0, 0))
  {
  }
}
