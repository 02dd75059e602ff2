/** Result[T] of package Type with its pointer-receiver methods. A receiver is
    a `Nilable<Result<T>>`: every method tests for the nil receiver first.
    `zero` stands for the zero value of T wherever the source leaves a field
    or a variable at its zero value. */
module TypeResult {
  import opened Go
  import opened Containers
  import Assert

  const UnwrapText := "Tried unwrapping a Result that had an error value!"
  const UnwrapErrText := "Expect_err was called with an Ok value"
  const ExpectErrOnNil := Error("ExpectErr was called on a nil Result.")
  const UnwrapErrOnNil := Error("UnwrapErr was called on a nil Result.")
  const ErrOnNil := Error("Err was called on a nil Result.")
  const UnsupportedValue := Error("unsupported type for Result")

  /** The four bytes of the JSON literal `null`. */
  const NullLiteral: seq<byte> := [110, 117, 108, 108]

  // Constructors

  function Ok<T>(value: T): (r: Result<T>)
    ensures r.err.Nil? && r.value == value
  {
    Result(value, Nil)
  }

  /** Err keeps the zero value; with a nil error it builds an Ok. */
  function Err<T>(zero: T, err: MaybeError): (r: Result<T>)
    ensures r.err == err && r.value == zero
  {
    Result(zero, err)
  }

  /** Err_t: the value argument only fixes the type and is discarded. */
  function ErrT<T>(zero: T, err: MaybeError, x: T): (r: Result<T>)
    ensures r == Err(zero, err)
  {
    Result(zero, err)
  }

  // Queries

  function IsOk<T>(res: Nilable<Result<T>>): (b: bool)
    ensures b <==> res.NonNil? && res.target.err.Nil?
  {
    if res.Nil? then false else res.target.err.Nil?
  }

  function IsErr<T>(res: Nilable<Result<T>>): (b: bool)
    ensures b <==> res.Nil? || res.target.err.NonNil?
  {
    if res.Nil? then true else res.target.err.NonNil?
  }

  function HasValue<T>(res: Nilable<Result<T>>): (b: bool)
    ensures b <==> res.NonNil? && res.target.err.Nil?
  {
    if res.Nil? then false else IsOk(res)
  }

  // The Unwrappable capability

  function Expect<T>(res: Nilable<Result<T>>, msg: string): (r: Outcome<T>)
    ensures r.Returned? <==> IsOk(res)
    ensures r.Returned? ==> r.value == res.target.value
    ensures res.NonNil? && res.target.err.NonNil? ==> r == Panicked(TextPanic(msg))
    ensures res.Nil? ==> r == Panicked(TextPanic(Assert.NotNilText))
  {
    var check := Assert.ReceiverCheck(res);
    if check.Panicked? then Panicked(check.reason)
    else if res.target.err.Nil? then Returned(res.target.value)
    else Panicked(TextPanic(msg))
  }

  function Unwrap<T>(res: Nilable<Result<T>>): (r: Outcome<T>)
    ensures r.Returned? <==> IsOk(res)
    ensures r.Returned? ==> r.value == res.target.value
    ensures res.NonNil? && res.target.err.NonNil? ==> r == Panicked(TextPanic(UnwrapText))
    ensures res.Nil? ==> r == Panicked(TextPanic(Assert.NotNilText))
  {
    var check := Assert.ReceiverCheck(res);
    if check.Panicked? then Panicked(check.reason)
    else if res.target.err.Nil? then Returned(res.target.value)
    else Panicked(TextPanic(UnwrapText))
  }

  function UnwrapOr<T>(res: Nilable<Result<T>>, default: T): (r: T)
    ensures IsOk(res) ==> r == res.target.value
    ensures !IsOk(res) ==> r == default
  {
    if res.NonNil? && res.target.err.Nil? then res.target.value else default
  }

  function UnwrapOrDefault<T>(res: Nilable<Result<T>>, zero: T): (r: T)
    ensures IsOk(res) ==> r == res.target.value
    ensures !IsOk(res) ==> r == zero
  {
    if res.NonNil? && res.target.err.Nil? then res.target.value else zero
  }

  /** The fallback f is a Go closure; it is run only on the Err or nil path,
      so a panic of f surfaces only there. */
  function UnwrapOrElse<T>(res: Nilable<Result<T>>, f: () -> Outcome<T>): (r: Outcome<T>)
    ensures IsOk(res) ==> r == Returned(res.target.value)
    ensures !IsOk(res) ==> r == f()
  {
    if res.NonNil? && res.target.err.Nil? then Returned(res.target.value) else f()
  }

  // The error side

  /** Panics on Ok; on a nil receiver it does not panic but makes up an error. */
  function ExpectErr<T>(res: Nilable<Result<T>>, msg: string): (r: Outcome<Error>)
    ensures r.Panicked? <==> IsOk(res)
    ensures r.Panicked? ==> r.reason == TextPanic(msg)
    ensures res.Nil? ==> r == Returned(ExpectErrOnNil)
    ensures res.NonNil? && res.target.err.NonNil? ==> r == Returned(res.target.err.target)
  {
    if res.Nil? then Returned(ExpectErrOnNil)
    else if res.target.err.NonNil? then Returned(res.target.err.target)
    else Panicked(TextPanic(msg))
  }

  function UnwrapErr<T>(res: Nilable<Result<T>>): (r: Outcome<Error>)
    ensures r.Panicked? <==> IsOk(res)
    ensures r.Panicked? ==> r.reason == TextPanic(UnwrapErrText)
    ensures res.Nil? ==> r == Returned(UnwrapErrOnNil)
    ensures res.NonNil? && res.target.err.NonNil? ==> r == Returned(res.target.err.target)
  {
    if res.Nil? then Returned(UnwrapErrOnNil)
    else if res.target.err.NonNil? then Returned(res.target.err.target)
    else Panicked(TextPanic(UnwrapErrText))
  }

  // Conversions to Optional

  /** Result.Ok(): the value of an Ok as a present Optional, otherwise an empty one. */
  function OkOptional<T>(res: Nilable<Result<T>>, zero: T): (o: Optional<T>)
    ensures o.present == IsOk(res)
    ensures o.present ==> o.value == res.target.value
    ensures !o.present ==> o.value == zero
  {
    if res.NonNil? && res.target.err.Nil? then Optional(res.target.value, true)
    else Optional(zero, false)
  }

  /** Result.Err(): the error of an Err as a present Optional; a nil receiver
      reports a made-up error rather than an empty Optional. */
  function ErrOptional<T>(res: Nilable<Result<T>>): (o: Optional<MaybeError>)
    ensures o.present == IsErr(res)
    ensures o.present ==> o.value.NonNil?
    ensures !o.present ==> o.value.Nil?
    ensures res.Nil? ==> o.value == NonNil(ErrOnNil)
    ensures res.NonNil? ==> o.value == res.target.err
  {
    if res.Nil? then Optional(NonNil(ErrOnNil), true)
    else if res.target.err.NonNil? then Optional(res.target.err, true)
    else Optional(Nil, false)
  }

  // External codecs

  /** MarshalJSON: an Err encodes as `null` without error; an Ok encodes its
      value with the codec of T, and a codec failure is passed on with no bytes. */
  function MarshalJSON<T>(res: Result<T>, encode: T -> Fallible<seq<byte>>): (out: (seq<byte>, MaybeError))
    ensures res.err.NonNil? ==> out == (NullLiteral, Nil)
    ensures res.err.Nil? && encode(res.value).Success? ==> out == (encode(res.value).value, Nil)
    ensures res.err.Nil? && encode(res.value).Failure? ==> out == ([], NonNil(encode(res.value).error))
  {
    if res.err.NonNil? then (NullLiteral, Nil)
    else match encode(res.value)
      case Success(bytes) => (bytes, Nil)
      case Failure(e) => ([], NonNil(e))
  }

  /** The state a Result is left in, and the error returned, by UnmarshalJSON.
      `null` gives an Ok holding the zero value; a decoding failure sets the
      error and leaves the value as it was. */
  function Unmarshalled<T>(prior: Result<T>, data: seq<byte>, zero: T, decode: seq<byte> -> Fallible<T>): (out: (Result<T>, MaybeError))
    ensures data == NullLiteral ==> out == (Ok(zero), Nil)
    ensures data != NullLiteral && decode(data).Success? ==> out == (Ok(decode(data).value), Nil)
    ensures data != NullLiteral && decode(data).Failure? ==>
              out.1 == NonNil(decode(data).error) && out.0 == Result(prior.value, out.1)
  {
    if data == NullLiteral then (Result(zero, Nil), Nil)
    else match decode(data)
      case Failure(e) => (Result(prior.value, NonNil(e)), NonNil(e))
      case Success(v) => (Result(v, Nil), Nil)
  }

  /** Value(), as written: the Err branch gives (nil, nil); the Ok branch
      inspects the method value `res.Value` rather than the field, matches none
      of the listed types and always reports an unsupported type. */
  function Value<T>(res: Result<T>): (out: (Nilable<T>, MaybeError))
    ensures out.0.Nil?
    ensures out.1.NonNil? <==> res.err.Nil?
    ensures out.1.NonNil? ==> out.1.target == UnsupportedValue
  {
    if res.err.NonNil? then (Nil, Nil) else (Nil, NonNil(UnsupportedValue))
  }

  /** A codec for T whose decoder inverts its encoder, where encoding to `null`
      happens only for the zero value. */
  ghost predicate CodecRoundTrips<T(!new)>(encode: T -> Fallible<seq<byte>>, decode: seq<byte> -> Fallible<T>, zero: T)
  {
    forall v :: encode(v).Success? ==>
      (encode(v).value == NullLiteral ==> v == zero) &&
      (encode(v).value != NullLiteral ==> decode(encode(v).value) == Success(v))
  }

  /** Marshalling then unmarshalling gives back an Ok unchanged, but turns every
      Err into an Ok holding the zero value: the error does not survive. */
  lemma MarshalUnmarshalRoundTrip<T(!new)>(res: Result<T>, prior: Result<T>, zero: T,
                                     encode: T -> Fallible<seq<byte>>, decode: seq<byte> -> Fallible<T>)
    requires CodecRoundTrips(encode, decode, zero)
    requires res.err.NonNil? || encode(res.value).Success?
    ensures MarshalJSON(res, encode).1.Nil?
    ensures Unmarshalled(prior, MarshalJSON(res, encode).0, zero, decode)
            == (if res.err.Nil? then res else Ok(zero), Nil)
  {
    if res.err.Nil? {
      var bytes := encode(res.value).value;
      if bytes == NullLiteral {
        assert res.value == zero;
      } else {
        assert decode(bytes) == Success(res.value);
      }
    }
  }

  /** A Result variable in memory, which UnmarshalJSON and Scan overwrite in place. */
  class ResultVar<T> {
    var value: T
    var err: MaybeError

    /** The Result the variable currently holds. */
    function Get(): (r: Result<T>)
      reads this
      ensures r.value == value && r.err == err
    {
      Result(value, err)
    }

    constructor (init: Result<T>)
      ensures Get() == init
    {
      value := init.value;
      err := init.err;
    }

    method UnmarshalJSON(data: seq<byte>, zero: T, decode: seq<byte> -> Fallible<T>) returns (e: MaybeError)
      modifies this
      ensures (Get(), e) == Unmarshalled(old(Get()), data, zero, decode)
    {
      var decoded := zero;
      err := Nil;
      if data == NullLiteral {
        value := decoded;
        return Nil;
      }
      match decode(data)
      case Failure(failure) =>
        err := NonNil(failure);
        return err;
      case Success(v) =>
        decoded := v;
      value := decoded;
      return Nil;
    }
  }

  // Properties relating the operations

  /** The three queries agree, and the nil receiver counts as an Err. */
  lemma QueriesAgree<T>(res: Nilable<Result<T>>)
    ensures IsErr(res) == !IsOk(res)
    ensures HasValue(res) == IsOk(res)
    ensures res.Nil? ==> !IsOk(res) && IsErr(res) && !HasValue(res)
  {
  }

  /** Ok and Err build what their names say, except that Err with a nil error
      is an Ok. */
  lemma ConstructorsAndQueries<T>(v: T, zero: T, e: MaybeError, x: T)
    ensures IsOk(NonNil(Ok(v))) && Unwrap(NonNil(Ok(v))) == Returned(v)
    ensures IsErr(NonNil(Err(zero, e))) <==> e.NonNil?
    ensures ErrT(zero, e, x) == Err(zero, e)
  {
  }

  /** For every receiver, nil included, exactly one of Expect and ExpectErr
      panics: ExpectErr is the mirror image of Expect except that a nil receiver
      panics in Expect and yields an error in ExpectErr. */
  lemma ExpectAndExpectErrAreComplementary<T>(res: Nilable<Result<T>>, msg: string)
    ensures Expect(res, msg).Panicked? != ExpectErr(res, msg).Panicked?
    ensures Unwrap(res).Panicked? != UnwrapErr(res).Panicked?
  {
  }

  /** Unwrap is Expect with the fixed message, and the non-panicking fallbacks
      give the same value as Unwrap whenever Unwrap returns. */
  lemma UnwrapFamilyAgrees<T>(res: Nilable<Result<T>>, default: T, zero: T, f: () -> Outcome<T>)
    ensures Unwrap(res) == Expect(res, UnwrapText)
    ensures Unwrap(res).Returned? ==>
              UnwrapOr(res, default) == UnwrapOrDefault(res, zero) == Unwrap(res).value
              && UnwrapOrElse(res, f) == Unwrap(res)
    ensures UnwrapOrDefault(res, zero) == UnwrapOr(res, zero)
  {
  }

  /** Ok() and Err() split a Result: for a non-nil receiver exactly one of them
      is present; for a nil receiver only Err() is, with the made-up error. */
  lemma OkAndErrPartition<T>(res: Nilable<Result<T>>, zero: T)
    ensures OkOptional(res, zero).present == IsOk(res)
    ensures ErrOptional(res).present == IsErr(res)
    ensures OkOptional(res, zero).present != ErrOptional(res).present
    ensures res.Nil? ==> ErrOptional(res) == Optional(NonNil(ErrOnNil), true)
  {
  }
}
