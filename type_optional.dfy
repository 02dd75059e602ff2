/** Optional[T] of package Type with its pointer-receiver methods. A receiver
    is a `Nilable<Optional<T>>`; the queries and the fallbacks treat a nil
    receiver as an empty Optional, Expect and Unwrap panic on it. None of these
    methods writes a field. `zero` stands for the zero value of T. */
module TypeOptional {
  import opened Go
  import opened Containers
  import Assert
  import TypeResult

  const UnwrapText := "Tried unwrapping an Optional that did not have a value!"

  // Constructors

  function Some<T>(value: T): (o: Optional<T>)
    ensures o.present && o.value == value
  {
    Optional(value, true)
  }

  function None<T>(zero: T): (o: Optional<T>)
    ensures !o.present && o.value == zero
  {
    Optional(zero, false)
  }

  /** None_t: the argument only fixes the type and is discarded. */
  function NoneT<T>(zero: T, x: T): (o: Optional<T>)
    ensures o == None(zero)
  {
    Optional(zero, false)
  }

  // Queries

  function IsSome<T>(opt: Nilable<Optional<T>>): (b: bool)
    ensures b <==> opt.NonNil? && opt.target.present
  {
    if opt.Nil? then false else opt.target.present
  }

  function IsNone<T>(opt: Nilable<Optional<T>>): (b: bool)
    ensures b <==> opt.Nil? || !opt.target.present
  {
    if opt.Nil? then true else !opt.target.present
  }

  function HasValue<T>(opt: Nilable<Optional<T>>): (b: bool)
    ensures b <==> opt.NonNil? && opt.target.present
  {
    if opt.Nil? then false else IsSome(opt)
  }

  // The Unwrappable capability

  function Expect<T>(opt: Nilable<Optional<T>>, msg: string): (r: Outcome<T>)
    ensures r.Returned? <==> IsSome(opt)
    ensures r.Returned? ==> r.value == opt.target.value
    ensures opt.NonNil? && !opt.target.present ==> r == Panicked(TextPanic(msg))
    ensures opt.Nil? ==> r == Panicked(TextPanic(Assert.NotNilText))
  {
    var check := Assert.ReceiverCheck(opt);
    if check.Panicked? then Panicked(check.reason)
    else if opt.target.present then Returned(opt.target.value)
    else Panicked(TextPanic(msg))
  }

  function Unwrap<T>(opt: Nilable<Optional<T>>): (r: Outcome<T>)
    ensures r.Returned? <==> IsSome(opt)
    ensures r.Returned? ==> r.value == opt.target.value
    ensures opt.NonNil? && !opt.target.present ==> r == Panicked(TextPanic(UnwrapText))
    ensures opt.Nil? ==> r == Panicked(TextPanic(Assert.NotNilText))
  {
    var check := Assert.ReceiverCheck(opt);
    if check.Panicked? then Panicked(check.reason)
    else if opt.target.present then Returned(opt.target.value)
    else Panicked(TextPanic(UnwrapText))
  }

  function UnwrapOr<T>(opt: Nilable<Optional<T>>, default: T): (r: T)
    ensures IsSome(opt) ==> r == opt.target.value
    ensures !IsSome(opt) ==> r == default
  {
    if opt.NonNil? && opt.target.present then opt.target.value else default
  }

  function UnwrapOrDefault<T>(opt: Nilable<Optional<T>>, zero: T): (r: T)
    ensures IsSome(opt) ==> r == opt.target.value
    ensures !IsSome(opt) ==> r == zero
  {
    if opt.NonNil? && opt.target.present then opt.target.value else zero
  }

  /** The fallback f is a Go closure, run only when there is no value: when
      there is one, even a panicking f leaves the result untouched. */
  function UnwrapOrElse<T>(opt: Nilable<Optional<T>>, f: () -> Outcome<T>): (r: Outcome<T>)
    ensures IsSome(opt) ==> r == Returned(opt.target.value)
    ensures !IsSome(opt) ==> r == f()
  {
    if opt.NonNil? && opt.target.present then Returned(opt.target.value) else f()
  }

  // Conversions to Result

  /** OkOr: Some(v) becomes Ok(v); None and nil become Err(err), which is an
      Ok holding the zero value when err itself is nil. */
  function OkOr<T>(opt: Nilable<Optional<T>>, zero: T, err: MaybeError): (r: Result<T>)
    ensures IsSome(opt) ==> r == TypeResult.Ok(opt.target.value)
    ensures !IsSome(opt) ==> r == TypeResult.Err(zero, err)
  {
    if opt.NonNil? && opt.target.present then TypeResult.Ok(opt.target.value)
    else TypeResult.Err(zero, err)
  }

  /** OkOrElse: like OkOr, with the error computed by f, which runs only when
      there is no value. */
  function OkOrElse<T>(opt: Nilable<Optional<T>>, zero: T, f: () -> Outcome<MaybeError>): (r: Outcome<Result<T>>)
    ensures IsSome(opt) ==> r == Returned(TypeResult.Ok(opt.target.value))
    ensures !IsSome(opt) && f().Returned? ==> r == Returned(TypeResult.Err(zero, f().value))
    ensures !IsSome(opt) && f().Panicked? ==> r == Panicked(f().reason)
  {
    if opt.NonNil? && opt.target.present then Returned(TypeResult.Ok(opt.target.value))
    else match f()
      case Returned(e) => Returned(TypeResult.Err(zero, e))
      case Panicked(p) => Panicked(p)
  }

  // Properties relating the operations

  /** Some holds its value; None and None_t hold nothing, whatever the argument. */
  lemma ConstructorsAndQueries<T>(v: T, zero: T, x: T)
    ensures IsSome(NonNil(Some(v))) && Unwrap(NonNil(Some(v))) == Returned(v)
    ensures IsNone(NonNil(None(zero))) && IsNone(NonNil(NoneT(zero, x)))
    ensures NoneT(zero, x) == None(zero)
  {
  }

  /** IsSome and IsNone are complementary, HasValue is IsSome, and a nil
      receiver is None. */
  lemma QueriesAgree<T>(opt: Nilable<Optional<T>>)
    ensures IsNone(opt) == !IsSome(opt)
    ensures HasValue(opt) == IsSome(opt)
    ensures opt.Nil? ==> IsNone(opt) && !IsSome(opt) && !HasValue(opt)
  {
  }

  /** Unwrap is Expect with the fixed message; whenever they return, the three
      fallbacks return the same value. */
  lemma UnwrapFamilyAgrees<T>(opt: Nilable<Optional<T>>, default: T, zero: T, f: () -> Outcome<T>)
    ensures Unwrap(opt) == Expect(opt, UnwrapText)
    ensures Unwrap(opt).Returned? ==>
              UnwrapOr(opt, default) == UnwrapOrDefault(opt, zero) == Unwrap(opt).value
              && UnwrapOrElse(opt, f) == Unwrap(opt)
    ensures UnwrapOrDefault(opt, zero) == UnwrapOr(opt, zero)
  {
  }

  /** OkOr(e).IsOk() == IsSome() holds for every non-nil error e; a nil e
      turns an empty Optional into an Ok. */
  lemma OkOrReflectsPresence<T>(opt: Nilable<Optional<T>>, zero: T, err: MaybeError)
    ensures TypeResult.IsOk(NonNil(OkOr(opt, zero, err))) <==> IsSome(opt) || err.Nil?
    ensures err.NonNil? ==> TypeResult.IsOk(NonNil(OkOr(opt, zero, err))) == IsSome(opt)
  {
  }

  /** OkOrElse is OkOr with the error f returns, and agrees with OkOr outright
      when there is a value, whatever f would do. */
  lemma OkOrElseIsLazyOkOr<T>(opt: Nilable<Optional<T>>, zero: T, f: () -> Outcome<MaybeError>)
    ensures IsSome(opt) ==> OkOrElse(opt, zero, f) == Returned(OkOr(opt, zero, Nil))
    ensures f().Returned? ==> OkOrElse(opt, zero, f) == Returned(OkOr(opt, zero, f().value))
  {
  }

  /** Converting to a Result and back: OkOr followed by Result.Ok() gives
      back a present Optional unchanged, and an empty or nil one as None. */
  lemma OkOrThenOkRoundTrip<T>(opt: Nilable<Optional<T>>, zero: T, err: MaybeError)
    requires err.NonNil?
    ensures IsSome(opt) ==> TypeResult.OkOptional(NonNil(OkOr(opt, zero, err)), zero) == opt.target
    ensures !IsSome(opt) ==> TypeResult.OkOptional(NonNil(OkOr(opt, zero, err)), zero) == None(zero)
  {
  }

  /** And the other way: Result.Ok() followed by OkOr gives back every Ok. */
  lemma OkThenOkOrRoundTrip<T>(res: Nilable<Result<T>>, zero: T, err: MaybeError)
    ensures TypeResult.IsOk(res) ==>
              OkOr(NonNil(TypeResult.OkOptional(res, zero)), zero, err) == res.target
    ensures !TypeResult.IsOk(res) ==>
              OkOr(NonNil(TypeResult.OkOptional(res, zero)), zero, err) == TypeResult.Err(zero, err)
  {
  }
}
