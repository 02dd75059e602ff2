/** Optional[T] of package typeutils, with value receivers. Its constructors
    Some, None and None_t are those of package Type (TypeOptional.Some,
    TypeOptional.None, TypeOptional.NoneT). */
module ValueOptional {
  import opened Go
  import opened Containers
  import TypeOptional
  import TypeResult
  import ValueResult

  const UnwrapText := "Tried unwrapping an Optional that did not have a value!"

  function IsSome<T>(opt: Optional<T>): (b: bool)
    ensures b <==> opt.present
  {
    opt.present
  }

  function IsNone<T>(opt: Optional<T>): (b: bool)
    ensures b <==> !opt.present
  {
    !opt.present
  }

  function HasValue<T>(opt: Optional<T>): (b: bool)
    ensures b == IsSome(opt)
  {
    IsSome(opt)
  }

  function Expect<T>(opt: Optional<T>, msg: string): (r: Outcome<T>)
    ensures r.Returned? <==> IsSome(opt)
    ensures r.Returned? ==> r.value == opt.value
    ensures r.Panicked? ==> r.reason == TextPanic(msg)
  {
    if opt.present then Returned(opt.value) else Panicked(TextPanic(msg))
  }

  function Unwrap<T>(opt: Optional<T>): (r: Outcome<T>)
    ensures r.Returned? <==> IsSome(opt)
    ensures r.Returned? ==> r.value == opt.value
    ensures r.Panicked? ==> r.reason == TextPanic(UnwrapText)
  {
    if opt.present then Returned(opt.value) else Panicked(TextPanic(UnwrapText))
  }

  function UnwrapOr<T>(opt: Optional<T>, default: T): (r: T)
    ensures IsSome(opt) ==> r == opt.value
    ensures !IsSome(opt) ==> r == default
  {
    if opt.present then opt.value else default
  }

  function UnwrapOrDefault<T>(opt: Optional<T>, zero: T): (r: T)
    ensures IsSome(opt) ==> r == opt.value
    ensures !IsSome(opt) ==> r == zero
  {
    if opt.present then opt.value else zero
  }

  function UnwrapOrElse<T>(opt: Optional<T>, f: () -> Outcome<T>): (r: Outcome<T>)
    ensures IsSome(opt) ==> r == Returned(opt.value)
    ensures !IsSome(opt) ==> r == f()
  {
    if opt.present then Returned(opt.value) else f()
  }

  /** Ok_or: Some(v) becomes Ok(v), None becomes Err(err). */
  function OkOr<T>(opt: Optional<T>, zero: T, err: MaybeError): (r: Result<T>)
    ensures IsSome(opt) ==> r == TypeResult.Ok(opt.value)
    ensures !IsSome(opt) ==> r == TypeResult.Err(zero, err)
  {
    if opt.present then TypeResult.Ok(opt.value) else TypeResult.Err(zero, err)
  }

  /** Ok_or_else: the error is computed by f, which runs only for None. */
  function OkOrElse<T>(opt: Optional<T>, zero: T, f: () -> Outcome<MaybeError>): (r: Outcome<Result<T>>)
    ensures IsSome(opt) ==> r == Returned(TypeResult.Ok(opt.value))
    ensures !IsSome(opt) && f().Returned? ==> r == Returned(TypeResult.Err(zero, f().value))
    ensures !IsSome(opt) && f().Panicked? ==> r == Panicked(f().reason)
  {
    if opt.present then Returned(TypeResult.Ok(opt.value))
    else match f()
      case Returned(e) => Returned(TypeResult.Err(zero, e))
      case Panicked(p) => Panicked(p)
  }

  /** Ok_or and Result.Ok() are inverse: for a non-nil error, Ok_or followed
      by Ok() gives back the Optional (an empty one as None), and Ok()
      followed by Ok_or gives back every Ok. */
  lemma OkOrRoundTrips<T>(opt: Optional<T>, res: Result<T>, zero: T, err: MaybeError)
    requires err.NonNil?
    ensures ValueResult.IsOk(OkOr(opt, zero, err)) == IsSome(opt)
    ensures IsSome(opt) ==> ValueResult.OkOptional(OkOr(opt, zero, err), zero) == opt
    ensures !IsSome(opt) ==> ValueResult.OkOptional(OkOr(opt, zero, err), zero) == TypeOptional.None(zero)
    ensures ValueResult.IsOk(res) ==> OkOr(ValueResult.OkOptional(res, zero), zero, err) == res
  {
  }
}
