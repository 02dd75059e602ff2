/** Result[T] of package typeutils: the same struct as in package Type, with
    value receivers, so there is no nil receiver to handle and nothing can
    change the Result. Its constructors Ok, Err and Err_t are those of
    package Type (TypeResult.Ok, TypeResult.Err, TypeResult.ErrT). */
module ValueResult {
  import opened Go
  import opened Containers

  const UnwrapText := "Tried unwrapping a Result that had an error value!"
  const UnwrapErrText := "Expect_err was called with an Ok value"

  function IsOk<T>(res: Result<T>): (b: bool)
    ensures b <==> res.err.Nil?
  {
    res.err == Nil
  }

  function IsErr<T>(res: Result<T>): (b: bool)
    ensures b <==> res.err.NonNil?
  {
    res.err != Nil
  }

  function HasValue<T>(res: Result<T>): (b: bool)
    ensures b == IsOk(res)
  {
    IsOk(res)
  }

  function Expect<T>(res: Result<T>, msg: string): (r: Outcome<T>)
    ensures r.Returned? <==> IsOk(res)
    ensures r.Returned? ==> r.value == res.value
    ensures r.Panicked? ==> r.reason == TextPanic(msg)
  {
    if res.err == Nil then Returned(res.value) else Panicked(TextPanic(msg))
  }

  function Unwrap<T>(res: Result<T>): (r: Outcome<T>)
    ensures r.Returned? <==> IsOk(res)
    ensures r.Returned? ==> r.value == res.value
    ensures r.Panicked? ==> r.reason == TextPanic(UnwrapText)
  {
    if res.err == Nil then Returned(res.value) else Panicked(TextPanic(UnwrapText))
  }

  function UnwrapOr<T>(res: Result<T>, default: T): (r: T)
    ensures IsOk(res) ==> r == res.value
    ensures !IsOk(res) ==> r == default
  {
    if res.err == Nil then res.value else default
  }

  function UnwrapOrDefault<T>(res: Result<T>, zero: T): (r: T)
    ensures IsOk(res) ==> r == res.value
    ensures !IsOk(res) ==> r == zero
  {
    if res.err == Nil then res.value else zero
  }

  function UnwrapOrElse<T>(res: Result<T>, f: () -> Outcome<T>): (r: Outcome<T>)
    ensures IsOk(res) ==> r == Returned(res.value)
    ensures !IsOk(res) ==> r == f()
  {
    if res.err == Nil then Returned(res.value) else f()
  }

  /** ExpectErr panics on an Ok, the opposite of Expect. */
  function ExpectErr<T>(res: Result<T>, msg: string): (r: Outcome<Error>)
    ensures r.Panicked? <==> IsOk(res)
    ensures r.Panicked? ==> r.reason == TextPanic(msg)
    ensures r.Returned? ==> NonNil(r.value) == res.err
  {
    if res.err != Nil then Returned(res.err.target) else Panicked(TextPanic(msg))
  }

  function UnwrapErr<T>(res: Result<T>): (r: Outcome<Error>)
    ensures r.Panicked? <==> IsOk(res)
    ensures r.Panicked? ==> r.reason == TextPanic(UnwrapErrText)
    ensures r.Returned? ==> NonNil(r.value) == res.err
  {
    if res.err != Nil then Returned(res.err.target) else Panicked(TextPanic(UnwrapErrText))
  }

  /** Ok(): Ok(v) becomes Some(v) and an error becomes None. */
  function OkOptional<T>(res: Result<T>, zero: T): (o: Optional<T>)
    ensures o.present == IsOk(res)
    ensures o.value == if IsOk(res) then res.value else zero
  {
    if res.err == Nil then Optional(res.value, true) else Optional(zero, false)
  }

  /** Err(): an error e becomes Some(e) and an Ok becomes None. */
  function ErrOptional<T>(res: Result<T>): (o: Optional<MaybeError>)
    ensures o.present == IsErr(res)
    ensures o.value == res.err
  {
    if res.err != Nil then Optional(res.err, true) else Optional(Nil, false)
  }

  /** Without nil receivers the queries and conversions partition every
      Result exactly: one of Expect and ExpectErr panics, one of Ok() and
      Err() is present, and the fallbacks agree with Unwrap when it returns. */
  lemma OkAndErrPartition<T>(res: Result<T>, zero: T, msg: string, default: T, f: () -> Outcome<T>)
    ensures IsErr(res) == !IsOk(res)
    ensures Expect(res, msg).Panicked? != ExpectErr(res, msg).Panicked?
    ensures Unwrap(res).Panicked? != UnwrapErr(res).Panicked?
    ensures OkOptional(res, zero).present != ErrOptional(res).present
    ensures Unwrap(res).Returned? ==>
              UnwrapOr(res, default) == UnwrapOrDefault(res, zero) == Unwrap(res).value
              && UnwrapOrElse(res, f) == Unwrap(res)
  {
  }
}
