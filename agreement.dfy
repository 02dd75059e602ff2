/** The two packages side by side: on a non-nil receiver, every method of
    package Type with pointer receivers behaves as its value-receiver
    counterpart in package typeutils; they differ only in what they do with a
    nil receiver. */
module Agreement {
  import opened Go
  import opened Containers
  import TypeResult
  import TypeOptional
  import TypeUtils
  import ValueResult
  import ValueOptional
  import ValueUtils

  lemma ResultsAgree<T>(res: Result<T>, msg: string, default: T, zero: T, f: () -> Outcome<T>)
    ensures TypeResult.IsOk(NonNil(res)) == ValueResult.IsOk(res)
    ensures TypeResult.IsErr(NonNil(res)) == ValueResult.IsErr(res)
    ensures TypeResult.HasValue(NonNil(res)) == ValueResult.HasValue(res)
    ensures TypeResult.Expect(NonNil(res), msg) == ValueResult.Expect(res, msg)
    ensures TypeResult.Unwrap(NonNil(res)) == ValueResult.Unwrap(res)
    ensures TypeResult.UnwrapOr(NonNil(res), default) == ValueResult.UnwrapOr(res, default)
    ensures TypeResult.UnwrapOrDefault(NonNil(res), zero) == ValueResult.UnwrapOrDefault(res, zero)
    ensures TypeResult.UnwrapOrElse(NonNil(res), f) == ValueResult.UnwrapOrElse(res, f)
    ensures TypeResult.ExpectErr(NonNil(res), msg) == ValueResult.ExpectErr(res, msg)
    ensures TypeResult.UnwrapErr(NonNil(res)) == ValueResult.UnwrapErr(res)
    ensures TypeResult.OkOptional(NonNil(res), zero) == ValueResult.OkOptional(res, zero)
    ensures TypeResult.ErrOptional(NonNil(res)) == ValueResult.ErrOptional(res)
  {
  }

  lemma OptionalsAgree<T>(opt: Optional<T>, msg: string, default: T, zero: T, err: MaybeError,
                          f: () -> Outcome<T>, g: () -> Outcome<MaybeError>)
    ensures TypeOptional.IsSome(NonNil(opt)) == ValueOptional.IsSome(opt)
    ensures TypeOptional.IsNone(NonNil(opt)) == ValueOptional.IsNone(opt)
    ensures TypeOptional.HasValue(NonNil(opt)) == ValueOptional.HasValue(opt)
    ensures TypeOptional.Expect(NonNil(opt), msg) == ValueOptional.Expect(opt, msg)
    ensures TypeOptional.Unwrap(NonNil(opt)) == ValueOptional.Unwrap(opt)
    ensures TypeOptional.UnwrapOr(NonNil(opt), default) == ValueOptional.UnwrapOr(opt, default)
    ensures TypeOptional.UnwrapOrDefault(NonNil(opt), zero) == ValueOptional.UnwrapOrDefault(opt, zero)
    ensures TypeOptional.UnwrapOrElse(NonNil(opt), f) == ValueOptional.UnwrapOrElse(opt, f)
    ensures TypeOptional.OkOr(NonNil(opt), zero, err) == ValueOptional.OkOr(opt, zero, err)
    ensures TypeOptional.OkOrElse(NonNil(opt), zero, g) == ValueOptional.OkOrElse(opt, zero, g)
  {
  }

  /** The pointer view of an interface holding a non-nil container. */
  function Lift<T>(val: ValueUtils.Container<T>): (c: TypeUtils.Container<T>)
    ensures val.NilInterface? <==> c.NilInterface?
    ensures val.OptionalValue? ==> c == TypeUtils.OptionalRef(NonNil(val.opt))
    ensures val.ResultValue? ==> c == TypeUtils.ResultRef(NonNil(val.res))
  {
    match val
    case NilInterface => TypeUtils.NilInterface
    case OptionalValue(opt) => TypeUtils.OptionalRef(NonNil(opt))
    case ResultValue(res) => TypeUtils.ResultRef(NonNil(res))
  }

  lemma DelegatorsAgree<T>(val: ValueUtils.Container<T>, msg: string, zero: T, f: () -> Outcome<T>)
    ensures TypeUtils.HasValue(Lift(val)) == ValueUtils.HasValue(val)
    ensures TypeUtils.Expect(Lift(val), msg) == ValueUtils.Expect(val, msg)
    ensures TypeUtils.Unwrap(Lift(val)) == ValueUtils.Unwrap(val)
    ensures TypeUtils.UnwrapOr(Lift(val), zero) == ValueUtils.UnwrapOr(val, zero)
    ensures TypeUtils.UnwrapOrDefault(Lift(val), zero) == ValueUtils.UnwrapOrDefault(val, zero)
    ensures TypeUtils.UnwrapOrElse(Lift(val), f) == ValueUtils.UnwrapOrElse(val, f)
  {
    match val
    case NilInterface =>
    case OptionalValue(opt) => OptionalsAgree(opt, msg, zero, zero, Nil, f, () => Returned(Nil));
    case ResultValue(res) => ResultsAgree(res, msg, zero, zero, f);
  }
}
