/** The free functions of package typeutils: delegators over the Unwrappable
    and ValueContainer interfaces. ResultWrap, ResultWrapb and Ptr are those
    of package Type (TypeUtils.ResultWrap, TypeUtils.ResultWrapb,
    TypeUtils.Ptr). */
module ValueUtils {
  import opened Go
  import opened Containers
  import ValueOptional
  import ValueResult

  /** An interface value holding an Optional[T] or a Result[T], or nil;
      calling a method on a nil interface dereferences nil. */
  datatype Container<T> =
    | NilInterface
    | OptionalValue(opt: Optional<T>)
    | ResultValue(res: Result<T>)

  function HasValue<T>(val: Container<T>): (r: Outcome<bool>)
    ensures val.NilInterface? <==> r.Panicked?
    ensures val.OptionalValue? ==> r == Returned(val.opt.present)
    ensures val.ResultValue? ==> r == Returned(val.res.err.Nil?)
  {
    match val
    case NilInterface => Panicked(NilDereference)
    case OptionalValue(opt) => Returned(ValueOptional.HasValue(opt))
    case ResultValue(res) => Returned(ValueResult.HasValue(res))
  }

  function Expect<T>(val: Container<T>, msg: string): (r: Outcome<T>)
    ensures r.Returned? <==> HasValue(val) == Returned(true)
    ensures HasValue(val) == Returned(false) ==> r == Panicked(TextPanic(msg))
    ensures r.Returned? ==> r.value == if val.OptionalValue? then val.opt.value else val.res.value
  {
    match val
    case NilInterface => Panicked(NilDereference)
    case OptionalValue(opt) => ValueOptional.Expect(opt, msg)
    case ResultValue(res) => ValueResult.Expect(res, msg)
  }

  function Unwrap<T>(val: Container<T>): (r: Outcome<T>)
    ensures r.Returned? <==> HasValue(val) == Returned(true)
    ensures val.OptionalValue? ==> r == ValueOptional.Unwrap(val.opt)
    ensures val.ResultValue? ==> r == ValueResult.Unwrap(val.res)
  {
    match val
    case NilInterface => Panicked(NilDereference)
    case OptionalValue(opt) => ValueOptional.Unwrap(opt)
    case ResultValue(res) => ValueResult.Unwrap(res)
  }

  function UnwrapOrDefault<T>(val: Container<T>, zero: T): (r: Outcome<T>)
    ensures r.Panicked? <==> val.NilInterface?
    ensures HasValue(val) == Returned(false) ==> r == Returned(zero)
    ensures HasValue(val) == Returned(true) ==> r == Unwrap(val)
  {
    match val
    case NilInterface => Panicked(NilDereference)
    case OptionalValue(opt) => Returned(ValueOptional.UnwrapOrDefault(opt, zero))
    case ResultValue(res) => Returned(ValueResult.UnwrapOrDefault(res, zero))
  }

  /** The free UnwrapOr passes its own zero-valued named result as the
      default, so it always agrees with UnwrapOrDefault. */
  function UnwrapOr<T>(val: Container<T>, zero: T): (r: Outcome<T>)
    ensures r == UnwrapOrDefault(val, zero)
  {
    var def := zero;
    match val
    case NilInterface => Panicked(NilDereference)
    case OptionalValue(opt) => Returned(ValueOptional.UnwrapOr(opt, def))
    case ResultValue(res) => Returned(ValueResult.UnwrapOr(res, def))
  }

  function UnwrapOrElse<T>(val: Container<T>, f: () -> Outcome<T>): (r: Outcome<T>)
    ensures HasValue(val) == Returned(false) ==> r == f()
    ensures HasValue(val) == Returned(true) ==> r == Unwrap(val)
    ensures val.NilInterface? ==> r == Panicked(NilDereference)
  {
    match val
    case NilInterface => Panicked(NilDereference)
    case OptionalValue(opt) => ValueOptional.UnwrapOrElse(opt, f)
    case ResultValue(res) => ValueResult.UnwrapOrElse(res, f)
  }
}
