/** The free functions of package Type: delegators over the Unwrappable and
    ValueContainer interfaces, ResultWrap, Ptr, and the panic-recovery helper
    CatchUnwrap with the two setters it uses to force a container empty. */
module TypeUtils {
  import opened Go
  import opened Containers
  import TypeOptional
  import TypeResult

  /** An interface value of type Unwrappable[T] or ValueContainer: nil, or a
      (possibly nil) *Optional[T] or *Result[T]. Calling a method on a nil
      interface dereferences nil. */
  datatype Container<T> =
    | NilInterface
    | OptionalRef(opt: Nilable<Optional<T>>)
    | ResultRef(res: Nilable<Result<T>>)

  const CatchError := Error("Tried to unwrap a failed result!")

  // Delegators

  function HasValue<T>(val: Container<T>): (r: Outcome<bool>)
    ensures val.NilInterface? <==> r.Panicked?
    ensures val.OptionalRef? ==> r == Returned(TypeOptional.IsSome(val.opt))
    ensures val.ResultRef? ==> r == Returned(TypeResult.IsOk(val.res))
  {
    match val
    case NilInterface => Panicked(NilDereference)
    case OptionalRef(opt) => Returned(TypeOptional.HasValue(opt))
    case ResultRef(res) => Returned(TypeResult.HasValue(res))
  }

  function Expect<T>(val: Container<T>, msg: string): (r: Outcome<T>)
    ensures r.Returned? <==> HasValue(val) == Returned(true)
    ensures val.OptionalRef? ==> r == TypeOptional.Expect(val.opt, msg)
    ensures val.ResultRef? ==> r == TypeResult.Expect(val.res, msg)
  {
    match val
    case NilInterface => Panicked(NilDereference)
    case OptionalRef(opt) => TypeOptional.Expect(opt, msg)
    case ResultRef(res) => TypeResult.Expect(res, msg)
  }

  function Unwrap<T>(val: Container<T>): (r: Outcome<T>)
    ensures r.Returned? <==> HasValue(val) == Returned(true)
    ensures val.OptionalRef? ==> r == TypeOptional.Unwrap(val.opt)
    ensures val.ResultRef? ==> r == TypeResult.Unwrap(val.res)
  {
    match val
    case NilInterface => Panicked(NilDereference)
    case OptionalRef(opt) => TypeOptional.Unwrap(opt)
    case ResultRef(res) => TypeResult.Unwrap(res)
  }

  function UnwrapOrDefault<T>(val: Container<T>, zero: T): (r: Outcome<T>)
    ensures r.Panicked? <==> val.NilInterface?
    ensures HasValue(val) == Returned(false) ==> r == Returned(zero)
    ensures HasValue(val) == Returned(true) ==> r == Unwrap(val)
  {
    match val
    case NilInterface => Panicked(NilDereference)
    case OptionalRef(opt) => Returned(TypeOptional.UnwrapOrDefault(opt, zero))
    case ResultRef(res) => Returned(TypeResult.UnwrapOrDefault(res, zero))
  }

  /** The free UnwrapOr takes no default: it passes its own named result, which
      still holds the zero value, so it always agrees with UnwrapOrDefault. */
  function UnwrapOr<T>(val: Container<T>, zero: T): (r: Outcome<T>)
    ensures r == UnwrapOrDefault(val, zero)
  {
    var def := zero;
    match val
    case NilInterface => Panicked(NilDereference)
    case OptionalRef(opt) => Returned(TypeOptional.UnwrapOr(opt, def))
    case ResultRef(res) => Returned(TypeResult.UnwrapOr(res, def))
  }

  function UnwrapOrElse<T>(val: Container<T>, f: () -> Outcome<T>): (r: Outcome<T>)
    ensures HasValue(val) == Returned(false) ==> r == f()
    ensures HasValue(val) == Returned(true) ==> r == Unwrap(val)
    ensures val.NilInterface? ==> r == Panicked(NilDereference)
  {
    match val
    case NilInterface => Panicked(NilDereference)
    case OptionalRef(opt) => TypeOptional.UnwrapOrElse(opt, f)
    case ResultRef(res) => TypeResult.UnwrapOrElse(res, f)
  }

  // Wrapping Go's (value, error) pairs

  /** ResultWrap: a nil error gives Ok(val), any other error gives Err(err). */
  function ResultWrap<T>(zero: T, val: T, err: MaybeError): (r: Result<T>)
    ensures TypeResult.IsOk(NonNil(r)) <==> err.Nil?
    ensures err.Nil? ==> r == TypeResult.Ok(val)
    ensures err.NonNil? ==> r == TypeResult.Err(zero, err)
  {
    if err.Nil? then TypeResult.Ok(val) else TypeResult.Err(zero, err)
  }

  /** ResultWrapb: ResultWrap with its arguments the other way round. */
  function ResultWrapb<T>(zero: T, err: MaybeError, val: T): (r: Result<T>)
    ensures r == ResultWrap(zero, val, err)
  {
    if err.Nil? then TypeResult.Ok(val) else TypeResult.Err(zero, err)
  }

  /** Wrapping a pair and unwrapping it gives the value back exactly when the
      error was nil, and ExpectErr gives the error back otherwise. */
  lemma ResultWrapUnwraps<T>(zero: T, val: T, err: MaybeError, msg: string)
    ensures err.Nil? ==> TypeResult.Unwrap(NonNil(ResultWrap(zero, val, err))) == Returned(val)
    ensures err.NonNil? ==> TypeResult.ExpectErr(NonNil(ResultWrap(zero, val, err)), msg) == Returned(err.target)
    ensures err.NonNil? ==> TypeResult.Unwrap(NonNil(ResultWrap(zero, val, err))).Panicked?
  {
  }

  /** Ptr: a fresh variable holding a copy of v. */
  method Ptr<T>(v: T) returns (p: Cell<T>)
    ensures fresh(p) && p.val == v
  {
    p := new Cell(v);
  }

  // Recovery from unwrap panics

  /** A field of a struct, as reflection sees it by name. */
  datatype Field<T> =
    | BoolField(b: bool)
    | InterfaceField(e: MaybeError)
    | ValueField(v: T)
    | OtherField(kind: Kind)

  /** An addressable struct variable whose fields reflection reaches by name. */
  class StructCell<T> {
    var fields: map<string, Field<T>>

    constructor (fields: map<string, Field<T>>)
      ensures this.fields == fields
    {
      this.fields := fields;
    }
  }

  /** The fields of an Optional[T] struct. */
  function OptionalLayout<T>(o: Optional<T>): (m: map<string, Field<T>>)
    ensures m.Keys == {"value", "present"}
    ensures m["present"] == BoolField(o.present) && m["value"] == ValueField(o.value)
  {
    map["value" := ValueField(o.value), "present" := BoolField(o.present)]
  }

  /** The fields of a Result[T] struct. */
  function ResultLayout<T>(r: Result<T>): (m: map<string, Field<T>>)
    ensures m.Keys == {"value", "err"}
    ensures m["err"] == InterfaceField(r.err) && m["value"] == ValueField(r.value)
  {
    map["value" := ValueField(r.value), "err" := InterfaceField(r.err)]
  }

  /** What CatchUnwrap's argument, an interface{}, turns out to be. The
      documented use passes a pointer to a pointer to the container. */
  datatype Destination<T> =
    | NotPointer                        // not a pointer at all (also an untyped nil)
    | NilPointer                        // a nil pointer
    | ToDirect                          // a pointer to a value that is neither a pointer nor an interface
    | ToNil                             // a pointer to a nil pointer
    | ToNonStruct                       // a pointer to a pointer to something other than a struct
    | ToStruct(cell: StructCell<T>)     // a pointer to a pointer to a struct

  /** The objects the setters may write. */
  function Targets<T>(ret: Destination<T>): (s: set<object>)
    ensures s == if ret.ToStruct? then {ret.cell} else {}
  {
    if ret.ToStruct? then {ret.cell} else {}
  }

  ghost predicate HasBoolField<T>(fields: map<string, Field<T>>, name: string)
  {
    name in fields && fields[name].BoolField?
  }

  ghost predicate HasInterfaceField<T>(fields: map<string, Field<T>>, name: string)
  {
    name in fields && fields[name].InterfaceField?
  }

  /** setOptionalNone: writes `present := false` and nothing else, provided the
      destination reaches a struct with a bool field named `present`. Reaching
      through a pointer to a non-pointer makes reflection panic. */
  method SetOptionalNone<T>(ret: Destination<T>) returns (out: Outcome<bool>)
    modifies Targets(ret)
    ensures out.Panicked? <==> ret.ToDirect?
    ensures out.Panicked? ==> out.reason == ReflectValueError
    ensures out == Returned(true) <==> ret.ToStruct? && HasBoolField(old(ret.cell.fields), "present")
    ensures ret.ToStruct? ==>
              ret.cell.fields == if out == Returned(true)
                                 then old(ret.cell.fields)["present" := BoolField(false)]
                                 else old(ret.cell.fields)
    ensures out != Returned(true) ==> unchanged(Targets(ret))
  {
    match ret
    case NotPointer => out := Returned(false);
    case NilPointer => out := Returned(false);
    case ToDirect => out := Panicked(ReflectValueError);
    case ToNil => out := Returned(false);
    case ToNonStruct => out := Returned(false);
    case ToStruct(cell) =>
      if "present" !in cell.fields {
        out := Returned(false);
      } else if !cell.fields["present"].BoolField? {
        out := Returned(false);
      } else {
        cell.fields := cell.fields["present" := BoolField(false)];
        out := Returned(true);
      }
  }

  /** setResultError: writes `err := e` and nothing else, provided the
      destination reaches a struct with an interface field named `err`. */
  method SetResultError<T>(ret: Destination<T>, e: Error) returns (out: Outcome<bool>)
    modifies Targets(ret)
    ensures out.Panicked? <==> ret.ToDirect?
    ensures out.Panicked? ==> out.reason == ReflectValueError
    ensures out == Returned(true) <==> ret.ToStruct? && HasInterfaceField(old(ret.cell.fields), "err")
    ensures ret.ToStruct? ==>
              ret.cell.fields == if out == Returned(true)
                                 then old(ret.cell.fields)["err" := InterfaceField(NonNil(e))]
                                 else old(ret.cell.fields)
    ensures out != Returned(true) ==> unchanged(Targets(ret))
  {
    match ret
    case NotPointer => out := Returned(false);
    case NilPointer => out := Returned(false);
    case ToDirect => out := Panicked(ReflectValueError);
    case ToNil => out := Returned(false);
    case ToNonStruct => out := Returned(false);
    case ToStruct(cell) =>
      if "err" !in cell.fields {
        out := Returned(false);
      } else if !cell.fields["err"].InterfaceField? {
        out := Returned(false);
      } else {
        cell.fields := cell.fields["err" := InterfaceField(NonNil(e))];
        out := Returned(true);
      }
  }

  /** Whether `recover` hands CatchUnwrap a panic it will look into: only a
      non-nil pointer is considered at all. */
  predicate IsNonNilPointer(p: PanicValue)
  {
    KindOf(p) == Pointer && !p.isNil
  }

  /** Whether the Optional setter succeeds on this destination. */
  ghost predicate OptionalResettable<T>(ret: Destination<T>)
    reads Targets(ret)
  {
    ret.ToStruct? && HasBoolField(ret.cell.fields, "present")
  }

  /** Whether the Result setter succeeds on this destination. */
  ghost predicate ResultResettable<T>(ret: Destination<T>)
    reads Targets(ret)
  {
    ret.ToStruct? && HasInterfaceField(ret.cell.fields, "err")
  }

  /** CatchUnwrap, run as a deferred call: `recovered` is what `recover`
      returned. With no panic in flight it does nothing. A panic that is not a
      non-nil pointer, or carries neither marker, is raised again unchanged. A
      marked panic forces the destination empty (an Optional marker) or into an
      error (a Result marker) and is swallowed; when the setter cannot reach a
      suitable field the panic is raised again. */
  method CatchUnwrap<T>(recovered: Nilable<PanicValue>, ret: Destination<T>) returns (out: Outcome<()>)
    modifies Targets(ret)
    ensures recovered.Nil? ==> out == Returned(()) && unchanged(Targets(ret))
    ensures recovered.NonNil? && !IsNonNilPointer(recovered.target) ==>
              out == Panicked(recovered.target) && unchanged(Targets(ret))
    ensures recovered.NonNil? && !recovered.target.PointerPanic? ==> out == Panicked(recovered.target)
    ensures recovered.NonNil? && IsNonNilPointer(recovered.target)
            && !recovered.target.optionalMarker && !recovered.target.resultMarker ==>
              out == Panicked(recovered.target) && unchanged(Targets(ret))
    ensures recovered.NonNil? && IsNonNilPointer(recovered.target)
            && (recovered.target.optionalMarker || recovered.target.resultMarker) && ret.ToDirect? ==>
              out == Panicked(ReflectValueError)
    ensures recovered.NonNil? && IsNonNilPointer(recovered.target)
            && recovered.target.optionalMarker && old(OptionalResettable(ret)) ==>
              out == Returned(()) && ret.cell.fields == old(ret.cell.fields)["present" := BoolField(false)]
    ensures recovered.NonNil? && IsNonNilPointer(recovered.target)
            && !(recovered.target.optionalMarker && old(OptionalResettable(ret)))
            && recovered.target.resultMarker && old(ResultResettable(ret)) ==>
              out == Returned(()) && ret.cell.fields == old(ret.cell.fields)["err" := InterfaceField(NonNil(CatchError))]
    ensures recovered.NonNil? && IsNonNilPointer(recovered.target) && !ret.ToDirect?
            && !(recovered.target.optionalMarker && old(OptionalResettable(ret)))
            && !(recovered.target.resultMarker && old(ResultResettable(ret))) ==>
              out == Panicked(recovered.target) && unchanged(Targets(ret))
  {
    if recovered.Nil? {
      return Returned(());
    }
    var r := recovered.target;
    if KindOf(r) != Pointer || r.isNil {
      return Panicked(r);
    }
    if r.optionalMarker {
      var done := SetOptionalNone(ret);
      if done.Panicked? {
        return Panicked(done.reason);
      }
      if done.value {
        return Returned(());
      }
    }
    if r.resultMarker {
      var done := SetResultError(ret, CatchError);
      if done.Panicked? {
        return Panicked(done.reason);
      }
      if done.value {
        return Returned(());
      }
    }
    return Panicked(r);
  }

  /** The Optional and Result structs are what the setters expect: resetting
      one leaves it empty, or in error, with its value untouched. */
  lemma SettersKeepTheValue<T>(o: Optional<T>, r: Result<T>, e: Error)
    ensures OptionalLayout(o)["present" := BoolField(false)] == OptionalLayout(o.(present := false))
    ensures ResultLayout(r)["err" := InterfaceField(NonNil(e))] == ResultLayout(r.(err := NonNil(e)))
    ensures HasBoolField(OptionalLayout(o), "present") && !HasInterfaceField(OptionalLayout(o), "err")
    ensures HasInterfaceField(ResultLayout(r), "err") && !HasBoolField(ResultLayout(r), "present")
  {
  }

  /** The panics that Unwrap and Expect raise are strings, so CatchUnwrap does
      not catch them: an Err destination stays as it was and the panic goes on. */
  method UnwrapPanicEscapesCatchUnwrap<T>(zero: T, e: Error) returns (out: Outcome<()>, after: map<string, Field<T>>)
    ensures out == Panicked(TextPanic(TypeOptional.UnwrapText))
    ensures after == ResultLayout(TypeResult.Err(zero, NonNil(e)))
  {
    var unwrapped := TypeOptional.Unwrap(NonNil(TypeOptional.None(zero)));
    var cell := new StructCell(ResultLayout(TypeResult.Err(zero, NonNil(e))));
    out := CatchUnwrap(NonNil(unwrapped.reason), ToStruct(cell));
    after := cell.fields;
  }

  /** A panic carrying the Optional marker turns a pre-declared Some(v) result
      into an empty Optional that still holds v, and is swallowed. */
  method MarkedPanicEmptiesOptional<T>(v: T) returns (out: Outcome<()>, after: map<string, Field<T>>)
    ensures out == Returned(())
    ensures after == OptionalLayout(Optional(v, false))
  {
    var cell := new StructCell(OptionalLayout(TypeOptional.Some(v)));
    out := CatchUnwrap(NonNil(PointerPanic(false, true, false)), ToStruct(cell));
    after := cell.fields;
    SettersKeepTheValue(TypeOptional.Some(v), TypeResult.Ok(v), CatchError);
  }
}
