/** The parts of Go's semantics the library leans on: nil, error values,
    reflection kinds, panics, bytes and heap-allocated variables. */
module Go {

  /** Go's `byte`. */
  newtype byte = x: int | 0 <= x < 256

  /** A value that may be nil: a pointer, or an interface value such as `error`. */
  datatype Nilable<+T> = Nil | NonNil(target: T)

  /** A non-nil `error` value, identified by the text its Error method returns. */
  datatype Error = Error(text: string)

  /** An `error`-typed variable or field, which may hold nil. */
  type MaybeError = Nilable<Error>

  /** reflect.Kind, in the order Go declares it. */
  datatype Kind =
    | Invalid | Bool | Int | Int8 | Int16 | Int32 | Int64
    | Uint | Uint8 | Uint16 | Uint32 | Uint64 | Uintptr
    | Float32 | Float64 | Complex64 | Complex128
    | Array | Chan | Func | Interface | Map | Pointer | Slice | String | Struct | UnsafePointer

  /** The value a goroutine panics with, as far as `recover` and reflection can tell it apart. */
  datatype PanicValue =
    | TextPanic(text: string)                 // panic(s) with a string s
    | RuntimeErrorPanic(text: string)         // a run-time error such as a nil dereference
    | PointerPanic(isNil: bool, optionalMarker: bool, resultMarker: bool)
    // PointerPanic: a pointer value; the two flags say whether its type implements
    // the library's marker interfaces for a failed Optional or a failed Result

  /** reflect.ValueOf(p).Kind(): strings and the runtime's error strings are of kind String. */
  function KindOf(p: PanicValue): (k: Kind)
    ensures k == Pointer <==> p.PointerPanic?
  {
    match p
    case TextPanic(_) => String
    case RuntimeErrorPanic(_) => String
    case PointerPanic(_, _, _) => Pointer
  }

  /** What dereferencing a nil pointer (or calling a method on a nil interface) panics with. */
  const NilDereference: PanicValue := RuntimeErrorPanic("invalid memory address or nil pointer dereference")

  /** What the reflect package panics with when a Value is used at the wrong kind: a *reflect.ValueError. */
  const ReflectValueError: PanicValue := PointerPanic(false, false, false)

  /** The result of a call that either returns or panics. */
  datatype Outcome<+T> = Returned(value: T) | Panicked(reason: PanicValue)

  /** The result of a foreign codec or parser: a value or an error. */
  datatype Fallible<+T> = Success(value: T) | Failure(error: Error)

  /** A heap-allocated variable, the target of a Go pointer `*T`. */
  class Cell<T> {
    var val: T

    constructor (v: T)
      ensures val == v
    {
      val := v;
    }
  }
}
