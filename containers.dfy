/** The two containers of the library, as the structs that hold them. Both
    packages of the library (the pointer-receiver one and the value-receiver one)
    lay them out the same way, so both are modelled over these datatypes. */
module Containers {
  import opened Go

  /** An optional value: `value` is meaningful only while `present` holds. */
  datatype Optional<T> = Optional(value: T, present: bool)

  /** An outcome: `value` is meaningful only while `err` is nil. A nil `err`
      makes the Result an Ok, whichever constructor built it. */
  datatype Result<T> = Result(value: T, err: MaybeError)
}
