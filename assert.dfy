/** The panic-based assertion helpers (package Assert). Each helper either
    returns or panics; the panic text is kept without the colour codes and the
    caller's file, function and line that the source adds to it. */
module Assert {
  import opened Go

  /** What reflect.ValueOf(v) reports about an argument v: its kind, and for a
      nillable kind whether it is nil. An untyped nil argument has kind Invalid. */
  datatype Inspected = Inspected(kind: Kind, isNil: bool)

  const NotNilInvalidText := "Value should not be nil!(It is reflect.Invalid)"
  const NotNilText := "Value should not be nil!"
  const NilInvalidText := "Value should be nil!(It is reflect.Invalid)"
  const NilText := "Value should be nil!"
  const NotNilPtrText := "Pointer value should not be nil!"
  const NilPtrText := "Pointer value should be nil!"
  const TrueText := "Assert (true) failed"
  const FalseText := "Assert (false) failed"
  const EqualText := "Assert equals failed"
  const NotEqualText := "Assert not equals failed"

  /** The kinds whose values can be nil. */
  function IsNillable(kind: Kind): (b: bool)
    ensures b <==> kind in {Pointer, Chan, Func, Interface, Map, Slice, UnsafePointer}
    ensures kind == Invalid ==> !b
  {
    match kind
    case Pointer => true
    case Chan => true
    case Func => true
    case Interface => true
    case Map => true
    case Slice => true
    case UnsafePointer => true
    case _ => false
  }

  /** Panics when the argument is an untyped nil or a nil value of a nillable kind. */
  function NotNil(v: Inspected): (r: Outcome<()>)
    ensures r.Panicked? <==> v.kind == Invalid || (IsNillable(v.kind) && v.isNil)
    ensures r.Panicked? ==> r.reason.TextPanic?
  {
    if v.kind == Invalid then Panicked(TextPanic(NotNilInvalidText))
    else if IsNillable(v.kind) && v.isNil then Panicked(TextPanic(NotNilText))
    else Returned(())
  }

  /** Nil as written: the last panic is reached whenever the earlier ones are
      not, so it panics for every argument, a nil pointer included. */
  function Nil(v: Inspected): (r: Outcome<()>)
    ensures r.Panicked?
    ensures v.kind != Invalid ==> r.reason == TextPanic(NilText)
  {
    if v.kind == Invalid then Panicked(TextPanic(NilInvalidText))
    else if IsNillable(v.kind) && !v.isNil then Panicked(TextPanic(NilText))
    else Panicked(TextPanic(NilText))
  }

  /** Nil as its comments describe it: returns exactly for a nil value of a
      nillable kind, and panics for untyped nil and for every other value. */
  function NilIntended(v: Inspected): (r: Outcome<()>)
    ensures r.Returned? <==> IsNillable(v.kind) && v.isNil
  {
    if v.kind == Invalid then Panicked(TextPanic(NilInvalidText))
    else if IsNillable(v.kind) && v.isNil then Returned(())
    else Panicked(TextPanic(NilText))
  }

  /** The discrepancy: Nil rejects a nil pointer, which NilIntended accepts. */
  lemma NilRejectsNilPointer()
    ensures Nil(Inspected(Pointer, true)).Panicked?
    ensures NilIntended(Inspected(Pointer, true)) == Returned(())
  {
  }

  /** For a typed argument of a nillable kind, exactly one of NotNil and
      NilIntended panics; Nil breaks this for every nil value. */
  lemma NotNilAndNilIntendedAreOpposite(v: Inspected)
    requires IsNillable(v.kind)
    ensures NotNil(v).Panicked? != NilIntended(v).Panicked?
    ensures v.isNil ==> Nil(v).Panicked? && NilIntended(v).Returned?
  {
  }

  /** assert.NotNil applied to a pointer receiver, the guard that the
      pointer-receiver Expect, Unwrap and Scan run first. */
  function ReceiverCheck<T>(recv: Nilable<T>): (r: Outcome<()>)
    ensures r.Panicked? <==> recv.Nil?
    ensures r.Panicked? ==> r.reason == TextPanic(NotNilText)
  {
    NotNil(Inspected(Pointer, recv.Nil?))
  }

  function NotNilPtr<T>(p: Nilable<T>): (r: Outcome<()>)
    ensures r.Panicked? <==> p.Nil?
  {
    if p.Nil? then Panicked(TextPanic(NotNilPtrText)) else Returned(())
  }

  function NilPtr<T>(p: Nilable<T>): (r: Outcome<()>)
    ensures r.Panicked? <==> p.NonNil?
  {
    if p.NonNil? then Panicked(TextPanic(NilPtrText)) else Returned(())
  }

  function Assert(v: bool): (r: Outcome<()>)
    ensures r.Returned? <==> v
  {
    if !v then Panicked(TextPanic(TrueText)) else Returned(())
  }

  function True(v: bool): (r: Outcome<()>)
    ensures r.Returned? <==> v
  {
    if !v then Panicked(TextPanic(TrueText)) else Returned(())
  }

  function AssertNot(v: bool): (r: Outcome<()>)
    ensures r.Returned? <==> !v
  {
    if v then Panicked(TextPanic(FalseText)) else Returned(())
  }

  function False(v: bool): (r: Outcome<()>)
    ensures r.Returned? <==> !v
  {
    if v then Panicked(TextPanic(FalseText)) else Returned(())
  }

  function Equal<T(==)>(v: T, v2: T): (r: Outcome<()>)
    ensures r.Returned? <==> v == v2
  {
    if v != v2 then Panicked(TextPanic(EqualText)) else Returned(())
  }

  function NotEqual<T(==)>(v: T, v2: T): (r: Outcome<()>)
    ensures r.Returned? <==> v != v2
  {
    if v == v2 then Panicked(TextPanic(NotEqualText)) else Returned(())
  }

  /** The pairs of helpers are each other's duals: for every argument exactly
      one of each pair panics, and the aliases behave identically. */
  lemma DualAssertions<T>(b: bool, p: Nilable<T>, x: T, y: T)
    ensures Assert(b) == True(b) && AssertNot(b) == False(b)
    ensures Assert(b).Panicked? != AssertNot(b).Panicked?
    ensures NotNilPtr(p).Panicked? != NilPtr(p).Panicked?
    ensures Equal(x, y).Panicked? != NotEqual(x, y).Panicked?
  {
  }
}
