/** Result[T].Scan, the database/sql Scanner of package Type, with its helpers
    scanBuiltin, scanStringSpecial and scanTimeSpecial. Go's `interface{}`
    values and the type T are modelled by `Dyn` and `Type`; the parsing of
    RFC 3339 timestamps and the Scan methods of types that implement
    sql.Scanner are parameters. Each helper is a method that updates a
    `ResultVar<Dyn>` step by step, proved against a function that states the
    state it leaves and the outcome it produces. */
module TypeScan {
  import opened Go
  import opened Containers
  import Assert
  import TypeOptional
  import TypeResult

  /** A Go type: a named (non-pointer) type or a pointer to a type. */
  datatype Type = Named(name: string) | PointerTo(elem: Type)

  const StringType := Named("string")
  const BytesType := Named("[]uint8")
  const TimeType := Named("time.Time")

  /** A dynamically typed Go value. `Other` is a value of any other non-pointer
      type, identified by its name; `Ptr` is a pointer, nil or not. */
  datatype Dyn =
    | Str(s: seq<byte>)
    | Bytes(b: seq<byte>)
    | Time(instant: int)
    | Other(typ: string, payload: int)
    | Ptr(elem: Type, target: Nilable<Dyn>)

  function TypeOf(d: Dyn): (t: Type)
    ensures t.PointerTo? <==> d.Ptr?
  {
    match d
    case Str(_) => StringType
    case Bytes(_) => BytesType
    case Time(_) => TimeType
    case Other(typ, _) => Named(typ)
    case Ptr(elem, _) => PointerTo(elem)
  }

  /** A value of type T is well typed: an `Other` does not use the name of a
      type modelled on its own, and a non-nil pointer points at a value of its
      element type. */
  predicate WellTyped(d: Dyn)
  {
    match d
    case Other(typ, _) => typ !in {"string", "[]uint8", "time.Time"}
    case Ptr(elem, target) => target.NonNil? ==> TypeOf(target.target) == elem && WellTyped(target.target)
    case _ => true
  }

  /** What %T prints for a type. */
  function TypeName(t: Type): (s: string)
    ensures t.PointerTo? ==> s == "*" + TypeName(t.elem)
  {
    match t
    case Named(n) => n
    case PointerTo(e) => "*" + TypeName(e)
  }

  /** What %T prints for an interface{} value: "<nil>" for a nil interface. */
  function SourceName(src: Nilable<Dyn>): (s: string)
    ensures src.NonNil? ==> s == TypeName(TypeOf(src.target))
  {
    if src.Nil? then "<nil>" else TypeName(TypeOf(src.target))
  }

  /** A type with one pointer level removed. */
  function Strip(t: Type): (e: Type)
    ensures e == if t.PointerTo? then t.elem else t
  {
    if t.PointerTo? then t.elem else t
  }

  /** The error Scan records before it tries anything. */
  function UnsupportedError(src: Nilable<Dyn>, value: Dyn): (e: Error)
    ensures e.text == "Unsupported type " + SourceName(src) + " or differs from Result[" + TypeName(TypeOf(value))
                      + "], and the type doesn't implement sql.Scanner!"
  {
    Error("Unsupported type " + SourceName(src) + " or differs from Result[" + TypeName(TypeOf(value))
          + "], and the type doesn't implement sql.Scanner!")
  }

  /** The error scanBuiltin records when the element types differ. */
  function MismatchError(value: Dyn, src: Dyn): (e: Error)
    ensures e.text == "Result[" + TypeName(TypeOf(value)) + "] (aka " + TypeName(TypeOf(value))
                      + ") differs from " + TypeName(TypeOf(src)) + "!"
  {
    Error("Result[" + TypeName(TypeOf(value)) + "] (aka " + TypeName(TypeOf(value))
          + ") differs from " + TypeName(TypeOf(src)) + "!")
  }

  /** What Scan cannot see: which types implement sql.Scanner, what their Scan
      method reports for a source, and time.Parse with the RFC 3339 layout. */
  datatype Env = Env(
    scanners: set<Type>,
    delegate: (Dyn, Dyn) -> MaybeError,
    parseTime: seq<byte> -> Fallible<int>)

  /** The state a helper leaves the Result in, and what it returned or the
      panic it raised (the state is then the one at the panic). */
  datatype Effect<R> = Effect(state: Result<Dyn>, out: Outcome<R>)

  /** The sources the special cases convert: a []byte or a *[]byte. */
  predicate IsByteSource(src: Dyn)
  {
    src.Bytes? || (src.Ptr? && src.elem == BytesType)
  }

  /** The bytes of a byte source; dereferencing a nil *[]byte panics. */
  function ReadBytes(src: Dyn): (r: Outcome<seq<byte>>)
    requires WellTyped(src) && IsByteSource(src)
    ensures r.Panicked? <==> src.Ptr? && src.target.Nil?
    ensures r.Panicked? ==> r.reason == NilDereference
    ensures src.Bytes? ==> r == Returned(src.b)
    ensures src.Ptr? && src.target.NonNil? ==> src.target.target.Bytes? && r == Returned(src.target.target.b)
  {
    if src.Bytes? then Returned(src.b)
    else if src.target.Nil? then Panicked(NilDereference)
    else
      assert WellTyped(src.target.target);
      Returned(src.target.target.b)
  }

  /** A time.Time or *time.Time value. */
  predicate IsTime(v: Dyn)
  {
    v.Time? || (v.Ptr? && v.elem == TimeType)
  }

  /** A string or *string value. */
  predicate IsString(v: Dyn)
  {
    v.Str? || (v.Ptr? && v.elem == StringType)
  }

  const Decided: Optional<MaybeError> := TypeOptional.Some(Nil)
  const Undecided: Optional<MaybeError> := TypeOptional.None(Nil)

  // scanTimeSpecial

  /** scanTimeSpecial: a time.Time or *time.Time Result takes a byte source
      parsed as an RFC 3339 timestamp; a pointer Result is written through. A
      parse failure is recorded and returned. Any other combination is left
      to the next case. */
  function TimeSpecial(prior: Result<Dyn>, src: Dyn, env: Env): (r: Effect<Optional<MaybeError>>)
    requires WellTyped(src)
    ensures r.out == Returned(Undecided) ==> r.state == prior
    ensures r.out.Returned? && r.out.value.present ==> TypeOf(r.state.value) == TypeOf(prior.value)
    ensures r.out.Panicked? ==> r.state == prior
    ensures r.out.Returned? && r.out.value.present ==> r.out.value.value == r.state.err
    ensures r.out.Returned? && r.out.value.present && r.state.err.NonNil? ==> r.state.value == prior.value
    ensures r.out == Returned(Undecided) <==> !(IsTime(prior.value) && IsByteSource(src))
    ensures r.out.Panicked? <==>
              IsTime(prior.value) && IsByteSource(src)
              && (ReadBytes(src).Panicked?
                  || (env.parseTime(ReadBytes(src).value).Success? && prior.value.Ptr? && prior.value.target.Nil?))
    ensures r.out.Panicked? ==> r.out.reason == NilDereference
    ensures r.out.Returned? && r.out.value.present && r.state.err.NonNil? ==>
              IsByteSource(src) && ReadBytes(src).Returned? && env.parseTime(ReadBytes(src).value).Failure?
              && r.state.err == NonNil(env.parseTime(ReadBytes(src).value).error)
    ensures r.out == Returned(Decided) ==>
              IsByteSource(src) && ReadBytes(src).Returned? && env.parseTime(ReadBytes(src).value).Success?
              && r.state == Result(if prior.value.Time? then Time(env.parseTime(ReadBytes(src).value).value)
                                   else Ptr(TimeType, NonNil(Time(env.parseTime(ReadBytes(src).value).value))), Nil)
  {
    var v := prior.value;
    if IsTime(v) && IsByteSource(src) then
      match ReadBytes(src)
      case Panicked(p) => Effect(prior, Panicked(p))
      case Returned(b) =>
        match env.parseTime(b)
        case Failure(err) => Effect(prior.(err := NonNil(err)), Returned(TypeOptional.Some(NonNil(err))))
        case Success(t) =>
          if v.Time? then Effect(Result(Time(t), Nil), Returned(Decided))
          else if v.target.Nil? then Effect(prior, Panicked(NilDereference))
          else Effect(Result(Ptr(TimeType, NonNil(Time(t))), Nil), Returned(Decided))
    else Effect(prior, Returned(Undecided))
  }

  method ScanTimeSpecial(res: TypeResult.ResultVar<Dyn>, src: Dyn, env: Env) returns (out: Outcome<Optional<MaybeError>>)
    requires WellTyped(src)
    modifies res
    ensures Effect(res.Get(), out) == TimeSpecial(old(res.Get()), src, env)
  {
    var v := res.value;
    if IsTime(v) && IsByteSource(src) {
      var bytes := ReadBytes(src);
      if bytes.Panicked? {
        return Panicked(bytes.reason);
      }
      var parsed := env.parseTime(bytes.value);
      if parsed.Failure? {
        res.err := NonNil(parsed.error);
        return Returned(TypeOptional.Some(NonNil(parsed.error)));
      }
      if v.Time? {
        res.value := Time(parsed.value);
      } else if v.target.Nil? {
        return Panicked(NilDereference);
      } else {
        res.value := Ptr(TimeType, NonNil(Time(parsed.value)));
      }
      res.err := Nil;
      return Returned(Decided);
    }
    return Returned(Undecided);
  }

  // scanStringSpecial

  /** scanStringSpecial: a string or *string Result takes the bytes of a byte
      source as its string; a pointer Result is written through. */
  function StringSpecial(prior: Result<Dyn>, src: Dyn): (r: Effect<Optional<MaybeError>>)
    requires WellTyped(src)
    ensures r.out == Returned(Undecided) ==> r.state == prior
    ensures r.out.Returned? ==> r.out.value in {Decided, Undecided}
    ensures r.out == Returned(Decided) ==> r.state.err.Nil? && TypeOf(r.state.value) == TypeOf(prior.value)
    ensures r.out.Panicked? ==> r.state == prior
    ensures r.out == Returned(Undecided) <==> !(IsString(prior.value) && IsByteSource(src))
    ensures r.out.Panicked? <==>
              IsString(prior.value) && IsByteSource(src)
              && (ReadBytes(src).Panicked? || (prior.value.Ptr? && prior.value.target.Nil?))
    ensures r.out.Panicked? ==> r.out.reason == NilDereference
    ensures r.out == Returned(Decided) ==>
              IsByteSource(src) && ReadBytes(src).Returned?
              && r.state == Result(if prior.value.Str? then Str(ReadBytes(src).value)
                                   else Ptr(StringType, NonNil(Str(ReadBytes(src).value))), Nil)
  {
    var v := prior.value;
    if IsString(v) && IsByteSource(src) then
      match ReadBytes(src)
      case Panicked(p) => Effect(prior, Panicked(p))
      case Returned(b) =>
        if v.Str? then Effect(Result(Str(b), Nil), Returned(Decided))
        else if v.target.Nil? then Effect(prior, Panicked(NilDereference))
        else Effect(Result(Ptr(StringType, NonNil(Str(b))), Nil), Returned(Decided))
    else Effect(prior, Returned(Undecided))
  }

  method ScanStringSpecial(res: TypeResult.ResultVar<Dyn>, src: Dyn) returns (out: Outcome<Optional<MaybeError>>)
    requires WellTyped(src)
    modifies res
    ensures Effect(res.Get(), out) == StringSpecial(old(res.Get()), src)
  {
    var v := res.value;
    if IsString(v) && IsByteSource(src) {
      var bytes := ReadBytes(src);
      if bytes.Panicked? {
        return Panicked(bytes.reason);
      }
      if v.Str? {
        res.value := Str(bytes.value);
      } else if v.target.Nil? {
        return Panicked(NilDereference);
      } else {
        res.value := Ptr(StringType, NonNil(Str(bytes.value)));
      }
      res.err := Nil;
      return Returned(Decided);
    }
    return Returned(Undecided);
  }

  // scanBuiltin

  /** The general path of scanBuiltin: the types must agree once one pointer
      level is stripped from each; the source is then stored as it is, behind
      a fresh pointer, or dereferenced, to fit T. */
  function General(prior: Result<Dyn>, src: Dyn): (r: Effect<Optional<MaybeError>>)
    ensures r.out.Returned? ==> r.out.value.present && r.out.value.value == r.state.err
    ensures r.out.Panicked? <==> Strip(TypeOf(src)) == Strip(TypeOf(prior.value))
                                 && !prior.value.Ptr? && src.Ptr? && src.target.Nil?
    ensures r.out.Panicked? ==> r.state == prior && r.out.reason == ReflectValueError
    ensures Strip(TypeOf(src)) != Strip(TypeOf(prior.value)) ==>
              r == Effect(prior.(err := NonNil(MismatchError(prior.value, src))),
                          Returned(TypeOptional.Some(NonNil(MismatchError(prior.value, src)))))
    ensures Strip(TypeOf(src)) == Strip(TypeOf(prior.value)) && r.out.Returned? ==>
              r.out.value == Decided
              && r.state == Result(if prior.value.Ptr? then (if src.Ptr? then src else Ptr(Strip(TypeOf(src)), NonNil(src)))
                                   else (if src.Ptr? then src.target.target else src), Nil)
  {
    var v := prior.value;
    var optType := TypeOf(v);
    var optElemType := Strip(optType);
    var srcElemType := Strip(TypeOf(src));
    if srcElemType != optElemType then
      var e := MismatchError(v, src);
      Effect(prior.(err := NonNil(e)), Returned(TypeOptional.Some(NonNil(e))))
    else if optType.PointerTo? then
      if src.Ptr? then Effect(Result(src, Nil), Returned(Decided))
      else Effect(Result(Ptr(optElemType, NonNil(src)), Nil), Returned(Decided))
    else if src.Ptr? then
      if src.target.Nil? then Effect(prior, Panicked(ReflectValueError))
      else Effect(Result(src.target.target, Nil), Returned(Decided))
    else Effect(Result(src, Nil), Returned(Decided))
  }

  /** scanBuiltin: clears the error, then tries the time case, the string case
      and the general path, in that order. */
  function Builtin(prior: Result<Dyn>, src: Dyn, env: Env): (r: Effect<Optional<MaybeError>>)
    requires WellTyped(src)
    ensures r.out.Returned? ==> r.out.value.present && r.out.value.value == r.state.err
    ensures r.out.Returned? && r.state.err.NonNil? ==> r.state.value == prior.value
  {
    var cleared := prior.(err := Nil);
    var time := TimeSpecial(cleared, src, env);
    if time.out.Panicked? || time.out.value.present then time
    else
      var str := StringSpecial(time.state, src);
      if str.out.Panicked? || str.out.value.present then str
      else General(str.state, src)
  }

  method ScanBuiltin(res: TypeResult.ResultVar<Dyn>, src: Dyn, env: Env) returns (out: Outcome<Optional<MaybeError>>)
    requires WellTyped(src)
    modifies res
    ensures Effect(res.Get(), out) == Builtin(old(res.Get()), src, env)
  {
    res.err := Nil;
    var time := ScanTimeSpecial(res, src, env);
    if time.Panicked? || time.value.present {
      return time;
    }
    var str := ScanStringSpecial(res, src);
    if str.Panicked? || str.value.present {
      return str;
    }
    var v := res.value;
    var optType := TypeOf(v);
    var optElemType := optType;
    if optElemType.PointerTo? {
      optElemType := optElemType.elem;
    }
    var srcElemType := TypeOf(src);
    if srcElemType.PointerTo? {
      srcElemType := srcElemType.elem;
    }
    if srcElemType != optElemType {
      var e := MismatchError(v, src);
      res.err := NonNil(e);
      return Returned(TypeOptional.Some(NonNil(e)));
    }
    if optType.PointerTo? {
      if src.Ptr? {
        res.value := src;
      } else {
        res.value := Ptr(optElemType, NonNil(src));
      }
    } else {
      if src.Ptr? {
        if src.target.Nil? {
          return Panicked(ReflectValueError);
        }
        res.value := src.target.target;
      } else {
        res.value := src;
      }
    }
    res.err := Nil;
    return Returned(Decided);
  }

  // Scan

  /** Scan on a non-nil receiver. The Result is first put in error with the
      "unsupported type" error; a nil source leaves it so and returns nil. A
      type that implements sql.Scanner decides alone: its error is returned
      (and the Result stays in error), or the Result becomes Ok with its value
      as that Scan left it. Otherwise scanBuiltin decides, and its verdict is
      always present (Builtin's contract), so the fallback error on Scan's
      last line is never returned. */
  function Scanned(prior: Result<Dyn>, src: Nilable<Dyn>, env: Env): (r: Effect<MaybeError>)
    requires src.NonNil? ==> WellTyped(src.target)
    ensures src.Nil? ==> r == Effect(prior.(err := NonNil(UnsupportedError(src, prior.value))), Returned(Nil))
    ensures src.NonNil? && r.out.Returned? ==> (r.out.value.Nil? <==> r.state.err.Nil?)
    ensures r.out.Returned? && r.out.value.NonNil? ==> r.state.value == prior.value
  {
    var e := UnsupportedError(src, prior.value);
    var marked := prior.(err := NonNil(e));
    if src.Nil? then Effect(marked, Returned(Nil))
    else if TypeOf(prior.value) in env.scanners then
      var err := env.delegate(prior.value, src.target);
      if err.NonNil? then Effect(marked, Returned(err))
      else Effect(marked.(err := Nil), Returned(Nil))
    else
      var scanres := Builtin(marked, src.target, env);
      match scanres.out
      case Panicked(p) => Effect(scanres.state, Panicked(p))
      case Returned(o) =>
        if TypeOptional.IsSome(NonNil(o)) then Effect(scanres.state, Returned(o.value))
        else Effect(scanres.state, Returned(NonNil(e)))
  }

  /** Scan: a nil receiver panics in Assert.NotNil. */
  method Scan(res: TypeResult.ResultVar?<Dyn>, src: Nilable<Dyn>, env: Env) returns (out: Outcome<MaybeError>)
    requires src.NonNil? ==> WellTyped(src.target)
    modifies res
    ensures res == null ==> out == Panicked(TextPanic(Assert.NotNilText))
    ensures res != null ==> Effect(res.Get(), out) == Scanned(old(res.Get()), src, env)
  {
    var check := Assert.NotNil(Assert.Inspected(Pointer, res == null));
    if check.Panicked? {
      return Panicked(check.reason);
    }
    var e := UnsupportedError(src, res.value);
    res.err := NonNil(e);
    if src.Nil? {
      return Returned(Nil);
    }
    if TypeOf(res.value) in env.scanners {
      var err := env.delegate(res.value, src.target);
      if err.NonNil? {
        return Returned(err);
      }
      res.err := Nil;
      return Returned(Nil);
    }
    var scanres := ScanBuiltin(res, src.target, env);
    if scanres.Panicked? {
      return Panicked(scanres.reason);
    }
    if TypeOptional.IsSome(NonNil(scanres.value)) {
      var u := TypeOptional.Unwrap(NonNil(scanres.value));
      return Returned(u.value);
    }
    return Returned(NonNil(e));
  }

  // Properties of Scan

  /** Scanning never changes the type of the value, and keeps it well typed. */
  lemma ScanPreservesType(prior: Result<Dyn>, src: Nilable<Dyn>, env: Env)
    requires WellTyped(prior.value)
    requires src.NonNil? ==> WellTyped(src.target)
    ensures TypeOf(Scanned(prior, src, env).state.value) == TypeOf(prior.value)
    ensures WellTyped(Scanned(prior, src, env).state.value)
  {
    if src.NonNil? && TypeOf(prior.value) !in env.scanners {
      var s := src.target;
      var marked := prior.(err := NonNil(UnsupportedError(src, prior.value)));
      var cleared := marked.(err := Nil);
      var time := TimeSpecial(cleared, s, env);
      if !(time.out.Panicked? || time.out.value.present) {
        var str := StringSpecial(time.state, s);
        if !(str.out.Panicked? || str.out.value.present) {
          GeneralPreservesType(str.state, s);
        }
      }
    }
  }

  lemma GeneralPreservesType(prior: Result<Dyn>, src: Dyn)
    requires WellTyped(prior.value) && WellTyped(src)
    ensures TypeOf(General(prior, src).state.value) == TypeOf(prior.value)
    ensures WellTyped(General(prior, src).state.value)
  {
    if src.Ptr? && src.target.NonNil? {
      assert TypeOf(src.target.target) == src.elem;
    }
  }

  /** A database NULL: Scan returns nil but leaves the Result in error, with
      its value untouched. */
  lemma NullSourceLeavesError(prior: Result<Dyn>, env: Env)
    ensures Scanned(prior, Nil, env).out == Returned(Nil)
    ensures TypeResult.IsErr(NonNil(Scanned(prior, Nil, env).state))
    ensures Scanned(prior, Nil, env).state.value == prior.value
  {
  }

  /** A type that implements sql.Scanner decides alone: its error is returned
      and the Result stays in error, or the Result becomes Ok. */
  lemma ScannerDecides(prior: Result<Dyn>, src: Dyn, env: Env)
    requires WellTyped(src) && TypeOf(prior.value) in env.scanners
    ensures Scanned(prior, NonNil(src), env).out == Returned(env.delegate(prior.value, src))
    ensures Scanned(prior, NonNil(src), env).state.value == prior.value
    ensures TypeResult.IsOk(NonNil(Scanned(prior, NonNil(src), env).state)) <==> env.delegate(prior.value, src).Nil?
  {
  }

  /** A source of exactly T's type is stored as it is. */
  lemma SameTypeIsStored(prior: Result<Dyn>, src: Dyn, env: Env)
    requires WellTyped(src) && TypeOf(src) == TypeOf(prior.value) && TypeOf(prior.value) !in env.scanners
    ensures Scanned(prior, NonNil(src), env) == Effect(Result(src, Nil), Returned(Nil))
  {
    var marked := prior.(err := NonNil(UnsupportedError(NonNil(src), prior.value)));
    var cleared := marked.(err := Nil);
    assert !IsByteSource(src) || TypeOf(src) !in {TimeType, PointerTo(TimeType), StringType, PointerTo(StringType)};
    assert TimeSpecial(cleared, src, env).out == Returned(Undecided);
    assert StringSpecial(cleared, src).out == Returned(Undecided);
  }

  /** Bytes from the database fill a string Result, directly or through a
      *[]byte; a nil *[]byte panics. */
  lemma BytesFillString(prior: Result<Dyn>, b: seq<byte>, env: Env)
    requires WellTyped(prior.value) && TypeOf(prior.value) == StringType && StringType !in env.scanners
    ensures Scanned(prior, NonNil(Bytes(b)), env) == Effect(Result(Str(b), Nil), Returned(Nil))
    ensures Scanned(prior, NonNil(Ptr(BytesType, NonNil(Bytes(b)))), env) == Effect(Result(Str(b), Nil), Returned(Nil))
    ensures Scanned(prior, NonNil(Ptr(BytesType, Nil)), env).out == Panicked(NilDereference)
  {
  }

  /** A timestamp from the database fills a time.Time Result when it parses,
      and otherwise the parse error is both recorded and returned. */
  lemma BytesFillTime(prior: Result<Dyn>, b: seq<byte>, env: Env)
    requires WellTyped(prior.value) && TypeOf(prior.value) == TimeType && TimeType !in env.scanners
    ensures env.parseTime(b).Success? ==>
              Scanned(prior, NonNil(Bytes(b)), env) == Effect(Result(Time(env.parseTime(b).value), Nil), Returned(Nil))
    ensures env.parseTime(b).Failure? ==>
              Scanned(prior, NonNil(Bytes(b)), env)
              == Effect(prior.(err := NonNil(env.parseTime(b).error)), Returned(NonNil(env.parseTime(b).error)))
  {
  }

  /** A *string Result is written through: a byte source fills the string it
      points at. A nil *[]byte source panics before the target is touched, and
      a nil *string target panics. */
  lemma BytesFillStringPointer(prior: Result<Dyn>, src: Dyn, env: Env)
    requires WellTyped(src) && IsByteSource(src)
    requires prior.value.Ptr? && prior.value.elem == StringType && PointerTo(StringType) !in env.scanners
    ensures ReadBytes(src).Returned? && prior.value.target.NonNil? ==>
              Scanned(prior, NonNil(src), env)
              == Effect(Result(Ptr(StringType, NonNil(Str(ReadBytes(src).value))), Nil), Returned(Nil))
    ensures ReadBytes(src).Panicked? || prior.value.target.Nil? ==>
              Scanned(prior, NonNil(src), env).out == Panicked(NilDereference)
  {
  }

  /** A time.Time Result also takes its timestamp through a *[]byte, and a nil
      *[]byte panics. */
  lemma BytesPointerFillsTime(prior: Result<Dyn>, b: seq<byte>, env: Env)
    requires WellTyped(prior.value) && TypeOf(prior.value) == TimeType && TimeType !in env.scanners
    ensures env.parseTime(b).Success? ==>
              Scanned(prior, NonNil(Ptr(BytesType, NonNil(Bytes(b)))), env)
              == Effect(Result(Time(env.parseTime(b).value), Nil), Returned(Nil))
    ensures env.parseTime(b).Failure? ==>
              Scanned(prior, NonNil(Ptr(BytesType, NonNil(Bytes(b)))), env)
              == Effect(prior.(err := NonNil(env.parseTime(b).error)), Returned(NonNil(env.parseTime(b).error)))
    ensures Scanned(prior, NonNil(Ptr(BytesType, Nil)), env).out == Panicked(NilDereference)
  {
    var src := Ptr(BytesType, NonNil(Bytes(b)));
    assert WellTyped(src) && ReadBytes(src) == Returned(b);
    assert prior.value.Time? && IsTime(prior.value);
    var marked := prior.(err := NonNil(UnsupportedError(NonNil(src), prior.value)));
    var cleared := marked.(err := Nil);
    assert TimeSpecial(cleared, src, env).out != Returned(Undecided);
    var nilSrc := Ptr(BytesType, Nil);
    assert WellTyped(nilSrc) && ReadBytes(nilSrc).Panicked?;
  }

  /** A *time.Time Result is written through. The timestamp is parsed before
      the target is used: a parse failure is recorded and returned even for a
      nil *time.Time, which panics only after a successful parse. */
  lemma BytesFillTimePointer(prior: Result<Dyn>, src: Dyn, env: Env)
    requires WellTyped(src) && IsByteSource(src)
    requires prior.value.Ptr? && prior.value.elem == TimeType && PointerTo(TimeType) !in env.scanners
    ensures ReadBytes(src).Panicked? ==> Scanned(prior, NonNil(src), env).out == Panicked(NilDereference)
    ensures ReadBytes(src).Returned? && env.parseTime(ReadBytes(src).value).Failure? ==>
              Scanned(prior, NonNil(src), env)
              == Effect(prior.(err := NonNil(env.parseTime(ReadBytes(src).value).error)),
                        Returned(NonNil(env.parseTime(ReadBytes(src).value).error)))
    ensures ReadBytes(src).Returned? && env.parseTime(ReadBytes(src).value).Success? && prior.value.target.NonNil? ==>
              Scanned(prior, NonNil(src), env)
              == Effect(Result(Ptr(TimeType, NonNil(Time(env.parseTime(ReadBytes(src).value).value))), Nil), Returned(Nil))
    ensures ReadBytes(src).Returned? && env.parseTime(ReadBytes(src).value).Success? && prior.value.target.Nil? ==>
              Scanned(prior, NonNil(src), env).out == Panicked(NilDereference)
  {
  }

  /** A source of a different type, pointers aside, is refused unless it is
      bytes for a time or string Result: the mismatch error is recorded and
      returned, and the value is kept. Bytes for a numeric Result are refused. */
  lemma MismatchIsRefused(prior: Result<Dyn>, src: Dyn, env: Env)
    requires WellTyped(src) && TypeOf(prior.value) !in env.scanners
    requires Strip(TypeOf(src)) != Strip(TypeOf(prior.value))
    requires IsByteSource(src) ==> !IsTime(prior.value) && !IsString(prior.value)
    ensures Scanned(prior, NonNil(src), env)
            == Effect(prior.(err := NonNil(MismatchError(prior.value, src))),
                      Returned(NonNil(MismatchError(prior.value, src))))
  {
  }

  /** Pointers are taken or made to fit T: a *X source fills an X Result with
      what it points at (and a nil one panics in reflection), and an X source
      fills a *X Result through a fresh pointer. */
  lemma PointersAreAdapted(prior: Result<Dyn>, d: Dyn, env: Env)
    requires WellTyped(d) && !d.Ptr? && !IsByteSource(d) && TypeOf(d) != TimeType
    requires TypeOf(prior.value) !in env.scanners && TypeOf(prior.value) !in {StringType, TimeType}
    ensures TypeOf(prior.value) == TypeOf(d) ==>
              Scanned(prior, NonNil(Ptr(TypeOf(d), NonNil(d))), env) == Effect(Result(d, Nil), Returned(Nil))
    ensures TypeOf(prior.value) == TypeOf(d) ==>
              Scanned(prior, NonNil(Ptr(TypeOf(d), Nil)), env).out == Panicked(ReflectValueError)
    ensures TypeOf(prior.value) == PointerTo(TypeOf(d)) ==>
              Scanned(prior, NonNil(d), env) == Effect(Result(Ptr(TypeOf(d), NonNil(d)), Nil), Returned(Nil))
  {
  }
}
