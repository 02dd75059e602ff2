# goutils in Dafny

A model of the core of goutils, a small Go utility library. Its main part is a
pair of generic containers in the style of Rust:

- `Optional[T]`: a value plus a `present` flag.
- `Result[T]`: a value plus an `error`.

Each container has a family of queries and unwrapping operations. Unwrapping a
missing value panics. The containers come in two packages:

- Package `Type` (`type/`) uses pointer receivers, apart from `MarshalJSON`
  and `Value`. `Expect`, `Unwrap` and `Scan` first assert (`assert.NotNil`)
  that their receiver is not nil. `UnmarshalJSON` neither asserts nor
  branches: it writes through the receiver at once, so a nil receiver panics
  with a nil dereference. The other methods branch on a nil receiver and
  treat it as absent or failed.
- Package `typeutils` uses value receivers.

Besides the containers, the core includes:

- free-function delegators over the containers' interfaces;
- the `database/sql` scanner and JSON codecs of `Result`;
- `CatchUnwrap`, a reflection-based recovery helper;
- the nil and boolean assertions of package `assert`;
- the route-group builder of `unstable/simplerouter`.

Modules:

- `Go` models the few Go notions that the library relies on:
  - nil pointers and interfaces (`Nilable`);
  - `error` (`MaybeError`);
  - panics as an outcome (`Outcome`, `PanicValue`);
  - `reflect.Kind`;
  - a heap cell for `*T`.

  The zero value of a type parameter `T` is passed explicitly as `zero`.
  Closures are functions that return an `Outcome`, so a closure that panics
  shows whether it was called.
- `Containers` defines the two struct layouts that both packages share.
- `TypeOptional`, `TypeResult` and `TypeUtils` model package `Type`.
  - `TypeResult.ResultVar` is the addressable `*Result[T]` that `Scan` and
    `UnmarshalJSON` write through.
  - `TypeUtils.CatchUnwrap` works on a reflected destination. The destination
    is a `StructCell` whose fields are reached by name, as `reflect` reaches
    them.
- `TypeScan` models `Result.Scan` over a dynamically typed database value
  (`Dyn`).
  - The `Scan…` methods update a `ResultVar` in place.
  - Each method is proved equal to a specification function: `Scanned`,
    `Builtin`, `StringSpecial` or `TimeSpecial`.
  - The lemmas state what a scan does for each kind of source.
- `ValueOptional`, `ValueResult` and `ValueUtils` model package `typeutils`.
- `Agreement` proves that the two packages agree on every non-nil receiver.
- `Assert` models package `assert`.
- `SimpleRouter` models `RouteGroup` and the `http.ServeMux` it registers
  routes on.
  - A handler is a term: an endpoint wrapped by a stack of middlewares.
  - `Run`/`Fold` give the order in which the middlewares take effect.
  - The counter test of the router's test file is reproduced as
    `MiddlewareOrderScenario`.

The model follows the code in these places, where it does not do what its
callers might expect:

- Scanning a database NULL returns nil but leaves the `Result` in error: the
  "unsupported type" error that `Scan` records first is never cleared
  (`TypeScan.NullSourceLeavesError`).
- `UnmarshalJSON` of the literal `null` gives `Ok` of the zero value, as the
  comment in type/result.go:312 says, not an empty or failed `Result`.
- `Value()` switches on the method value `res.Value` rather than on the stored
  value. It therefore reports "unsupported type" for every `Ok`, and returns
  `(nil, nil)` for every error.
- `Err(nil)` and `OkOr(nil)` produce an `Ok`. `OkOr(e).IsOk() == IsSome()` holds
  only for a non-nil `e` (`TypeOptional.OkOrReflectsPresence`).
- `CatchUnwrap` only catches panics whose value is a pointer implementing one of
  the two marker interfaces. `Unwrap` and `Expect` panic with plain strings, so
  their panics pass through `CatchUnwrap` unchanged
  (`TypeUtils.UnwrapPanicEscapesCatchUnwrap`).
- The interfaces of `typeutils` (typeutils/interfaces.go) name methods that its
  types do not have. `ValueContainer` asks for `Has_value`, which `Result` has
  as `HasValue`, while typeutils/utils.go:25 calls `HasValue`, which
  `Optional` has as `Has_value`. `Unwrappable` asks for `Unwrap_or`,
  `Unwrap_or_default` and `Unwrap_or_else`, which `Result` has as `UnwrapOr`,
  `UnwrapOrDefault` and `UnwrapOrElse`. `ResultI` asks for `Is_ok` and
  `Is_err`, which `Result` has as `IsOk` and `IsErr`. The package is modelled
  from its method bodies.
- The router's test calls `PushGlobalMiddleware`, which router.go does not
  define. The `global_middlewares` field is never read.

## Model

| member | source | states |
|---|---|---|
| TypeOptional.Some | type/optional.go:6-8 | Some(v) is present and holds v |
| TypeOptional.None | type/optional.go:10-12 | None is absent and holds the zero value |
| TypeOptional.NoneT | type/optional.go:15-17 | None_t ignores its argument and equals None |
| TypeOptional.IsSome | type/optional.go:21-26 | true exactly for a non-nil receiver whose flag is set; a nil receiver is not Some |
| TypeOptional.IsNone | type/optional.go:28-33 | true exactly for a nil receiver or a cleared flag |
| TypeOptional.HasValue | type/optional.go:35-40 | same truth as IsSome |
| TypeOptional.Expect | type/optional.go:43-49 | returns the value iff Some; otherwise panics with the caller's message, or with the not-nil assertion's message on a nil receiver |
| TypeOptional.Unwrap | type/optional.go:51-57 | returns the value iff Some; otherwise panics with the fixed unwrap message, or the assertion's message on nil |
| TypeOptional.UnwrapOr | type/optional.go:59-66 | the value when Some, else the given default (a nil receiver counts as absent) |
| TypeOptional.UnwrapOrDefault | type/optional.go:68-76 | the value when Some, else the zero value |
| TypeOptional.UnwrapOrElse | type/optional.go:78-85 | the value when Some; otherwise exactly f's outcome, so f runs only when absent |
| TypeOptional.OkOr | type/optional.go:90-98 | Some(v) becomes Ok(v), anything else Err(err) with the zero value |
| TypeOptional.OkOrElse | type/optional.go:101-108 | Some(v) becomes Ok(v); otherwise Err of f's error, and f's panic propagates |
| TypeOptional.ConstructorsAndQueries | type/optional.go:6-33 | Some is Some and unwraps to its value; None and None_t are None and equal |
| TypeOptional.QueriesAgree | type/optional.go:21-40 | IsNone is the negation of IsSome, HasValue equals IsSome, a nil receiver is None |
| TypeOptional.UnwrapFamilyAgrees | type/optional.go:43-85 | Unwrap is Expect with the fixed message; when it returns, UnwrapOr, UnwrapOrDefault and UnwrapOrElse return the same value; UnwrapOrDefault is UnwrapOr of zero |
| TypeOptional.OkOrReflectsPresence | type/optional.go:90-98 | OkOr(err) is Ok iff the Optional is Some or err is nil; with a non-nil err, iff Some |
| TypeOptional.OkOrElseIsLazyOkOr | type/optional.go:101-108 | OkOrElse equals OkOr of the error f returns, and needs no f when Some |
| TypeOptional.OkOrThenOkRoundTrip | type/optional.go:90-98 | for a non-nil err, Ok() after OkOr(err) gives back a Some unchanged and any absent Optional as None |
| TypeOptional.OkThenOkOrRoundTrip | type/result.go:122-129 | OkOr(err) after Ok() gives back every Ok, and Err(err) for every failed Result |
| TypeResult.Ok | type/result.go:16-18 | Ok(v) holds v with a nil error |
| TypeResult.Err | type/result.go:20-22 | Err(e) holds e with the zero value |
| TypeResult.ErrT | type/result.go:24-26 | Err_t ignores its value argument and equals Err |
| TypeResult.IsOk | type/result.go:30-35 | true exactly for a non-nil receiver with a nil error |
| TypeResult.IsErr | type/result.go:37-42 | true exactly for a nil receiver or a non-nil error |
| TypeResult.HasValue | type/result.go:44-49 | same truth as IsOk |
| TypeResult.Expect | type/result.go:52-58 | returns the value iff Ok; otherwise panics with the caller's message, or the assertion's message on nil |
| TypeResult.Unwrap | type/result.go:60-66 | returns the value iff Ok; otherwise panics with the fixed message |
| TypeResult.UnwrapOr | type/result.go:68-75 | the value when Ok, else the default |
| TypeResult.UnwrapOrDefault | type/result.go:77-85 | the value when Ok, else the zero value |
| TypeResult.UnwrapOrElse | type/result.go:87-94 | the value when Ok, else exactly f's outcome |
| TypeResult.ExpectErr | type/result.go:99-108 | panics with the message iff Ok; returns the stored error, or a fixed error for a nil receiver |
| TypeResult.UnwrapErr | type/result.go:111-119 | panics with the fixed message iff Ok; returns the stored error, or a fixed error for nil |
| TypeResult.OkOptional | type/result.go:122-129 | Ok() is present iff the Result is Ok, holding its value, else the zero value |
| TypeResult.ErrOptional | type/result.go:132-142 | Err() is present iff IsErr, holding the stored error or, for a nil receiver, a fixed non-nil error |
| TypeResult.MarshalJSON | type/result.go:298-306 | an error encodes as null; an Ok encodes its value, and the encoder's error becomes the result |
| TypeResult.Unmarshalled | type/result.go:308-322 | null gives Ok(zero); decodable data gives Ok of it; a decoding error is stored and returned, and the value is kept |
| TypeResult.ResultVar.constructor | type/result.go:16-26 | a Result variable holding the given Result |
| TypeResult.ResultVar.UnmarshalJSON | type/result.go:308-322 | the new Result and the returned error are those of Unmarshalled on the old Result |
| TypeResult.Value | type/result.go:324-354 | never returns a value; reports the unsupported-type error exactly for an Ok |
| TypeResult.MarshalUnmarshalRoundTrip | type/result.go:298-322 | for a round-tripping codec, decoding what MarshalJSON wrote gives back an Ok unchanged and turns an error into Ok(zero) |
| TypeResult.QueriesAgree | type/result.go:30-49 | IsErr is the negation of IsOk, HasValue equals IsOk, a nil receiver is an error |
| TypeResult.ConstructorsAndQueries | type/result.go:16-26 | Ok is Ok and unwraps to its value; Err(e) is an error iff e is non-nil; Err_t equals Err |
| TypeResult.ExpectAndExpectErrAreComplementary | type/result.go:52-119 | on every receiver exactly one of Expect and ExpectErr panics, and exactly one of Unwrap and UnwrapErr |
| TypeResult.UnwrapFamilyAgrees | type/result.go:52-94 | Unwrap is Expect with the fixed message; the fallbacks agree with Unwrap when it returns |
| TypeResult.OkAndErrPartition | type/result.go:122-142 | exactly one of Ok() and Err() is present; a nil receiver gives a present Err() |
| TypeUtils.HasValue | type/utils.go:30-32 | delegates to the container's HasValue; a nil interface panics with a nil dereference |
| TypeUtils.Expect | type/utils.go:9-11 | returns iff the container has a value, and is the container's own Expect |
| TypeUtils.Unwrap | type/utils.go:13-15 | returns iff the container has a value, and is the container's own Unwrap |
| TypeUtils.UnwrapOrDefault | type/utils.go:21-23 | the zero value when empty, Unwrap's value when not; panics only on a nil interface |
| TypeUtils.UnwrapOr | type/utils.go:17-19 | passes its own zero named result as the default, so it always equals UnwrapOrDefault |
| TypeUtils.UnwrapOrElse | type/utils.go:25-27 | f's outcome when empty, Unwrap's when not, a nil dereference on a nil interface |
| TypeUtils.ResultWrap | type/utils.go:34-39 | Ok(val) iff err is nil, otherwise Err(err) with the zero value |
| TypeUtils.ResultWrapb | type/utils.go:41-46 | the same Result as ResultWrap with the arguments swapped |
| TypeUtils.ResultWrapUnwraps | type/utils.go:34-39 | a wrapped nil error unwraps to the value; a wrapped error is what ExpectErr returns, and Unwrap panics |
| TypeUtils.Ptr | type/utils.go:48-50 | a fresh cell holding the value |
| TypeUtils.SetOptionalNone | type/utils.go:95-116 | panics iff the destination is not addressable; succeeds iff it points to a struct with a bool `present` field, which alone becomes false; nothing changes otherwise |
| TypeUtils.SetResultError | type/utils.go:118-139 | the same for an interface `err` field, which alone becomes the given error |
| TypeUtils.SettersKeepTheValue | type/utils.go:95-139 | on an Optional or Result layout the setters yield exactly the layout of the Optional made absent, or the Result made failed |
| TypeUtils.CatchUnwrap | type/utils.go:70-93 | no panic: nothing changes; a panic value that is not a non-nil pointer with a marker is re-raised unchanged; an optional marker empties a resettable Optional destination; a result marker stores the fixed "failed result" error; otherwise the panic is re-raised |
| TypeUtils.UnwrapPanicEscapesCatchUnwrap | type/utils.go:70-93 | the string panic of Unwrap on None passes through CatchUnwrap, and the fields of the Err destination are left exactly as they were |
| TypeUtils.MarkedPanicEmptiesOptional | type/utils.go:80-84 | a marked pointer panic turns the destination Optional(v) into the absent Optional(v) and is absorbed |
| TypeScan.TimeSpecial | type/result.go:246-296 | undecided exactly when T is not time.Time or *time.Time or the source is not []byte or *[]byte; otherwise the bytes are parsed: success stores the instant (through the pointer for *time.Time) with a nil error, failure stores and returns the parse error and keeps the value; a nil *[]byte, or a nil *time.Time after a successful parse, panics with a nil dereference |
| TypeScan.ScanTimeSpecial | type/result.go:246-296 | the new Result and outcome are those of TimeSpecial |
| TypeScan.StringSpecial | type/result.go:219-244 | undecided exactly when T is not string or *string or the source is not []byte or *[]byte; otherwise the string of the bytes is stored (through the pointer for *string) with a nil error; a nil *[]byte or nil *string panics with a nil dereference |
| TypeScan.ScanStringSpecial | type/result.go:219-244 | the new Result and outcome are those of StringSpecial |
| TypeScan.General | type/result.go:181-216 | when the types agree once one pointer level is stripped: a pointer T stores a pointer source as it is and wraps a value source in a new pointer, a non-pointer T stores a value source and dereferences a pointer source (a nil one panics with the reflect error), the error is cleared and the case is decided; any other source records and returns the mismatch error |
| TypeScan.Builtin | type/result.go:170-217 | the time rule, then the string rule, then the general rule, each deciding for the ones after it |
| TypeScan.ScanBuiltin | type/result.go:170-217 | the new Result and outcome are those of Builtin |
| TypeScan.Scanned | type/result.go:144-168 | a NULL leaves the unsupported-type error; a Scanner type decides alone; otherwise the error is cleared and scanBuiltin decides |
| TypeScan.Scan | type/result.go:144-168 | a nil receiver fails the not-nil assertion; otherwise the new Result and the returned error are those of Scanned |
| TypeScan.ScanPreservesType | type/result.go:144-217 | scanning never changes the dynamic type of the stored value |
| TypeScan.NullSourceLeavesError | type/result.go:148-152 | scanning NULL returns nil, leaves the Result in error and keeps the value |
| TypeScan.ScannerDecides | type/result.go:154-160 | for a Scanner type, Scan returns the delegate's error and is Ok iff that error is nil |
| TypeScan.SameTypeIsStored | type/result.go:181-192 | a source of T's own type is stored as it is, and the Result becomes Ok |
| TypeScan.BytesFillString | type/result.go:219-244 | []byte and *[]byte sources fill a string Result; a nil *[]byte panics |
| TypeScan.BytesFillTime | type/result.go:246-296 | a parsable timestamp fills a time.Time Result; a parse error is stored and returned |
| TypeScan.BytesPointerFillsTime | type/result.go:280-288 | through a *[]byte, a parsable timestamp fills a time.Time Result and a parse error is stored and returned; a nil *[]byte panics |
| TypeScan.BytesFillStringPointer | type/result.go:221-229 | a *string Result is written through with the string of the bytes; a nil *[]byte source or a nil *string target panics |
| TypeScan.BytesFillTimePointer | type/result.go:248-267 | a *time.Time Result is written through with the parsed instant; a parse failure is stored and returned even for a nil *time.Time, which panics only after a successful parse |
| TypeScan.MismatchIsRefused | type/result.go:194-198 | a source of another type (bytes for a numeric T included) records and returns the mismatch error and keeps the value |
| TypeScan.PointersAreAdapted | type/result.go:200-214 | *X fills X (nil *X panics); X fills *X through a new pointer |
| ValueOptional.IsSome | typeutils/optional.go:19 | true iff the flag is set |
| ValueOptional.IsNone | typeutils/optional.go:20 | true iff the flag is clear |
| ValueOptional.HasValue | typeutils/optional.go:22 | equals Is_some |
| ValueOptional.Expect | typeutils/optional.go:25-30 | the value iff Some, else the caller's panic message |
| ValueOptional.Unwrap | typeutils/optional.go:32-37 | the value iff Some, else the fixed panic message |
| ValueOptional.UnwrapOr | typeutils/optional.go:39-44 | the value when Some, else the default |
| ValueOptional.UnwrapOrDefault | typeutils/optional.go:46-52 | the value when Some, else the zero value |
| ValueOptional.UnwrapOrElse | typeutils/optional.go:54-59 | the value when Some, else exactly f's outcome |
| ValueOptional.OkOr | typeutils/optional.go:64-69 | Some(v) becomes Ok(v), None becomes Err(err) |
| ValueOptional.OkOrElse | typeutils/optional.go:72-77 | Some(v) becomes Ok(v); otherwise Err of f's error, and f's panic propagates |
| ValueOptional.OkOrRoundTrips | typeutils/optional.go:64-69 | for a non-nil err, Ok_or is Ok iff Some, Ok() inverts it, and Ok_or of Ok() gives back every Ok |
| ValueResult.IsOk | typeutils/result.go:18 | true iff the error is nil |
| ValueResult.IsErr | typeutils/result.go:19 | true iff the error is non-nil |
| ValueResult.HasValue | typeutils/result.go:21 | equals IsOk |
| ValueResult.Expect | typeutils/result.go:24-29 | the value iff Ok, else the caller's panic message |
| ValueResult.Unwrap | typeutils/result.go:31-36 | the value iff Ok, else the fixed panic message |
| ValueResult.UnwrapOr | typeutils/result.go:38-43 | the value when Ok, else the default |
| ValueResult.UnwrapOrDefault | typeutils/result.go:45-51 | the value when Ok, else the zero value |
| ValueResult.UnwrapOrElse | typeutils/result.go:53-58 | the value when Ok, else exactly f's outcome |
| ValueResult.ExpectErr | typeutils/result.go:63-68 | panics with the message iff Ok, else returns the stored error |
| ValueResult.UnwrapErr | typeutils/result.go:71-76 | panics with the fixed message iff Ok, else returns the stored error |
| ValueResult.OkOptional | typeutils/result.go:79-84 | present iff Ok, holding the value, else the zero value |
| ValueResult.ErrOptional | typeutils/result.go:87-92 | present iff an error, holding it |
| ValueResult.OkAndErrPartition | typeutils/result.go:18-92 | exactly one of Expect and ExpectErr panics, exactly one of Ok() and Err() is present, and the fallbacks agree with Unwrap |
| ValueUtils.HasValue | typeutils/utils.go:24-26 | delegates to the container; a nil interface panics |
| ValueUtils.Expect | typeutils/utils.go:3-5 | returns the container's value iff it has one; otherwise the caller's message |
| ValueUtils.Unwrap | typeutils/utils.go:7-9 | the container's own Unwrap |
| ValueUtils.UnwrapOrDefault | typeutils/utils.go:15-17 | the zero value when empty, Unwrap's value when not |
| ValueUtils.UnwrapOr | typeutils/utils.go:11-13 | always equals UnwrapOrDefault, as its default is its own zero result |
| ValueUtils.UnwrapOrElse | typeutils/utils.go:19-21 | f's outcome when empty, Unwrap's when not |
| Agreement.ResultsAgree | typeutils/result.go:18-92 | on a non-nil receiver every pointer-receiver Result method equals its value-receiver counterpart |
| Agreement.OptionalsAgree | typeutils/optional.go:19-77 | on a non-nil receiver every pointer-receiver Optional method equals its value-receiver counterpart |
| Agreement.DelegatorsAgree | typeutils/utils.go:3-26 | the free delegators of both packages agree on every interface value |
| Assert.IsNillable | assert/assert.go:26-34 | true exactly for pointer, chan, func, interface, map, slice and unsafe-pointer kinds |
| Assert.NotNil | assert/assert.go:36-52 | panics iff the value is an untyped nil or a nil of a nillable kind |
| Assert.Nil | assert/assert.go:54-74 | panics on every input, as written |
| Assert.NilIntended | assert/assert.go:54-74 | returns iff the value is a nil of a nillable kind |
| Assert.NilRejectsNilPointer | assert/assert.go:54-74 | on a nil pointer Nil panics where NilIntended returns |
| Assert.NotNilAndNilIntendedAreOpposite | assert/assert.go:36-74 | for nillable kinds exactly one of NotNil and NilIntended panics |
| Assert.NotNilPtr | assert/assert.go:76-82 | panics iff the pointer is nil |
| Assert.NilPtr | assert/assert.go:84-90 | panics iff the pointer is non-nil |
| Assert.Assert | assert/assert.go:92-98 | returns iff the condition holds |
| Assert.True | assert/assert.go:100-106 | returns iff the condition holds |
| Assert.AssertNot | assert/assert.go:108-114 | returns iff the condition fails |
| Assert.False | assert/assert.go:116-122 | returns iff the condition fails |
| Assert.Equal | assert/assert.go:124-130 | returns iff the values are equal |
| Assert.NotEqual | assert/assert.go:132-138 | returns iff the values differ |
| Assert.DualAssertions | assert/assert.go:76-138 | Assert equals True and AssertNot equals False; each dual pair panics on complementary inputs |
| SimpleRouter.Wrap | unstable/simplerouter/router.go:100-106 | no middleware leaves the handler as it is; otherwise the outermost layer is the first middleware |
| SimpleRouter.WrapAddsLayers | unstable/simplerouter/router.go:100-106 | wrapping puts the middlewares, first outermost, on top of the handler's layers and keeps its endpoint |
| SimpleRouter.Mux.constructor | unstable/simplerouter/router.go:74-76 | a mux with no routes |
| SimpleRouter.Mux.HandleFunc | unstable/simplerouter/router.go:117 | the route table gains (or replaces) exactly the given pattern |
| SimpleRouter.RoutePattern | unstable/simplerouter/router.go:108-115 | "METHOD base+path", except that path "/" drops the base path's trailing slash |
| SimpleRouter.SubPathPatternsNest | unstable/simplerouter/router.go:108-129 | a route under SubPath(p) has the pattern of p + "/" + q on the parent; "/" under it is the sub-path itself |
| SimpleRouter.RouteGroup.constructor | unstable/simplerouter/router.go:74-76 | a fresh mux, base path "/" and no middlewares |
| SimpleRouter.RouteGroup.Group | unstable/simplerouter/router.go:120-129 | a group over the given mux, base path and middlewares |
| SimpleRouter.RouteGroup.PushMiddleware | unstable/simplerouter/router.go:79-84 | the middlewares are appended in order and the group itself is returned |
| SimpleRouter.RouteGroup.PopMiddleware | unstable/simplerouter/router.go:87-97 | on an empty stack returns nil; otherwise removes and returns the last middleware |
| SimpleRouter.RouteGroup.ApplyMiddlewares | unstable/simplerouter/router.go:100-106 | the loop builds Wrap(middlewares, handler): first middleware outermost, endpoint kept |
| SimpleRouter.RouteGroup.RegisterRoute | unstable/simplerouter/router.go:108-118 | the mux gains the route pattern, bound to the handler wrapped in the current middlewares |
| SimpleRouter.RouteGroup.SubPath | unstable/simplerouter/router.go:120-129 | a fresh group on the same mux, with base path + path + "/" and a copy of the middlewares |
| SimpleRouter.RouteGroup.HandleFunc | unstable/simplerouter/router.go:131-133 | registers the route as RegisterRoute does |
| SimpleRouter.RouteGroup.Handle | unstable/simplerouter/router.go:135-137 | registers the route as RegisterRoute does |
| SimpleRouter.RouteGroup.SubpathHandle | unstable/simplerouter/router.go:139-141 | registers the route with an empty method |
| SimpleRouter.RouteGroup.GET | unstable/simplerouter/router.go:143-145 | registers the route under "GET" |
| SimpleRouter.RouteGroup.HEAD | unstable/simplerouter/router.go:147-149 | registers the route under "HEAD" |
| SimpleRouter.RouteGroup.OPTIONS | unstable/simplerouter/router.go:151-153 | registers the route under "OPTIONS" |
| SimpleRouter.RouteGroup.POST | unstable/simplerouter/router.go:155-157 | registers the route under "POST" |
| SimpleRouter.RouteGroup.PUT | unstable/simplerouter/router.go:159-161 | registers the route under "PUT" |
| SimpleRouter.RouteGroup.PATCH | unstable/simplerouter/router.go:163-165 | registers the route under "PATCH" |
| SimpleRouter.RouteGroup.DELETE | unstable/simplerouter/router.go:167-169 | registers the route under "DELETE" |
| SimpleRouter.RunFollowsStack | unstable/simplerouter/router.go:100-106 | serving a wrapped endpoint applies the middlewares' effects in stack order |
| SimpleRouter.CounterFolds | unstable/simplerouter/router_test.go:52-109 | the counter middlewares give 2, 1 and 6 for the three stacks of the test |
| SimpleRouter.ServeNewRoute | unstable/simplerouter/router_test.go:52-109 | GET /name is registered with the current stack, and serving it yields the stack's fold |
| SimpleRouter.MiddlewareOrderScenario | unstable/simplerouter/router_test.go:52-109 | the test's three routes count 2, 1 and 6, and a route registered earlier keeps its count after the stack changes |
| SimpleRouter.SubPathScenario | unstable/simplerouter/router.go:120-133 | middleware pushed on a sub-group stays out of the parent's stack, and its route is registered on the shared mux under the nested pattern |

## Left out

- The logger packages (logger/) and the test helpers (testing/, main_test.go) are not part of this model.
- `RouteGroup.StartServer`, `StartWithGracefulShutdown`, `ServeHTTP` and `Handler` (unstable/simplerouter/router.go:13-71) are left out. They are network, signal and timer plumbing around `http.Server`.
- Request dispatch by `http.ServeMux` is not modelled. Only route registration is, as a map from pattern to handler.
- SimpleRouter.Mux.HandleFunc: the panics of `http.ServeMux` on an invalid or conflicting pattern are not modelled.
- `PushGlobalMiddleware` does not exist in router.go, and `global_middlewares` is never read, so neither is modelled.
- `recover`, `reflect` and `unsafe` are modelled by their effects only:
  - `CatchUnwrap` receives the recovered value as a parameter.
  - The panic's marker interfaces are fields of `PointerPanic`.
- Destinations that `CatchUnwrap` reaches through an interface are not modelled.
- `encoding/json` and `time.Parse` are parameters: an encoder and decoder for `T`, and the parse function in `Env`.
- A `sql.Scanner` implementation is a delegate function. Its side effects on the receiver are not modelled.
- `Optional.Scan` is not part of this model.
- TypeScan.Scan: a write through a `*string` or `*time.Time` stored in the Result is modelled as a new pointer value. Aliasing with other holders of that pointer is not captured.
- The cases of the type switch in `Value()` are not modelled individually. The switch is over the method value `res.Value`, which only the default case matches. The `driver.Valuer`, basic-type, pointer and `fmt.Stringer` cases are therefore unreachable.
- T being an interface type is not modelled.
- A nil `*Optional` or `*Result` held in a `typeutils` interface is not modelled. The modelled `typeutils` interface holds containers by value.
- TypeResult.ResultVar.UnmarshalJSON: the nil-receiver panic (type/result.go:308-310) is not modelled, because a `ResultVar` is never null.
- Assert.NotNil: each panic message is modelled as one fixed text (`NotNilText` for a nil value). The decoration is not modelled: the colour codes, the file, function and line from `runtime.Caller`, and the formatted value.

## Findings

| source | as written | input that shows it | evidently intended | confidence | as-written member | corrected member |
|---|---|---|---|---|---|---|
| assert/assert.go:54-74 | `Nil` panics after its nil checks on every path, so it panics even when the value is nil | a nil pointer, e.g. `(*int)(nil)` | `Nil` returns when the value is nil (of a nillable kind) and panics otherwise, the dual of `NotNil` | medium, not executed; assert/assert_test.go:29-46 expects the panic | Assert.Nil, Assert.NilRejectsNilPointer | Assert.NilIntended, Assert.NotNilAndNilIntendedAreOpposite |
