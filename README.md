# helpme core, modelled in Dafny

`helpme` is a Go utility library. This project models its core pieces and
proves properties about them:

- **haconfig**: a configuration loader. `New` applies functional options
  (an environment prefix, a YAML file, a field-to-variable mapping). `Load`
  rejects a nil target and anything that is not a pointer to a struct. It
  optionally decodes a YAML file, then walks the struct: each exported field
  is overridden from an environment variable named after the field.
  - Nested structs are walked with a snake-case prefix.
  - A pointer to a struct is allocated only when some variable below it is
    set.
  - Leaves are coerced from text. Supported kinds are string, bool, the
    signed integer kinds (int, int8, int16, int32, int64), `time.Duration`,
    the unsigned integer kinds (uint, uint8, uint16, uint32, uint64),
    float32 and float64, slices split on commas, pointers and `time.Time`.
    The model has four integer widths, 8, 16, 32 and 64 bits, for each
    sign; `int` and `uint` are taken to be 64 bits wide.
  - `Validate` walks the struct and reports the first `required:"true"`
    field whose value is zero, by its dotted path.
- **wrapper**: request and response wrappers for data access.
  - `SortBy` and `Pagination` each have constructors and `Validate`.
  - `Pagination` also has `HasNext` and `NextPage`.
  - `Filter` and `Projection` have constructors.
  - `QueryWrapper` / `CommandWrapper` have fluent builders.
  - `Page` has a fluent builder too.
- **option**, **result**: Rust-style `Option[T]` and `Result[T]` with their
  combinators.
- **goerr**: an error wrapper that carries a "runtime" flag.
- **o4g_logger/colored_formatter**: a logrus formatter. It writes one
  Spring-Boot-style line per entry, with these columns:
  - timestamp;
  - level, padded to 5;
  - pid;
  - `---`;
  - `[goroutine-N]`, padded to 15;
  - logger name, padded to 40;
  - message;
  - the fields in braces;
  - an optional `[file:line]` caller suffix.

  The line is either plain or decorated with ANSI SGR colour codes.
  The logger name is chosen in this order:
  - the `component` field;
  - then `module`;
  - then `service`;
  - then the caller's package;
  - then the service name.

How the model is built:

- Go reflection is replaced by a small type/value language
  (`HaconfigTypes.Type`, `Value`, `Field`).
- The environment is a map; an absent variable reads as `""`.
- A pointer to a struct handed to `Load` is a `Box` object whose field
  values `Load` reassigns.
- The loops and the objects the Go code updates in place are modelled as:
  - the `Config` class and its methods;
  - the builders, which are classes;
  - `CollectParts`, `FormatPlain` and `FormatColored`.
- Each such method is proved equal to a specification function. The
  properties the library promises are then proved about those functions.

The modules, and the source file each models:

| module | models |
|---|---|
| `GoOption` | option/option.go |
| `GoResult` | result/result.go |
| `GoErr` | goerr/goerr.go |
| `GoStrings` | the pieces of Go's `strings` package used by the core |
| `GoStrconv` | `strconv.ParseBool`, `ParseInt`, `ParseUint` |
| `HaconfigTypes` | reflection kinds, zero values, `isZeroValue` |
| `HaconfigNames` | `toSnakeCase`, `buildPrefix`, `getEnvName`, `buildFieldPath` |
| `HaconfigCoerce` | `setFieldValue`, `setSliceValue` |
| `HaconfigWalk` | `processStruct`, `hasAnyEnvVar`, `setFieldFromEnv` |
| `HaconfigValidate` | `validateStruct` |
| `Haconfig` | `Config`, its options, `Load` and the package-level helpers |
| `Wrapper` | wrapper/wrapper.go |
| `O4gFormatter` | o4g_logger/colored_formatter.go |

## Model

| member | source | states |
|---|---|---|
| `GoOption.Option.IsSome` | option/option.go:17-19 | IsSome holds exactly for Some |
| `GoOption.Option.IsNone` | option/option.go:21-23 | IsNone holds exactly for None |
| `GoOption.Option.Unwrap` | option/option.go:25-30 | is callable only on Some (Go panics on None); returns the held value |
| `GoOption.Option.Expect` | option/option.go:32-37 | is callable only on Some; returns the held value |
| `GoOption.Option.GetOrElse` | option/option.go:39-44 | returns the held value on Some, the default on None |
| `GoOption.Option.GetOrElseFunc` | option/option.go:46-51 | returns the held value on Some, the supplier's value on None |
| `GoOption.Option.Map` | option/option.go:53-58 | Some exactly when the input is Some, holding f of the value (the generic Map at line 138 behaves alike) |
| `GoOption.Option.AndThen` | option/option.go:60-65 | None stays None; Some(v) becomes f(v) (also the generic AndThen at line 145) |
| `GoOption.Option.Or` | option/option.go:67-72 | the receiver if Some, else the alternative |
| `GoOption.Option.And` | option/option.go:74-79 | None if the receiver is None, else the other option |
| `GoOption.Option.Filter` | option/option.go:81-86 | Some exactly when Some and the predicate holds; then unchanged |
| `GoOption.Option.Contains` | option/option.go:88-93 | false on None; on Some, whether the equality holds with the value |
| `GoOption.Option.Exists` | option/option.go:95-97 | holds iff Some and the predicate holds |
| `GoOption.Option.ForAll` | option/option.go:99-101 | holds iff None or the predicate holds |
| `GoOption.Option.ToSlice` | option/option.go:103-108 | one-element slice on Some, empty on None |
| `GoOption.Option.Flatten` | option/option.go:117-122 | returns the receiver unchanged |
| `GoOption.Option.Replace` | option/option.go:124-129 | same shape as the receiver, holding the new value |
| `GoOption.Option.Take` | option/option.go:131-136 | returns the receiver unchanged (a value receiver cannot be emptied) |
| `GoOption.SomeUnwraps` | option/option.go:9-30 | Some(v) is Some, not None, and unwraps to v |
| `GoOption.SomeNoneExclusive` | option/option.go:17-23 | IsSome and IsNone are complementary |
| `GoOption.MapFunctorLaws` | option/option.go:53-58 | mapping the identity changes nothing; two maps compose |
| `GoOption.AndThenMonadLaws` | option/option.go:60-65 | AndThen satisfies left identity, right identity and associativity |
| `GoOption.FilterExistsForAll` | option/option.go:81-101 | Filter is idempotent; Exists is Filter non-empty; ForAll is not Exists of the negation |
| `GoOption.ToSliceLength` | option/option.go:103-108 | ToSlice has at most one element, exactly one on Some |
| `GoResult.Result.IsOk` | result/result.go:17-19 | IsOk holds exactly for Ok |
| `GoResult.Result.IsErr` | result/result.go:21-23 | IsErr holds exactly for Err |
| `GoResult.Result.Unwrap` | result/result.go:25-30 | is callable only on Ok; returns the value |
| `GoResult.Result.UnwrapErr` | result/result.go:32-37 | is callable only on Err; returns the error |
| `GoResult.Result.Expect` | result/result.go:39-44 | is callable only on Ok; returns the value |
| `GoResult.Result.ExpectErr` | result/result.go:46-51 | is callable only on Err; returns the error |
| `GoResult.Result.GetOrElse` | result/result.go:53-58 | the value on Ok, the default on Err |
| `GoResult.Result.GetOrElseFunc` | result/result.go:60-65 | the value on Ok, the supplier's value on Err |
| `GoResult.Result.Map` | result/result.go:67-72 | Ok exactly when Ok, holding f of the value; an error is kept |
| `GoResult.Result.MapErr` | result/result.go:74-79 | Ok unchanged; an error is replaced by f's error, or Ok(zero) when f yields nil |
| `GoResult.Result.AndThen` | result/result.go:81-86 | Ok(v) becomes f(v); an error is kept |
| `GoResult.Result.Or` | result/result.go:88-93 | the receiver if Ok, else the alternative |
| `GoResult.Result.And` | result/result.go:95-100 | the receiver if Err, else the other result |
| `GoResult.Result.Filter` | result/result.go:102-107 | an error or a passing value is kept; a failing value becomes the given error |
| `GoResult.ErrOf` | result/result.go:12-15 | Err exactly when the error is non-nil; Err(nil) is Ok(zero) |
| `GoResult.ConstructorsAgree` | result/result.go:8-37 | Ok(v) unwraps to v; Err(e) unwraps to e; Err(nil) is Ok |
| `GoResult.OkErrExclusive` | result/result.go:17-23 | IsOk and IsErr are complementary |
| `GoResult.MapAndThenLaws` | result/result.go:67-121 | functor laws for Map, monad laws for AndThen |
| `GoResult.FilterKeepsError` | result/result.go:102-107 | Filter keeps an existing error and is idempotent |
| `GoErr.Message` | goerr/goerr.go:23-25 | is defined only for an error chain that ends in a message; a plain error's message is its text |
| `GoErr.NewGoErr` | goerr/goerr.go:8-13 | a GoErr with the given runtime flag that unwraps to the inner error |
| `GoErr.WrapRuntimeErr` | goerr/goerr.go:27-29 | a GoErr, runtime, unwrapping to the wrapped error |
| `GoErr.WrapNonRuntimeErr` | goerr/goerr.go:31-33 | a GoErr, not runtime, unwrapping to the wrapped error |
| `GoErr.IsRuntime` | goerr/goerr.go:15-17 | the flag; `GoErr.NewGoErr` states that it is the flag the error was made with |
| `GoErr.Unwrap` | goerr/goerr.go:19-21 | the embedded error; `GoErr.NewGoErr` states that it is the one the error was made with |
| `GoErr.IsGoErr` | goerr/goerr.go:35-38 | the type assertion; `GoErr.UnwrapAndIsGoErr` states its answers |
| `GoErr.WrapKeepsMessage` | goerr/goerr.go:23-33 | wrapping keeps the message, whichever flag is chosen |
| `GoErr.NestedWrapKeepsMessage` | goerr/goerr.go:23-33 | any depth of wrapping keeps the innermost message |
| `GoErr.UnwrapAndIsGoErr` | goerr/goerr.go:15-38 | both wrappers unwrap to their argument and are GoErrs; nil and plain errors are not |
| `GoStrings.ToUpper` | o4g_logger/colored_formatter.go:125 | same length; every ASCII lower-case letter upper-cased, every other character kept |
| `GoStrings.ToLower` | haconfig/config.go:235 | same length; every ASCII capital lower-cased, every other character kept |
| `GoStrings.Split` | haconfig/config.go:331 | at least one piece |
| `GoStrings.Join` | o4g_logger/colored_formatter.go:257 | its pieces and separators; `GoStrings.JoinSplit` states that it undoes Split |
| `GoStrings.SplitLength` | haconfig/config.go:331 | one more piece than separators |
| `GoStrings.SplitPiecesFree` | haconfig/config.go:331 | no piece contains the separator |
| `GoStrings.JoinSplit` | haconfig/config.go:331 | joining the pieces with the separator gives the input back |
| `GoStrings.SplitFirst` | o4g_logger/colored_formatter.go:223-225 | the first piece is the text before the first separator |
| `GoStrings.LastPieceIsSuffix` | o4g_logger/colored_formatter.go:107-108 | the last piece has no separator and is the suffix after the last one |
| `GoStrings.TrimSpaceSpec` | haconfig/config.go:335 | TrimSpace is the slice between the leading and the trailing white space |
| `GoStrings.TrimSpaceEnds` | haconfig/config.go:335 | a non-empty result starts and ends with a non-space |
| `GoStrings.TrimSpace` | haconfig/config.go:335 | strings.TrimSpace; `GoStrings.TrimSpaceSpec` states what it keeps |
| `GoStrings.PadLeft` | o4g_logger/colored_formatter.go:86 | width max(len, w), the text right-aligned after spaces |
| `GoStrings.PadRight` | o4g_logger/colored_formatter.go:140 | width max(len, w), the text left-aligned before spaces |
| `GoStrconv.ParseBool` | haconfig/config.go:255-258 | true, false or an error exactly for Go's accepted literal sets |
| `GoStrconv.ParseFormatBool` | haconfig/config.go:255-258 | parsing a formatted bool gives it back |
| `GoStrconv.ParseUint` | haconfig/config.go:278-281 | succeeds iff the text is non-empty decimal digits below 2^64; the value is the decimal value |
| `GoStrconv.ParseInt` | haconfig/config.go:271-274 | succeeds iff, after one optional sign, the text is non-empty decimal digits within [-2^63, 2^63 - 1]; the value is the signed decimal value |
| `GoStrconv.ParseUintOfDecimal` | haconfig/config.go:278-281 | every uint64 round-trips through its decimal text |
| `GoStrconv.ParseIntOfDecimal` | haconfig/config.go:271-274 | every int64 round-trips through its decimal text |
| `GoStrconv.ParseIntSign` | haconfig/config.go:271-274 | a lone sign fails; a leading '+' is accepted |
| `GoStrconv.ParseIntExamples` | haconfig/config.go:271-274 | "+007" is 7, "-0" is 0, "12a" fails |
| `GoStrconv.ParseIntRange` | haconfig/config.go:271-274 | a printed number is accepted up to 2^63 - 1, with a minus sign up to 2^63 |
| `GoStrconv.DecimalValueSnoc` | haconfig/config.go:271-274 | one more digit multiplies the value by ten and adds the digit |
| `GoStrconv.WrapSigned` | haconfig/config.go:275 | SetInt's truncation: fits the width, agrees modulo 2^bits, identity when it fits |
| `GoStrconv.WrapUnsigned` | haconfig/config.go:282 | SetUint's truncation: below 2^bits, agrees modulo 2^bits, identity when it fits |
| `HaconfigTypes.SignedLimit` | haconfig/config.go:261 | the signed range bound of each integer width is at least 128 |
| `HaconfigTypes.UnsignedLimit` | haconfig/config.go:277 | the unsigned bound is twice the signed bound |
| `HaconfigTypes.Zero` | haconfig/config.go:295-296 | the zero value has the shape of its type |
| `HaconfigTypes.StructVals` | haconfig/config.go:115-116 | a struct value's field values, one per field |
| `HaconfigTypes.ZeroIsZero` | haconfig/config.go:411-430 | isZeroValue holds on every zero value except the kinds it answers false for |
| `HaconfigTypes.AllocatedIsNotZero` | haconfig/config.go:423-424 | an empty but allocated slice and an allocated pointer are not zero |
| `HaconfigTypes.ScalarZero` | haconfig/config.go:413-420 | on scalars isZeroValue holds exactly for the zero value |
| `HaconfigTypes.IsZeroValue` | haconfig/config.go:411-430 | isZeroValue by kind; `HaconfigTypes.ZeroIsZero`, `ScalarZero`, `AllocatedIsNotZero` and `StructMembers` state its answers |
| `HaconfigTypes.EqualsZero` | haconfig/config.go:425-426 | the == of a struct with its zero value, member by member; `HaconfigTypes.ZeroEqualsZero` states that zero values pass it |
| `HaconfigTypes.ZeroEqualsZero` | haconfig/config.go:425-426 | every zero value compares equal to itself, member by member |
| `HaconfigTypes.StructMembers` | haconfig/config.go:425-426 | a struct holding -0.0 is zero; a struct holding a non-zero array is not, though an array alone is never zero |
| `HaconfigNames.LowerUpperPassIsInsertion` | haconfig/config.go:228-229 | the first rewrite inserts '_' exactly between a lower/digit and an upper |
| `HaconfigNames.AcronymPassIsInsertion` | haconfig/config.go:232-233 | the second rewrite inserts '_' exactly before the last capital of a run followed by a lower |
| `HaconfigNames.LowerUpperPass` | haconfig/config.go:228-229 | the first rewrite; `HaconfigNames.LowerUpperPassIsInsertion` states what it inserts |
| `HaconfigNames.AcronymPass` | haconfig/config.go:232-233 | the second rewrite; `HaconfigNames.AcronymPassIsInsertion` states what it inserts |
| `HaconfigNames.UpperRunSpec` | haconfig/config.go:232 | an upper run is maximal: capitals up to it, no capital after |
| `HaconfigNames.ToSnakeCase` | haconfig/config.go:222-236 | the empty name stays empty; the result has no capitals |
| `HaconfigNames.ToSnakeCaseIsInsertion` | haconfig/config.go:222-236 | toSnakeCase is both insertions followed by lower-casing |
| `HaconfigNames.LowerUpperPassNoUpper` | haconfig/config.go:228-229 | the first rewrite leaves capital-free text unchanged |
| `HaconfigNames.AcronymPassNoUpper` | haconfig/config.go:232-233 | the second rewrite leaves capital-free text unchanged |
| `HaconfigNames.ToLowerNoUpper` | haconfig/config.go:235 | lower-casing leaves capital-free text unchanged |
| `HaconfigNames.ToSnakeCaseIdempotent` | haconfig/config.go:222-236 | snake-casing twice equals snake-casing once |
| `HaconfigNames.ToSnakeCaseEmpty` | haconfig/config.go:222-236 | the result is empty iff the name is |
| `HaconfigNames.Underscored` | haconfig/config.go:201-207 | an empty prefix adds nothing, otherwise prefix + "_" |
| `HaconfigNames.BuildPrefix` | haconfig/config.go:213-219 | the snake-cased field name, after the current prefix and '_' when there is one |
| `HaconfigNames.EnvName` | haconfig/config.go:198-210 | upper-cased env prefix + nested prefix; no lower-case letter is left |
| `HaconfigNames.BuildFieldPath` | haconfig/config.go:433-438 | the name alone at top level, else prefix + "." + name |
| `HaconfigNames.PrefixOfIsJoin` | haconfig/config.go:213-219 | the prefix of a nesting path is its snake-cased names joined by '_' |
| `HaconfigNames.FieldPathOfIsJoin` | haconfig/config.go:433-438 | the validation path of a nesting is its names joined by '.' |
| `HaconfigCoerce.TimeLayouts` | haconfig/config.go:301-309 | RFC 3339 first, then the three fallback layouts |
| `HaconfigCoerce.ParseFallbackIsFirst` | haconfig/config.go:310-317 | the fallback loop succeeds iff some remaining layout parses, with the first such layout's value |
| `HaconfigCoerce.ParseTimeIsFirst` | haconfig/config.go:301-319 | a time parses iff some layout does, and the value comes from the first one that does |
| `HaconfigCoerce.Elements` | haconfig/config.go:333-336 | one coerced element per part |
| `HaconfigCoerce.GatherOk` | haconfig/config.go:334-343 | the element loop succeeds iff every element does |
| `HaconfigCoerce.GatherValues` | haconfig/config.go:334-343 | on success the slice holds the elements in order |
| `HaconfigCoerce.FirstFailure` | haconfig/config.go:337-339 | the index of the first failing element: all before it succeed |
| `HaconfigCoerce.GatherErr` | haconfig/config.go:337-339 | on failure the error names the first failing index and its cause |
| `HaconfigCoerce.SetValueMatches` | haconfig/config.go:249-327 | setting a field keeps a value of the field's type |
| `HaconfigCoerce.SliceMatches` | haconfig/config.go:330-344 | a slice field stays a slice of its element type |
| `HaconfigCoerce.SetValue` | haconfig/config.go:249-327 | a failed coercion leaves the field unchanged, except a pointer, which stays allocated |
| `HaconfigCoerce.UnsupportedAndStructs` | haconfig/config.go:300-324 | unsupported kinds fail with the kind's name; structs other than time.Time are left untouched without error |
| `HaconfigCoerce.StringAndBool` | haconfig/config.go:251-259 | a string is set verbatim; a bool succeeds exactly on Go's literals, with their value |
| `HaconfigCoerce.IntegerRoundTrip` | haconfig/config.go:261-282 | int64 and uint64 fields round-trip their decimal text; a duration succeeds iff it parses |
| `HaconfigCoerce.IntegerTruncation` | haconfig/config.go:271-275 | a parsed int is stored truncated to the field width (congruent, in range) |
| `HaconfigCoerce.ParseFailures` | haconfig/config.go:254-282 | an int, uint or bool field fails exactly when its parser does, with the error carrying the text, and keeps its value |
| `HaconfigCoerce.SliceSpec` | haconfig/config.go:330-344 | one element per comma-separated part, each trimmed; on failure the old value stays and the first bad index is reported |
| `HaconfigCoerce.GatherSpec` | haconfig/config.go:334-343 | the element loop yields every value in order, or the first failure |
| `HaconfigCoerce.SliceOutcome` | haconfig/config.go:330-344 | the slice is replaced only when every element succeeded |
| `HaconfigCoerce.ElementsSpec` | haconfig/config.go:333-336 | element k is part k trimmed and coerced into a zero element |
| `HaconfigCoerce.PointerSpec` | haconfig/config.go:294-298 | a nil pointer is allocated with a zero target, then the target is set |
| `HaconfigWalk.AnyEnvVarIsSomeLeaf` | haconfig/config.go:168-195 | hasAnyEnvVar holds iff some leaf's resolved variable below the struct is non-empty |
| `HaconfigWalk.AnyEnvVar` | haconfig/config.go:168-195 | hasAnyEnvVar; `HaconfigWalk.AnyEnvVarIsSomeLeaf` states when it holds |
| `HaconfigWalk.LeafStep` | haconfig/config.go:239-247 | setFieldFromEnv; `HaconfigWalk.LeafRule` states its outcome |
| `HaconfigWalk.StepField` | haconfig/config.go:128-161 | one field of processStruct; `HaconfigWalk.StepMatches`, `PointerAllocation` and `QuietStep` state its outcome |
| `HaconfigWalk.Turns` | haconfig/config.go:115-162 | one step outcome per field |
| `HaconfigWalk.Apply` | haconfig/config.go:115-164 | the walk keeps one value per field |
| `HaconfigWalk.ProcessFields` | haconfig/config.go:114-165 | processStruct keeps one value per field |
| `HaconfigWalk.ApplyKeepsEarlier` | haconfig/config.go:115-162 | fields before the current one are not touched again |
| `HaconfigWalk.ApplySuccess` | haconfig/config.go:115-164 | on success every field holds its step's value |
| `HaconfigWalk.FirstFailure` | haconfig/config.go:157-159 | the index of the first failing field: all before it succeed |
| `HaconfigWalk.ApplyFailure` | haconfig/config.go:157-159 | on failure the walk stops at the first failing field: earlier fields updated, later ones untouched, that error returned |
| `HaconfigWalk.ApplyQuiet` | haconfig/config.go:115-164 | steps that change nothing leave the struct unchanged |
| `HaconfigWalk.ApplyMatches` | haconfig/config.go:115-164 | well-typed steps keep a well-typed struct |
| `HaconfigWalk.QuietEnvChangesNothing` | haconfig/config.go:114-165 | with every variable unset or empty the struct is unchanged and no error is raised |
| `HaconfigWalk.QuietStep` | haconfig/config.go:128-161 | with an empty environment no field step changes anything |
| `HaconfigWalk.ProcessFieldsMatches` | haconfig/config.go:114-165 | the walk keeps a well-typed struct well-typed |
| `HaconfigWalk.StepMatches` | haconfig/config.go:128-161 | a field step keeps the field's type |
| `HaconfigWalk.PointerAllocation` | haconfig/config.go:136-149 | a struct pointer ends up allocated iff it was or some variable below it is set; then its target is walked with the nested prefix |
| `HaconfigWalk.TimePointerUntouched` | haconfig/config.go:137-149 | a *time.Time field is never touched by the walk |
| `HaconfigWalk.LeafIsSetFromEnv` | haconfig/config.go:151-161 | every field that is neither a struct nor a struct pointer goes through setFieldFromEnv |
| `HaconfigWalk.LeafRule` | haconfig/config.go:151-161 | an unset variable keeps the value; a set one is coerced, and a failure names the field |
| `HaconfigWalk.MappingReplacesName` | haconfig/config.go:153-156 | a mapped field's variable is the mapping, whatever the nesting and the prefix |
| `HaconfigValidate.MissingIsFirstViolation` | haconfig/config.go:377-408 | validateStruct reports the first path, in field order, of all required-but-zero fields |
| `HaconfigValidate.FieldMissingIsFirst` | haconfig/config.go:383-404 | per field: its own check, then its nested struct or pointer target, first violation wins |
| `HaconfigValidate.OwnCheckFirst` | haconfig/config.go:383-388 | a required zero field reports its own path; a non-struct field that passes reports nothing |
| `HaconfigValidate.NilPointerSkipped` | haconfig/config.go:399 | an optional nil pointer is not descended into |
| `HaconfigValidate.PathsExtendPrefix` | haconfig/config.go:383-404 | every reported path starts with the enclosing prefix and a '.' |
| `HaconfigValidate.FieldPathExtends` | haconfig/config.go:433-438 | buildFieldPath extends its prefix |
| `HaconfigValidate.MissingFrom` | haconfig/config.go:377-408 | validateStruct; `HaconfigValidate.MissingIsFirstViolation` states what it reports |
| `HaconfigValidate.FieldMissing` | haconfig/config.go:383-404 | one field of validateStruct; `HaconfigValidate.FieldMissingIsFirst` and `OwnCheckFirst` state its order |
| `Haconfig.ApplyOptionsAppend` | haconfig/config.go:48-59 | applying options one list after another equals applying the concatenation |
| `Haconfig.ApplyOption` | haconfig/config.go:26-45 | each option sets its one setting; `Haconfig.Config.Configure` and `Haconfig.LastOptionWins` state the effect |
| `Haconfig.LastOptionWins` | haconfig/config.go:26-45 | each option overwrites exactly its own setting |
| `Haconfig.Config.New` | haconfig/config.go:48-59 | the settings are the defaults with the options applied in order |
| `Haconfig.Config.Configure` | haconfig/config.go:54-56 | one option updates the settings as ApplyOption says |
| `Haconfig.Config.SetFieldValue` | haconfig/config.go:249-327 | the method computes exactly SetValue's new value and error |
| `Haconfig.Config.SetSliceValue` | haconfig/config.go:330-344 | the method computes exactly the slice case of SetValue |
| `Haconfig.Config.FillSlice` | haconfig/config.go:331-343 | the element loop returns Gather of the coerced elements |
| `Haconfig.Config.SetElement` | haconfig/config.go:334-339 | element i is coerced as Elements says |
| `Haconfig.Config.SetFieldFromEnv` | haconfig/config.go:239-246 | an unset variable changes nothing; a set one is coerced by SetValue |
| `Haconfig.Config.HasAnyEnvVar` | haconfig/config.go:168-195 | the loop returns AnyEnvVar |
| `Haconfig.Config.ProcessStruct` | haconfig/config.go:114-165 | the loop returns ProcessFields' values and error |
| `Haconfig.Config.ProcessField` | haconfig/config.go:116-161 | one field is stepped as StepField says |
| `Haconfig.Config.ProcessLeaf` | haconfig/config.go:151-161 | a leaf is stepped as LeafStep says |
| `Haconfig.Config.ValidateStruct` | haconfig/config.go:377-408 | the loop returns MissingFrom, the first violating path |
| `Haconfig.Config.LoadFromYAML` | haconfig/config.go:88-103 | a missing file changes nothing; a read or decode failure is reported; a decoded file replaces the values |
| `Haconfig.Config.LoadFromEnvInto` | haconfig/config.go:106-111 | the target's values become ProcessFields of the old values from the empty prefix |
| `Haconfig.Config.Load` | haconfig/config.go:62-85 | nil and non-struct-pointer targets fail with their messages; otherwise YAML (when configured) then env, as LoadSpec says |
| `Haconfig.Config.MustLoad` | haconfig/config.go:360-364 | when Load succeeds, the target holds Load's values |
| `Haconfig.Config.Validate` | haconfig/config.go:367-374 | a pointer or a struct value reports "required field is empty: " with the first violating path |
| `Haconfig.LoadFromFile` | haconfig/config.go:346-350 | Load with WithYAMLFile(file) placed before the other options |
| `Haconfig.LoadFromEnv` | haconfig/config.go:353-357 | the env walk alone, with the given options and no YAML |
| `Wrapper.Wrap` | wrapper/wrapper.go:211-220 | Go's 64-bit int wrap-around: identity in range, congruent modulo 2^64 |
| `Wrapper.NewSortBy` | wrapper/wrapper.go:148-153 | holds the given field and direction |
| `Wrapper.NewAscendingSortBy` | wrapper/wrapper.go:155-160 | NewSortBy with ascending = true |
| `Wrapper.NewDescendingSortBy` | wrapper/wrapper.go:162-167 | NewSortBy with ascending = false |
| `Wrapper.ValidateSortBy` | wrapper/wrapper.go:177-182 | fails exactly on an empty field, with its message |
| `Wrapper.SortByConstructors` | wrapper/wrapper.go:148-182 | the constructors keep the field and set the direction; validity depends only on the field |
| `Wrapper.NewPagination` | wrapper/wrapper.go:189-194 | holds the given limit and offset |
| `Wrapper.NewFirstPagePagination` | wrapper/wrapper.go:196-201 | limit 10, offset 0, and valid |
| `Wrapper.ValidatePagination` | wrapper/wrapper.go:222-230 | valid iff limit > 0 and offset >= 0; the limit is checked first, each with its message |
| `Wrapper.HasNext` | wrapper/wrapper.go:211-213 | whenever offset + limit fits in an int, HasNext is exactly offset + limit < totalCount |
| `Wrapper.NextPage` | wrapper/wrapper.go:215-220 | same limit; the offset is offset + limit whenever that fits in an int, and congruent to it modulo 2^64 always |
| `Wrapper.HasNextIsNextPageStart` | wrapper/wrapper.go:211-220 | HasNext holds iff the next page starts before the total |
| `Wrapper.HasNextWithoutOverflow` | wrapper/wrapper.go:211-213 | without overflow HasNext is the exact comparison; a page ending at the total has no next |
| `Wrapper.HasNextOverflow` | wrapper/wrapper.go:211-213 | a valid pagination at the largest offset reports a next page of an empty result |
| `Wrapper.HasNextFixedIsExact` | wrapper/wrapper.go:211-213 | the rearranged test agrees with the exact comparison on every valid pagination |
| `Wrapper.NextPageStaysValid` | wrapper/wrapper.go:215-230 | without overflow the next page of a valid pagination is valid and strictly further |
| `Wrapper.NextPageOverflow` | wrapper/wrapper.go:215-230 | at the largest offset the next page wraps to a negative, invalid offset |
| `Wrapper.NewFilter` | wrapper/wrapper.go:237-242 | holds the given field and value |
| `Wrapper.NewProjection` | wrapper/wrapper.go:257-261 | holds the given slice, nil included |
| `Wrapper.NewEmptyProjection` | wrapper/wrapper.go:264-268 | an allocated slice of no fields, which is not the projection of a nil slice |
| `Wrapper.NewQueryWrapper` | wrapper/wrapper.go:40-49 | every accessor returns its argument |
| `Wrapper.NewCommandWrapper` | wrapper/wrapper.go:110-115 | context and command are the arguments |
| `Wrapper.PageQueries` | wrapper/wrapper.go:281-291 | Next is hasNext; First iff offset 0; HasData iff the result slice is allocated and non-empty |
| `Wrapper.QueryWrapperBuilder.constructor` | wrapper/wrapper.go:60-62 | every field starts at its zero value: a nil context, a projection of a nil slice, zero pagination and sort order, a nil filter slice |
| `Wrapper.QueryWrapperBuilder.WithContext` | wrapper/wrapper.go:64-67 | sets the context, nil included, only, and returns the same builder |
| `Wrapper.QueryWrapperBuilder.WithQuery` | wrapper/wrapper.go:69-72 | sets the query only and returns the same builder |
| `Wrapper.QueryWrapperBuilder.WithProjection` | wrapper/wrapper.go:74-77 | sets the projection only and returns the same builder |
| `Wrapper.QueryWrapperBuilder.WithPagination` | wrapper/wrapper.go:79-82 | sets the pagination only and returns the same builder |
| `Wrapper.QueryWrapperBuilder.WithSortBy` | wrapper/wrapper.go:84-87 | sets the sort order only and returns the same builder |
| `Wrapper.QueryWrapperBuilder.WithFilter` | wrapper/wrapper.go:89-92 | sets the filters only and returns the same builder |
| `Wrapper.QueryWrapperBuilder.Build` | wrapper/wrapper.go:94-103 | the wrapper holds the builder's current fields |
| `Wrapper.CommandWrapperBuilder.constructor` | wrapper/wrapper.go:122-124 | a nil context, zero command |
| `Wrapper.CommandWrapperBuilder.WithContext` | wrapper/wrapper.go:126-129 | sets the context, nil included, only, and returns the same builder |
| `Wrapper.CommandWrapperBuilder.WithCommand` | wrapper/wrapper.go:131-134 | sets the command only and returns the same builder |
| `Wrapper.CommandWrapperBuilder.Build` | wrapper/wrapper.go:136-141 | the wrapper holds the builder's fields |
| `Wrapper.PagesBuilder.constructor` | wrapper/wrapper.go:300-302 | a nil result slice, offset and limit 0, no next page: a first page without data or a next one |
| `Wrapper.PagesBuilder.Results` | wrapper/wrapper.go:304-307 | sets the results only and returns the same builder |
| `Wrapper.PagesBuilder.Offset` | wrapper/wrapper.go:309-312 | sets the offset only and returns the same builder |
| `Wrapper.PagesBuilder.Limit` | wrapper/wrapper.go:314-317 | sets the limit only and returns the same builder |
| `Wrapper.PagesBuilder.HasNext` | wrapper/wrapper.go:319-322 | sets the next flag only and returns the same builder |
| `Wrapper.PagesBuilder.Build` | wrapper/wrapper.go:324-331 | the page holds the builder's fields, with their Next/First/HasData meaning |
| `Wrapper.BuildQueryWrapper` | wrapper/wrapper.go:60-103 | a full builder chain yields NewQueryWrapper of the given parts |
| `Wrapper.BuildCommandWrapper` | wrapper/wrapper.go:122-141 | a full builder chain yields NewCommandWrapper of the given parts |
| `Wrapper.BuildPage` | wrapper/wrapper.go:300-331 | a builder chain yields a page holding the given results, offset, limit and flag |
| `Wrapper.BuildDefaultPage` | wrapper/wrapper_test.go:389-404 | a page built from a fresh builder has nil results and no data, is the first page and has no next |
| `O4gFormatter.ColoursAreSgr` | o4g_logger/colored_formatter.go:14-44 | every colour constant is an SGR sequence ESC '[' digits/';' 'm' |
| `O4gFormatter.NoEscNoColour` | o4g_logger/colored_formatter.go:14-44 | text without ESC contains no colour code |
| `O4gFormatter.LevelString` | o4g_logger/colored_formatter.go:125 | level names are lower-case words of at least four letters |
| `O4gFormatter.LevelColour` | o4g_logger/colored_formatter.go:166-181 | each known level's colour is one of the constants |
| `O4gFormatter.PanicColumn` | o4g_logger/colored_formatter.go:125 | the plain panic column is "PANIC" |
| `O4gFormatter.FatalColumn` | o4g_logger/colored_formatter.go:125 | the plain fatal column is "FATAL" |
| `O4gFormatter.ErrorColumn` | o4g_logger/colored_formatter.go:125 | the plain error column is "ERROR" |
| `O4gFormatter.DebugColumn` | o4g_logger/colored_formatter.go:125 | the plain debug column is "DEBUG" |
| `O4gFormatter.TraceColumn` | o4g_logger/colored_formatter.go:125 | the plain trace column is "TRACE" |
| `O4gFormatter.InfoColumn` | o4g_logger/colored_formatter.go:125 | the plain info column is " INFO" |
| `O4gFormatter.WarnColumn` | o4g_logger/colored_formatter.go:125 | the plain warn column is "WARNING", wider than five |
| `O4gFormatter.UnknownColumn` | o4g_logger/colored_formatter.go:125 | an unknown level's plain column is "UNKNOWN" |
| `O4gFormatter.LevelLabels` | o4g_logger/colored_formatter.go:166-181 | coloured labels are five wide; they equal the plain column except warn, which is " WARN" |
| `O4gFormatter.UnknownLevelLabel` | o4g_logger/colored_formatter.go:182-183 | an unknown level is shown uncoloured as "UNKNOWN" |
| `O4gFormatter.FormatLevelColored` | o4g_logger/colored_formatter.go:166-184 | formatLevelColored; `O4gFormatter.LevelLabels` and `UnknownLevelLabel` state its labels |
| `O4gFormatter.MessageColor` | o4g_logger/colored_formatter.go:188-203 | the message colour is one of the constants |
| `O4gFormatter.MessageColours` | o4g_logger/colored_formatter.go:188-203 | HiRed iff error/fatal/panic; HiYellow iff warn; HiWhite iff info or unknown; Blue iff debug; Gray iff trace |
| `O4gFormatter.TimestampFormat` | o4g_logger/colored_formatter.go:284-289 | the configured layout when non-empty, the default otherwise; never empty |
| `O4gFormatter.LoggerNamePrecedence` | o4g_logger/colored_formatter.go:206-231 | component, then module (both after the service name), then service, then the caller's package, then the service name |
| `O4gFormatter.LoggerName` | o4g_logger/colored_formatter.go:206-231 | getLoggerName; `O4gFormatter.LoggerNamePrecedence` states its order |
| `O4gFormatter.Parts` | o4g_logger/colored_formatter.go:240-251 | one part per visited key |
| `O4gFormatter.FieldsTextSpec` | o4g_logger/colored_formatter.go:234-281 | empty iff every field is internal; every other field appears once |
| `O4gFormatter.FieldsText` | o4g_logger/colored_formatter.go:234-281 | both field renderings; `O4gFormatter.FieldsTextSpec` states what they hold |
| `O4gFormatter.DistinctCard` | o4g_logger/colored_formatter.go:240-251 | a visiting order without repeats has as many entries as keys |
| `O4gFormatter.CollectParts` | o4g_logger/colored_formatter.go:266-274 | the loop visits each non-internal key once, in some order, and returns Parts |
| `O4gFormatter.PartsSnoc` | o4g_logger/colored_formatter.go:250 | appending a part extends Parts by one key |
| `O4gFormatter.FormatFieldsPlain` | o4g_logger/colored_formatter.go:261-281 | "{k=v, ...}" over the non-internal fields in some order, or "" |
| `O4gFormatter.FormatFieldsColored` | o4g_logger/colored_formatter.go:234-258 | the coloured form over the non-internal fields in some order, or "" |
| `O4gFormatter.ShortFileSpec` | o4g_logger/colored_formatter.go:156-157 | the short file is the part after the last '/' |
| `O4gFormatter.CallerSuffixSpec` | o4g_logger/colored_formatter.go:106-110 | a suffix appears iff the caller is enabled and present; its file has no '/' |
| `O4gFormatter.CallerSuffix` | o4g_logger/colored_formatter.go:106-110 | the caller suffix; `O4gFormatter.CallerSuffixSpec` states when it appears |
| `O4gFormatter.FormatPlain` | o4g_logger/colored_formatter.go:117-163 | the builder produces PlainLine for some field order |
| `O4gFormatter.FormatColored` | o4g_logger/colored_formatter.go:65-114 | the builder produces ColoredLine for some field order |
| `O4gFormatter.Format` | o4g_logger/colored_formatter.go:56-62 | colours on gives the coloured line, off the plain one; never an error |
| `O4gFormatter.PlainLineShape` | o4g_logger/colored_formatter.go:117-163 | the message follows the logger-name column and the line ends in a newline |
| `O4gFormatter.PlainLine` | o4g_logger/colored_formatter.go:117-163 | formatPlain's line; `O4gFormatter.FormatPlain` and `PlainLineShape` state its layout |
| `O4gFormatter.ColoredLineShape` | o4g_logger/colored_formatter.go:65-114 | the message, in its level's colour, follows the name column; the line ends in a newline |
| `O4gFormatter.ColoredLine` | o4g_logger/colored_formatter.go:65-114 | formatColored's line; `O4gFormatter.FormatColored` and `ColoredLineShape` state its layout |
| `O4gFormatter.PlainLineHasNoColour` | o4g_logger/colored_formatter.go:117-163 | a plain line holds no ESC, so no colour code, when its inputs hold none |
| `O4gFormatter.LevelNoEsc` | o4g_logger/colored_formatter.go:125 | the plain level column is capitals and spaces only |
| `O4gFormatter.LoggerNameNoEsc` | o4g_logger/colored_formatter.go:206-231 | the logger name holds no ESC when the service name and the fields hold none |
| `O4gFormatter.CallerNoEsc` | o4g_logger/colored_formatter.go:155-159 | the plain caller suffix holds no ESC when the file name holds none |

## Left out

- YAML decoding is opaque. `YamlOutcome` says whether the file was missing,
  could not be read, or decoded to given field values or to an error.
- Float, duration and time parsing are abstract functions handed in as
  `Parsers`. The time layouts and their fallback order are modelled exactly.
- Reading the environment, `os.ReadFile`, `os.Getpid`,
  `runtime.NumGoroutine` and `time.Format` are not performed. Their results
  are parameters (`env`, `yaml`, `pid`, `goroutines`, `stamp`).
- Unexported fields are not modelled; `CanSet` always holds. As a result a
  `*time.Time` has no walkable fields and the walk never allocates it.
- Go's `int` is taken to be 64 bits wide.
- `HaconfigTypes.Type` is a finite tree, so a struct type that reaches
  itself through a pointer (`type Node struct { Name string; Next *Node }`)
  cannot be expressed. On such a type Go's `hasAnyEnvVar`
  (haconfig/config.go:178-182) descends once
  per level (prefixes `NEXT`, `NEXT_NEXT`, ...) until the stack
  overflows, unless it finds a set variable first. When it does find one,
  `processStruct` allocates that level and walks it, and the next level
  starts the same descent again. So `Load` and `LoadFromEnv` do not return
  on such a target. The walk functions terminate only because these types
  are outside the model.
- `HaconfigWalk.Turns`: a pointer's target is modelled as a value inside
  the pointer field, so aliasing is not modelled. In Go, when two pointer
  fields of the target point to the same struct, the later field's walk
  sees the earlier field's writes and overwrites them, and both fields
  show the result. In the model each field keeps its own copy.
- `%v` rendering of field values: the model receives field values already
  rendered as strings.
- `HaconfigTypes.IsZeroValue`: the panic Go raises when comparing a struct
  that holds a slice, map or function member is not modelled; such a
  member compares by being nil. A value of an array, complex, uintptr or
  unsafe.Pointer kind is only a flag saying whether it is its kind's zero
  value, so its contents are not modelled.
- `GoStrings.ToUpper`: only ASCII letters are mapped. Go's
  strings.ToUpper maps every Unicode letter: for the field `Größe` Go
  gives `GRÖßE`, the model `GRößE`.
- `GoStrings.ToLower`: only ASCII letters are mapped, where Go's
  strings.ToLower maps every Unicode letter.
- `HaconfigNames.ToSnakeCase`: the two rewrites match ASCII classes, as in
  Go, but the final lower-casing is ASCII-only: `ÄpfelBaum` gives
  `Äpfel_baum` instead of Go's `äpfel_baum`.
- `HaconfigNames.EnvName`: upper-cases ASCII letters only, so a variable
  name derived from a non-ASCII field name differs from Go's.
- `Haconfig.Config.Validate`: a Go value that is neither a struct nor a
  pointer to one panics in reflection. The model requires a struct or a
  struct pointer.
- `Haconfig.LoadFromEnv` panics in Go on a target that is not a pointer to
  a struct. The model requires one.
- `Haconfig.Config.MustLoad`: the panic becomes a precondition that `Load`
  succeeds.
- `Level.String` comes from logrus, which is not part of this model. It is
  taken to give "warning" for the warn level and "unknown" for any
  unknown level.
- The order of Go map iteration is not fixed. Field lines are stated for
  some order without repeats (a ghost `keys`), not for a fixed one.
- `Option.String` is left out because it needs `%v` formatting.
- `context.Context` is an opaque type parameter; a nil context is `None`.
  A Go slice in the wrappers is an optional sequence, so a nil slice and
  an allocated empty one differ, as in Go.
- The accessors of `QueryWrapper`, `CommandWrapper`, `SortBy` and
  `Pagination` are the datatypes' field selectors.
- `Wrapper.NextPageStaysValid`: "valid stays valid" is stated only where
  offset + limit does not overflow. `NextPageOverflow` shows that it fails
  at the largest offset.
- `O4gFormatter.PlainLineShape`: the line is not stated to start with the
  timestamp. What is stated is where the message sits and the final
  newline.
- The width and padding of the `%-40s` and `%15s` columns are modelled as
  `PadRight` / `PadLeft` on characters. Go pads by runes; the two agree on
  `seq<char>`.
- logger.go, utils.go and global.go of o4g_logger are not part of this
  model.

## Findings

| source | as written | input that shows it | evidently intended | confidence | as-written member | corrected member |
|---|---|---|---|---|---|---|
| wrapper/wrapper.go:211-213 | `p.offset+p.limit < totalCount` in wrapping 64-bit `int` | `NewPagination(1, math.MaxInt64)` with `totalCount` 0: the sum wraps to the minimum and HasNext reports a next page of an empty result | the exact comparison offset + limit < totalCount, which `Wrapper.HasNextFixed` computes as offset < totalCount - limit without overflow | not executed | `Wrapper.HasNextOverflow` | `Wrapper.HasNextFixedIsExact` |
