/** Model of goerr/goerr.go: an error wrapper that carries a flag telling
    whether the wrapped error is a runtime error. Go errors are modelled by
    a small closed datatype: a plain error built by errors.New, or a
    *GoErr. The embedded error of a GoErr may be nil. */
module GoErr {
  import opened GoOption

  datatype Error =
    | ErrorString(msg: string)
    | GoErr(inner: Option<Error>, runtimeErr: bool)

  /** Error() of a GoErr calls Error() on the embedded error, which panics
      when it is nil; a value has a message when no embedded error on the
      way down is nil. */
  predicate HasMessage(e: Error)
  {
    match e
    case ErrorString(_) => true
    case GoErr(inner, _) => inner.Some? && HasMessage(inner.value)
  }

  /** The message of an error, that is, its Error() method. */
  function Message(e: Error): (m: string)
    requires HasMessage(e)
    ensures e.ErrorString? ==> m == e.msg
  {
    match e
    case ErrorString(msg) => msg
    case GoErr(inner, _) => Message(inner.value)
  }

  /** The unexported constructor newGoErr. */
  function NewGoErr(err: Option<Error>, isRuntime: bool): (g: Error)
    ensures g.GoErr? && IsRuntime(g) == isRuntime && Unwrap(g) == err
  {
    GoErr(err, isRuntime)
  }

  function WrapRuntimeErr(err: Option<Error>): (g: Error)
    ensures IsGoErr(Some(g)) && IsRuntime(g)
    ensures Unwrap(g) == err
  {
    NewGoErr(err, true)
  }

  function WrapNonRuntimeErr(err: Option<Error>): (g: Error)
    ensures IsGoErr(Some(g)) && !IsRuntime(g)
    ensures Unwrap(g) == err
  {
    NewGoErr(err, false)
  }

  function IsRuntime(g: Error): bool
    requires g.GoErr?
  {
    g.runtimeErr
  }

  function Unwrap(g: Error): Option<Error>
    requires g.GoErr?
  {
    g.inner
  }

  /** The type assertion err.(*GoErr): false for nil and for plain errors. */
  function IsGoErr(err: Option<Error>): bool
  {
    err.Some? && err.value.GoErr?
  }

  /** Wrapping keeps the message, whatever it is (the empty one included),
      and the two wrappers differ only in the flag. */
  lemma {:induction false} WrapKeepsMessage(err: Error, runtime: bool)
    requires HasMessage(err)
    ensures HasMessage(NewGoErr(Some(err), runtime))
    ensures Message(NewGoErr(Some(err), runtime)) == Message(err)
    ensures Message(WrapRuntimeErr(Some(err))) == Message(WrapNonRuntimeErr(Some(err)))
  {
  }

  /** A message survives any number of nested wraps. */
  lemma {:induction false} NestedWrapKeepsMessage(err: Error, flags: seq<bool>)
    requires HasMessage(err)
    ensures HasMessage(WrapAll(err, flags)) && Message(WrapAll(err, flags)) == Message(err)
    decreases |flags|
  {
    if flags != [] {
      NestedWrapKeepsMessage(err, flags[1..]);
    }
  }

  /** Wraps err once per flag, innermost flag last. */
  function WrapAll(err: Error, flags: seq<bool>): Error
    decreases |flags|
  {
    if flags == [] then err else NewGoErr(Some(WrapAll(err, flags[1..])), flags[0])
  }

  /** The wrapper exposes exactly what it was given and IsGoErr tells the
      two kinds of error apart. */
  lemma UnwrapAndIsGoErr(err: Option<Error>, msg: string)
    ensures Unwrap(WrapRuntimeErr(err)) == err && Unwrap(WrapNonRuntimeErr(err)) == err
    ensures !IsGoErr(None) && !IsGoErr(Some(ErrorString(msg)))
    ensures IsGoErr(Some(WrapRuntimeErr(err))) && IsGoErr(Some(WrapNonRuntimeErr(err)))
  {
  }
}
