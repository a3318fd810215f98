/** Model of result/result.go. The Go type is a pair (value, err) whose
    fields are only set by the constructors Ok(v) = (v, nil) and
    Err(e) = (zero, e). Ok-ness is "err == nil", so Err(nil) is the pair
    (zero, nil), which is Ok(zero). The reachable states are therefore
    exactly Ok(v) and Err(e) with a non-nil error e, which is the datatype
    below; ErrOf models the Go constructor Err, whose argument may be nil. */
module GoResult {
  import opened GoOption

  datatype Result<T, E> = Ok(value: T) | Err(err: E) {

    predicate IsOk() { Ok? }

    predicate IsErr() { Err? }

    /** Unwrap panics on Err, so it is only defined on Ok. */
    function Unwrap(): (r: T)
      requires IsOk()
      ensures Ok(r) == this
    {
      value
    }

    /** UnwrapErr panics on Ok, so it is only defined on Err. */
    function UnwrapErr(): (r: E)
      requires IsErr()
      ensures Err(r) == this
    {
      err
    }

    function Expect(msg: string): (r: T)
      requires IsOk()
      ensures Ok(r) == this
    {
      value
    }

    function ExpectErr(msg: string): (r: E)
      requires IsErr()
      ensures Err(r) == this
    {
      err
    }

    function GetOrElse(default: T): (r: T)
      ensures IsOk() ==> Ok(r) == this
      ensures IsErr() ==> r == default
    {
      if IsOk() then value else default
    }

    function GetOrElseFunc(defaultFunc: () -> T): (r: T)
      ensures IsOk() ==> Ok(r) == this
      ensures IsErr() ==> r == defaultFunc()
    {
      if IsOk() then value else defaultFunc()
    }

    /** Map: the method form (result Result[interface{}]) and the generic
        function form behave alike. */
    function Map<U>(f: T -> U): (r: Result<U, E>)
      ensures r.IsOk() <==> IsOk()
      ensures IsOk() ==> r.value == f(value)
      ensures IsErr() ==> r.err == err
    {
      if IsOk() then Ok(f(value)) else Err(err)
    }

    /** MapErr: the mapped error may be nil, in which case Go's Err
        constructor yields Ok(zero). */
    function MapErr(f: E -> Option<E>, zero: T): (r: Result<T, E>)
      ensures IsOk() ==> r == this
      ensures IsErr() && f(err).Some? ==> r == Err(f(err).value)
      ensures IsErr() && f(err).None? ==> r == Ok(zero)
    {
      if IsErr() then ErrOf(zero, f(err)) else this
    }

    /** AndThen: the method form and the generic function form. */
    function AndThen<U>(f: T -> Result<U, E>): (r: Result<U, E>)
      ensures IsOk() ==> r == f(value)
      ensures IsErr() ==> r == Err(err)
    {
      if IsOk() then f(value) else Err(err)
    }

    function Or(other: Result<T, E>): (r: Result<T, E>)
      ensures IsOk() ==> r == this
      ensures IsErr() ==> r == other
    {
      if IsOk() then this else other
    }

    function And(other: Result<T, E>): (r: Result<T, E>)
      ensures IsErr() ==> r == this
      ensures IsOk() ==> r == other
    {
      if IsErr() then this else other
    }

    /** Filter turns an Ok whose value fails the predicate into Err(e);
        with a nil e that is Ok(zero). Every other input is returned. */
    function Filter(keep: T -> bool, e: Option<E>, zero: T): (r: Result<T, E>)
      ensures IsErr() ==> r == this
      ensures IsOk() && keep(value) ==> r == this
      ensures IsOk() && !keep(value) ==> r == ErrOf(zero, e)
    {
      if IsOk() && !keep(value) then ErrOf(zero, e) else this
    }
  }

  /** Go's Err constructor: a nil error gives the Ok pair (zero, nil). */
  function ErrOf<T, E>(zero: T, e: Option<E>): (r: Result<T, E>)
    ensures r.IsErr() <==> e.Some?
    ensures e.Some? ==> r.UnwrapErr() == e.value
    ensures e.None? ==> r.Unwrap() == zero
  {
    match e
    case Some(x) => Err(x)
    case None => Ok(zero)
  }

  /** Ok(v) is Ok and unwraps to v; Err(e) with a non-nil e is Err and
      unwraps to e; Err(nil) counts as Ok. */
  lemma ConstructorsAgree<T, E>(v: T, e: E, zero: T)
    ensures Result<T, E>.Ok(v).IsOk() && Result<T, E>.Ok(v).Unwrap() == v
    ensures ErrOf<T, E>(zero, Some(e)).IsErr() && ErrOf<T, E>(zero, Some(e)).UnwrapErr() == e
    ensures ErrOf<T, E>(zero, None).IsOk()
  {
  }

  /** IsOk and IsErr are complementary. */
  lemma OkErrExclusive<T, E>(r: Result<T, E>)
    ensures r.IsOk() == !r.IsErr()
  {
  }

  /** Map is a functor and AndThen a monad bind with unit Ok. */
  lemma MapAndThenLaws<T, U, V, E>(r: Result<T, E>, v: T, f: T -> U, g: U -> V, h: T -> Result<U, E>, k: U -> Result<V, E>)
    ensures r.Map(x => x) == r
    ensures r.Map(f).Map(g) == r.Map(x => g(f(x)))
    ensures Result<T, E>.Ok(v).AndThen(h) == h(v)
    ensures r.AndThen(x => Ok(x)) == r
    ensures r.AndThen(h).AndThen(k) == r.AndThen(x => h(x).AndThen(k))
  {
  }

  /** An Err keeps its original error through Filter, and filtering twice
      with a non-nil error is filtering once. */
  lemma FilterKeepsError<T, E>(r: Result<T, E>, p: T -> bool, e: E, zero: T)
    ensures r.IsErr() ==> r.Filter(p, Some(e), zero).UnwrapErr() == r.err
    ensures r.Filter(p, Some(e), zero).Filter(p, Some(e), zero) == r.Filter(p, Some(e), zero)
  {
  }
}
