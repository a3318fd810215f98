/** Model of option/option.go: a value that is either present (Some) or
    absent (None). The Go type wraps a nullable pointer; the two reachable
    states are exactly the two constructors below. This Option is also the
    one the rest of the model uses for Go's nil. */
module GoOption {

  datatype Option<T> = None | Some(value: T) {

    /** IsSome: the pointer is non-nil. */
    predicate IsSome() { Some? }

    /** IsNone: the pointer is nil. */
    predicate IsNone() { None? }

    /** Unwrap panics on None, so it is only defined on Some. */
    function Unwrap(): (r: T)
      requires IsSome()
      ensures Some(r) == this
    {
      value
    }

    /** Expect is Unwrap with a caller-chosen panic message. */
    function Expect(msg: string): (r: T)
      requires IsSome()
      ensures Some(r) == this
    {
      value
    }

    function GetOrElse(default: T): (r: T)
      ensures IsSome() ==> Some(r) == this
      ensures IsNone() ==> r == default
    {
      if IsSome() then value else default
    }

    /** The default is computed only on None. */
    function GetOrElseFunc(defaultFunc: () -> T): (r: T)
      ensures IsSome() ==> Some(r) == this
      ensures IsNone() ==> r == defaultFunc()
    {
      if IsSome() then value else defaultFunc()
    }

    /** Map: both the method form (result Option[interface{}]) and the
        generic function form of the Go package. */
    function Map<U>(f: T -> U): (r: Option<U>)
      ensures r.IsSome() <==> IsSome()
      ensures IsSome() ==> r.value == f(value)
    {
      if IsSome() then Some(f(value)) else None
    }

    /** AndThen: the method form and the generic function form. */
    function AndThen<U>(f: T -> Option<U>): (r: Option<U>)
      ensures IsNone() ==> r.IsNone()
      ensures IsSome() ==> r == f(value)
    {
      if IsSome() then f(value) else None
    }

    function Or(other: Option<T>): (r: Option<T>)
      ensures IsSome() ==> r == this
      ensures IsNone() ==> r == other
    {
      if IsSome() then this else other
    }

    function And(other: Option<T>): (r: Option<T>)
      ensures IsNone() ==> r.IsNone()
      ensures IsSome() ==> r == other
    {
      if IsNone() then this else other
    }

    function Filter(keep: T -> bool): (r: Option<T>)
      ensures r.IsSome() <==> IsSome() && keep(value)
      ensures r.IsSome() ==> r == this
    {
      if IsSome() && keep(value) then this else None
    }

    /** Contains compares with a caller-supplied equality; false on None. */
    function Contains(v: T, eq: (T, T) -> bool): (r: bool)
      ensures IsNone() ==> !r
      ensures IsSome() ==> (r <==> eq(value, v))
    {
      if IsNone() then false else eq(value, v)
    }

    function Exists(keep: T -> bool): (r: bool)
      ensures r <==> IsSome() && keep(value)
    {
      IsSome() && keep(value)
    }

    function ForAll(keep: T -> bool): (r: bool)
      ensures r <==> IsNone() || keep(value)
    {
      IsNone() || keep(value)
    }

    function ToSlice(): (r: seq<T>)
      ensures IsSome() ==> r == [value]
      ensures IsNone() ==> r == []
    {
      if IsSome() then [value] else []
    }

    /** Flatten: Option[T] has no nested option to remove, so the Go code
        returns an equal option. */
    function Flatten(): (r: Option<T>)
      ensures r == this
    {
      if IsSome() then this else None
    }

    /** Replace keeps the shape and swaps in a new value. */
    function Replace(v: T): (r: Option<T>)
      ensures r.IsSome() <==> IsSome()
      ensures r.IsSome() ==> r.value == v
    {
      if IsSome() then Some(v) else None
    }

    /** Take: the receiver is passed by value, so nothing is taken from the
        caller's copy and the result equals the receiver. */
    function Take(): (r: Option<T>)
      ensures r == this
    {
      if IsSome() then this else None
    }
  }

  /** Some(v) is Some and unwraps to v. */
  lemma SomeUnwraps<T>(v: T)
    ensures Some(v).IsSome() && !Some(v).IsNone() && Some(v).Unwrap() == v
  {
  }

  /** IsSome and IsNone are complementary on every option. */
  lemma SomeNoneExclusive<T>(o: Option<T>)
    ensures o.IsSome() == !o.IsNone()
  {
  }

  /** Map preserves identity and composes. */
  lemma MapFunctorLaws<T, U, V>(o: Option<T>, f: T -> U, g: U -> V)
    ensures o.Map(x => x) == o
    ensures o.Map(f).Map(g) == o.Map(x => g(f(x)))
  {
  }

  /** AndThen is associative and Some is its unit on both sides. */
  lemma AndThenMonadLaws<T, U, V>(v: T, o: Option<T>, f: T -> Option<U>, g: U -> Option<V>)
    ensures Some(v).AndThen(f) == f(v)
    ensures o.AndThen(x => Some(x)) == o
    ensures o.AndThen(f).AndThen(g) == o.AndThen(x => f(x).AndThen(g))
  {
  }

  /** Filter is idempotent and Exists is "Filter keeps something". */
  lemma FilterExistsForAll<T>(o: Option<T>, p: T -> bool)
    ensures o.Filter(p).Filter(p) == o.Filter(p)
    ensures o.Exists(p) <==> o.Filter(p).IsSome()
    ensures o.ForAll(p) <==> !o.Exists(x => !p(x))
  {
  }

  /** ToSlice has at most one element, and exactly one iff Some. */
  lemma ToSliceLength<T>(o: Option<T>)
    ensures |o.ToSlice()| <= 1
    ensures |o.ToSlice()| == 1 <==> o.IsSome()
  {
  }
}
