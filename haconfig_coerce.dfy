/** setFieldValue and setSliceValue of haconfig/config.go as functions: the
    value a field holds after a string has been coerced into it, and the
    error, if any. Parsing floats, durations and times is left to the
    standard library; here it is a parameter of abstract partial
    functions. */
module HaconfigCoerce {
  import opened GoOption
  import opened GoResult
  import opened GoStrings
  import opened GoStrconv
  import opened HaconfigTypes

  type Int64 = i: int | SignedFits(i, W64)

  /** The library parsers the loader calls: strconv.ParseFloat(s, 64),
      the rounding of reflect's SetFloat into a float32 field,
      time.ParseDuration (in nanoseconds) and time.Parse(layout, s). */
  datatype Parsers = Parsers(
    parseFloat: string -> Option<FloatVal>,
    toFloat32: FloatVal -> FloatVal,
    parseDuration: string -> Option<Int64>,
    parseTime: (string, string) -> Option<TimeVal>)

  /** time.RFC3339, tried first. */
  const RFC3339 := "2006-01-02T15:04:05Z07:00"

  /** The formats tried, in order, when RFC 3339 fails. */
  const FallbackLayouts := ["2006-01-02 15:04:05", "2006-01-02", "15:04:05"]

  /** The first fallback layout from index i on that parses s. */
  function ParseFallback(p: Parsers, s: string, i: nat): (r: Option<TimeVal>)
    requires i <= |FallbackLayouts|
    decreases |FallbackLayouts| - i
  {
    if i == |FallbackLayouts| then None
    else if p.parseTime(FallbackLayouts[i], s).Some? then p.parseTime(FallbackLayouts[i], s)
    else ParseFallback(p, s, i + 1)
  }

  /** The time a time.Time field is set to: RFC 3339 first, then the
      fallback layouts. */
  function ParseTime(p: Parsers, s: string): Option<TimeVal>
  {
    if p.parseTime(RFC3339, s).Some? then p.parseTime(RFC3339, s) else ParseFallback(p, s, 0)
  }

  /** Every layout ParseTime tries, in order. */
  function TimeLayouts(): (ls: seq<string>)
    ensures |ls| == 4 && ls[0] == RFC3339 && ls[1..] == FallbackLayouts
  {
    [RFC3339] + FallbackLayouts
  }

  lemma {:induction false} ParseFallbackIsFirst(p: Parsers, s: string, i: nat)
    requires i <= |FallbackLayouts|
    ensures ParseFallback(p, s, i).Some? <==> exists k :: i <= k < |FallbackLayouts| && p.parseTime(FallbackLayouts[k], s).Some?
    ensures ParseFallback(p, s, i).Some? ==>
              exists k :: && i <= k < |FallbackLayouts|
                          && ParseFallback(p, s, i) == p.parseTime(FallbackLayouts[k], s)
                          && forall j :: i <= j < k ==> p.parseTime(FallbackLayouts[j], s).None?
    decreases |FallbackLayouts| - i
  {
    if i < |FallbackLayouts| {
      ParseFallbackIsFirst(p, s, i + 1);
    }
  }

  /** ParseTime succeeds exactly when some layout parses the text, and then
      gives the result of the first layout that does. */
  lemma ParseTimeIsFirst(p: Parsers, s: string)
    ensures ParseTime(p, s).Some? <==> exists k :: 0 <= k < 4 && p.parseTime(TimeLayouts()[k], s).Some?
    ensures ParseTime(p, s).Some? ==>
              exists k :: && 0 <= k < 4
                          && ParseTime(p, s) == p.parseTime(TimeLayouts()[k], s)
                          && forall j :: 0 <= j < k ==> p.parseTime(TimeLayouts()[j], s).None?
  {
    var ls := TimeLayouts();
    ParseFallbackIsFirst(p, s, 0);
    assert forall k :: 0 <= k < 3 ==> ls[k + 1] == FallbackLayouts[k];
    if p.parseTime(RFC3339, s).None? && ParseFallback(p, s, 0).Some? {
      var k :| && 0 <= k < |FallbackLayouts|
               && ParseFallback(p, s, 0) == p.parseTime(FallbackLayouts[k], s)
               && forall j :: 0 <= j < k ==> p.parseTime(FallbackLayouts[j], s).None?;
      assert ParseTime(p, s) == p.parseTime(ls[k + 1], s);
      assert forall j :: 0 <= j < k + 1 ==> p.parseTime(ls[j], s).None?;
    }
  }

  /** The errors setFieldValue reports. */
  datatype CoerceError =
    | InvalidBool(text: string)
    | InvalidDuration(text: string)
    | InvalidInt(text: string)
    | InvalidUint(text: string)
    | InvalidFloat(text: string)
    | InvalidTime(text: string)
    | Unsupported(kind: OtherKind)
    | InvalidElement(index: nat, cause: CoerceError)

  /** The error's text, as fmt.Errorf formats it. */
  function CoerceMessage(e: CoerceError): string
  {
    match e
    case InvalidBool(s) => "invalid bool value: " + s
    case InvalidDuration(s) => "invalid duration value: " + s
    case InvalidInt(s) => "invalid int value: " + s
    case InvalidUint(s) => "invalid uint value: " + s
    case InvalidFloat(s) => "invalid float value: " + s
    case InvalidTime(s) => "invalid time value: " + s
    case Unsupported(k) => "unsupported field type: " + KindName(k)
    case InvalidElement(i, c) => "invalid slice element at index " + NatToDecimal(i) + ": " + CoerceMessage(c)
  }

  /** The field's value after the call, and the error returned. */
  datatype Coerced = Coerced(value: Value, err: Option<CoerceError>)

  /** setFieldValue(field, s), where the field is of type t and holds v.
      A failed coercion leaves every field but a pointer as it was; a nil
      pointer has been allocated by then and stays allocated. */
  function SetValue(p: Parsers, t: Type, v: Value, s: string): (r: Coerced)
    ensures r.err.Some? && !t.TPtr? ==> r.value == v
    ensures r.err.Some? && t.TPtr? ==> r.value.VPtr? && r.value.ptr.Some?
    decreases t, 0
  {
    match t
    case TString => Coerced(VString(s), None)
    case TBool =>
      (match ParseBool(s)
      case Some(b) => Coerced(VBool(b), None)
      case None => Coerced(v, Some(InvalidBool(s))))
    case TDuration =>
      (match p.parseDuration(s)
      case Some(d) => Coerced(VInt(d), None)
      case None => Coerced(v, Some(InvalidDuration(s))))
    case TInt(w) =>
      (match ParseInt(s)
      case Some(i) => Coerced(VInt(WrapSigned(i, w)), None)
      case None => Coerced(v, Some(InvalidInt(s))))
    case TUint(w) =>
      (match ParseUint(s)
      case Some(u) => Coerced(VUint(WrapUnsigned(u, w)), None)
      case None => Coerced(v, Some(InvalidUint(s))))
    case TFloat32 =>
      (match p.parseFloat(s)
      case Some(f) => Coerced(VFloat(p.toFloat32(f)), None)
      case None => Coerced(v, Some(InvalidFloat(s))))
    case TFloat64 =>
      (match p.parseFloat(s)
      case Some(f) => Coerced(VFloat(f), None)
      case None => Coerced(v, Some(InvalidFloat(s))))
    case TSlice(e) =>
      (match Gather(Elements(p, e, Split(s, ',')), 0)
      case Ok(items) => Coerced(VSlice(Some(items)), None)
      case Err(err) => Coerced(v, Some(err)))
    case TPtr(e) =>
      var inner := if v.VPtr? && v.ptr.Some? then v.ptr.value else Zero(e);
      var c := SetValue(p, e, inner, s);
      Coerced(VPtr(Some(c.value)), c.err)
    case TTime =>
      (match ParseTime(p, s)
      case Some(tv) => Coerced(VTime(tv), None)
      case None => Coerced(v, Some(InvalidTime(s))))
    case TStruct(_) => Coerced(v, None)
    case TOther(k) => Coerced(v, Some(Unsupported(k)))
  }

  /** The elements setSliceValue coerces: each trimmed part into a fresh
      zero element. */
  function Elements(p: Parsers, e: Type, parts: seq<string>): (cs: seq<Coerced>)
    ensures |cs| == |parts|
    decreases e, 2
  {
    seq(|parts|, k requires 0 <= k < |parts| => Element(p, e, TrimSpace(parts[k])))
  }

  /** One element of a slice: a zero element set from the text. */
  function Element(p: Parsers, e: Type, part: string): Coerced
    decreases e, 1
  {
    SetValue(p, e, Zero(e), part)
  }

  /** setSliceValue's loop from index i on: the coerced elements, or the
      first failure with its index. */
  function Gather(cs: seq<Coerced>, i: nat): (r: Result<seq<Value>, CoerceError>)
    requires i <= |cs|
    decreases |cs| - i
  {
    if i == |cs| then Ok([])
    else if cs[i].err.Some? then Err(InvalidElement(i, cs[i].err.value))
    else
      match Gather(cs, i + 1)
      case Ok(rest) => Ok([cs[i].value] + rest)
      case Err(err) => Err(err)
  }

  /** Gather succeeds exactly when every element from i on coerced. */
  lemma {:induction false} GatherOk(cs: seq<Coerced>, i: nat)
    requires i <= |cs|
    ensures Gather(cs, i).Ok? <==> forall k :: i <= k < |cs| ==> cs[k].err.None?
    decreases |cs| - i
  {
    if i < |cs| {
      GatherOk(cs, i + 1);
    }
  }

  /** On success Gather keeps every value from i on, in order. */
  lemma {:induction false} GatherValues(cs: seq<Coerced>, i: nat)
    requires i <= |cs|
    requires Gather(cs, i).Ok?
    ensures Gather(cs, i).value == seq(|cs| - i, k requires 0 <= k < |cs| - i => cs[i + k].value)
    decreases |cs| - i
  {
    if i < |cs| {
      GatherValues(cs, i + 1);
    }
  }

  /** The first element from i on that failed to coerce, or |cs|. */
  function FirstFailure(cs: seq<Coerced>, i: nat): (k: nat)
    requires i <= |cs|
    ensures i <= k <= |cs|
    ensures k < |cs| ==> cs[k].err.Some?
    ensures forall j :: i <= j < k ==> cs[j].err.None?
    decreases |cs| - i
  {
    if i == |cs| || cs[i].err.Some? then i else FirstFailure(cs, i + 1)
  }

  /** On failure Gather reports the first failing element with its
      index. */
  lemma {:induction false} GatherErr(cs: seq<Coerced>, i: nat)
    requires i <= |cs|
    requires Gather(cs, i).Err?
    ensures FirstFailure(cs, i) < |cs|
    ensures Gather(cs, i).err == InvalidElement(FirstFailure(cs, i), cs[FirstFailure(cs, i)].err.value)
    decreases |cs| - i
  {
    if cs[i].err.None? {
      GatherErr(cs, i + 1);
    }
  }

  /** A coercion keeps the field a value of its type. */
  lemma {:induction false} SetValueMatches(p: Parsers, t: Type, v: Value, s: string)
    requires Matches(t, v)
    ensures Matches(t, SetValue(p, t, v, s).value)
    decreases t, 1
  {
    match t
    case TSlice(e) =>
      SliceMatches(p, e, v, s);
    case TPtr(e) =>
      var inner := if v.VPtr? && v.ptr.Some? then v.ptr.value else Zero(e);
      SetValueMatches(p, e, inner, s);
    case _ =>
  }

  /** The slice case: every gathered element is a coerced zero element. */
  lemma {:induction false} SliceMatches(p: Parsers, e: Type, v: Value, s: string)
    requires Matches(TSlice(e), v)
    ensures Matches(TSlice(e), SetValue(p, TSlice(e), v, s).value)
    decreases e, 2
  {
    var cs := Elements(p, e, Split(s, ','));
    SliceOutcome(p, e, v, s);
    if Gather(cs, 0).Ok? {
      GatherValues(cs, 0);
      forall k | 0 <= k < |cs|
        ensures Matches(e, cs[k].value)
      {
        SetValueMatches(p, e, Zero(e), TrimSpace(Split(s, ',')[k]));
      }
    }
  }

  /** Kinds the loader does not handle always fail, whatever the text, and
      leave the field as it was; a struct other than time.Time is never
      touched. */
  lemma UnsupportedAndStructs(p: Parsers, k: OtherKind, fs: seq<Field>, v: Value, s: string)
    ensures SetValue(p, TOther(k), v, s) == Coerced(v, Some(Unsupported(k)))
    ensures SetValue(p, TStruct(fs), v, s) == Coerced(v, None)
    ensures CoerceMessage(Unsupported(k)) == "unsupported field type: " + KindName(k)
  {
  }

  /** A string field takes the text as it is. A bool field accepts exactly
      the strconv.ParseBool spellings. */
  lemma StringAndBool(p: Parsers, v: Value, s: string)
    ensures SetValue(p, TString, v, s) == Coerced(VString(s), None)
    ensures SetValue(p, TBool, v, s).err.None? <==> s in TrueLiterals + FalseLiterals
    ensures s in TrueLiterals ==> SetValue(p, TBool, v, s).value == VBool(true)
    ensures s in FalseLiterals ==> SetValue(p, TBool, v, s).value == VBool(false)
  {
  }

  /** An int field reads back any int64 printed in decimal, a uint field
      any uint64, and a time.Duration field is parsed as a duration, not as
      an integer. */
  lemma IntegerRoundTrip(p: Parsers, v: Value, i: int, u: nat, s: string)
    requires SignedFits(i, W64) && u < MaxUint64Plus1
    ensures SetValue(p, TInt(W64), v, IntToDecimal(i)) == Coerced(VInt(i), None)
    ensures SetValue(p, TUint(W64), v, NatToDecimal(u)) == Coerced(VUint(u), None)
    ensures SetValue(p, TDuration, v, s).err.None? <==> p.parseDuration(s).Some?
  {
    ParseIntOfDecimal(i);
    ParseUintOfDecimal(u);
  }

  /** A narrower integer field keeps the low bits of the parsed value. */
  lemma IntegerTruncation(p: Parsers, v: Value, w: IntWidth, i: int, s: string)
    requires ParseInt(s) == Some(i)
    ensures SetValue(p, TInt(w), v, s).err.None?
    ensures SignedFits(SetValue(p, TInt(w), v, s).value.i, w)
    ensures (SetValue(p, TInt(w), v, s).value.i - i) % UnsignedLimit(w) == 0
  {
  }

  /** An int, uint or bool field fails exactly when its parser rejects
      the text; the error carries the text, and the field keeps its
      value. */
  lemma ParseFailures(p: Parsers, w: IntWidth, v: Value, s: string)
    ensures SetValue(p, TInt(w), v, s).err.Some? <==> ParseInt(s).None?
    ensures ParseInt(s).None? ==> SetValue(p, TInt(w), v, s) == Coerced(v, Some(InvalidInt(s)))
    ensures SetValue(p, TUint(w), v, s).err.Some? <==> ParseUint(s).None?
    ensures ParseUint(s).None? ==> SetValue(p, TUint(w), v, s) == Coerced(v, Some(InvalidUint(s)))
    ensures SetValue(p, TBool, v, s).err.Some? <==> s !in TrueLiterals + FalseLiterals
    ensures s !in TrueLiterals + FalseLiterals ==> SetValue(p, TBool, v, s) == Coerced(v, Some(InvalidBool(s)))
  {
  }

  /** A slice field gets one element per comma-separated part (one more
      than the commas), each part trimmed and coerced into a zero element;
      on a failing part the field keeps its old value and the error names
      the first failing part's index. */
  lemma SliceSpec(p: Parsers, e: Type, v: Value, s: string)
    ensures var r := SetValue(p, TSlice(e), v, s);
            var parts := Split(s, ',');
            var cs := Elements(p, e, parts);
            && |parts| == Count(s, ',') + 1
            && (r.err.None? <==> forall k :: 0 <= k < |parts| ==> cs[k].err.None?)
            && (r.err.None? ==>
                 && r.value.VSlice? && r.value.items.Some?
                 && |r.value.items.value| == |parts|
                 && forall k :: 0 <= k < |parts| ==> r.value.items.value[k] == cs[k].value)
            && (r.err.Some? ==>
                 && r.value == v
                 && FirstFailure(cs, 0) < |parts|
                 && r.err.value == InvalidElement(FirstFailure(cs, 0), cs[FirstFailure(cs, 0)].err.value))
  {
    var cs := Elements(p, e, Split(s, ','));
    SliceOutcome(p, e, v, s);
    SplitLength(s, ',');
    GatherSpec(cs);
  }

  /** The outcome of the whole loop: every value in order, or the first
      failure. */
  lemma GatherSpec(cs: seq<Coerced>)
    ensures Gather(cs, 0).Ok? <==> forall k :: 0 <= k < |cs| ==> cs[k].err.None?
    ensures Gather(cs, 0).Ok? ==> |Gather(cs, 0).value| == |cs| && forall k :: 0 <= k < |cs| ==> Gather(cs, 0).value[k] == cs[k].value
    ensures Gather(cs, 0).Err? ==> FirstFailure(cs, 0) < |cs| && Gather(cs, 0).err == InvalidElement(FirstFailure(cs, 0), cs[FirstFailure(cs, 0)].err.value)
  {
    GatherOk(cs, 0);
    if Gather(cs, 0).Ok? {
      GatherValues(cs, 0);
    } else {
      GatherErr(cs, 0);
    }
  }

  /** What a slice field is set to, given the outcome of its elements. */
  lemma SliceOutcome(p: Parsers, e: Type, v: Value, s: string)
    ensures var g := Gather(Elements(p, e, Split(s, ',')), 0);
            SetValue(p, TSlice(e), v, s) == if g.Ok? then Coerced(VSlice(Some(g.value)), None) else Coerced(v, Some(g.err))
  {
    var g := Gather(Elements(p, e, Split(s, ',')), 0);
    assert SetValue(p, TSlice(e), v, s) == match g
                                           case Ok(items) => Coerced(VSlice(Some(items)), None)
                                           case Err(err) => Coerced(v, Some(err));
  }

  /** Element k of a slice is the coerced, trimmed part k. */
  lemma ElementsSpec(p: Parsers, e: Type, parts: seq<string>, k: nat)
    requires k < |parts|
    ensures Elements(p, e, parts)[k] == Element(p, e, TrimSpace(parts[k]))
    ensures Element(p, e, TrimSpace(parts[k])) == SetValue(p, e, Zero(e), TrimSpace(parts[k]))
  {
  }

  /** A pointer field is allocated if nil, and the text is coerced into
      what it points to. */
  lemma PointerSpec(p: Parsers, e: Type, v: Value, s: string)
    ensures SetValue(p, TPtr(e), VPtr(None), s) == Coerced(VPtr(Some(SetValue(p, e, Zero(e), s).value)), SetValue(p, e, Zero(e), s).err)
    ensures SetValue(p, TPtr(e), VPtr(Some(v)), s) == Coerced(VPtr(Some(SetValue(p, e, v, s).value)), SetValue(p, e, v, s).err)
  {
  }
}
