/** validateStruct of haconfig/config.go: the dotted path of the first
    field tagged required:"true" that holds its zero value, in declaration
    order, depth first. */
module HaconfigValidate {
  import opened GoOption
  import opened HaconfigTypes
  import opened HaconfigNames

  /** One turn of validateStruct's loop, for field f holding v at path:
      the field's own check, then the nested struct, then the struct a
      non-nil pointer points to. A *time.Time is not looked into: the
      fields of time.Time carry no tag. */
  function FieldMissing(f: Field, v: Value, path: string): Option<string>
    decreases f
  {
    if f.required && IsZeroValue(f.typ, v) then Some(path)
    else if f.typ.TStruct? then MissingFrom(f.typ.fields, StructVals(f.typ.fields, v), path, 0)
    else if f.typ.TPtr? && f.typ.target.TStruct? && v.VPtr? && v.ptr.Some? then
      MissingFrom(f.typ.target.fields, StructVals(f.typ.target.fields, v.ptr.value), path, 0)
    else None
  }

  /** validateStruct's loop from field i on: the first turn that reports
      a path ends the loop. */
  function MissingFrom(fs: seq<Field>, vals: seq<Value>, prefix: string, i: nat): Option<string>
    requires i <= |fs| && |vals| == |fs|
    decreases fs, |fs| - i
  {
    if i == |fs| then None
    else
      var m := FieldMissing(fs[i], vals[i], BuildFieldPath(prefix, fs[i].name));
      if m.Some? then m else MissingFrom(fs, vals, prefix, i + 1)
  }

  /** Every violation beneath field f at path, in the order of the walk,
      as if the walk went on past each one. */
  function FieldAllMissing(f: Field, v: Value, path: string): seq<string>
    decreases f
  {
    var own := if f.required && IsZeroValue(f.typ, v) then [path] else [];
    var below :=
      if f.typ.TStruct? then AllMissing(f.typ.fields, StructVals(f.typ.fields, v), path, 0)
      else if f.typ.TPtr? && f.typ.target.TStruct? && v.VPtr? && v.ptr.Some? then
        AllMissing(f.typ.target.fields, StructVals(f.typ.target.fields, v.ptr.value), path, 0)
      else [];
    own + below
  }

  /** Every violation beneath the fields from i on, in walk order. */
  function AllMissing(fs: seq<Field>, vals: seq<Value>, prefix: string, i: nat): seq<string>
    requires i <= |fs| && |vals| == |fs|
    decreases fs, |fs| - i
  {
    if i == |fs| then []
    else FieldAllMissing(fs[i], vals[i], BuildFieldPath(prefix, fs[i].name)) + AllMissing(fs, vals, prefix, i + 1)
  }

  /** Validation fails exactly when there is a violation, and it reports
      the first one. */
  lemma {:induction false} MissingIsFirstViolation(fs: seq<Field>, vals: seq<Value>, prefix: string, i: nat)
    requires i <= |fs| && |vals| == |fs|
    ensures var all := AllMissing(fs, vals, prefix, i);
            MissingFrom(fs, vals, prefix, i) == if all == [] then None else Some(all[0])
    decreases fs, |fs| - i
  {
    if i < |fs| {
      FieldMissingIsFirst(fs[i], vals[i], BuildFieldPath(prefix, fs[i].name));
      MissingIsFirstViolation(fs, vals, prefix, i + 1);
    }
  }

  lemma {:induction false} FieldMissingIsFirst(f: Field, v: Value, path: string)
    ensures var all := FieldAllMissing(f, v, path);
            FieldMissing(f, v, path) == if all == [] then None else Some(all[0])
    decreases f
  {
    if f.typ.TStruct? {
      MissingIsFirstViolation(f.typ.fields, StructVals(f.typ.fields, v), path, 0);
    } else if f.typ.TPtr? && f.typ.target.TStruct? && v.VPtr? && v.ptr.Some? {
      MissingIsFirstViolation(f.typ.target.fields, StructVals(f.typ.target.fields, v.ptr.value), path, 0);
    }
  }

  /** A required field reports its own path when zero, before anything
      beneath it; a field that is not required, or not zero, reports only
      what is beneath it. */
  lemma OwnCheckFirst(f: Field, v: Value, path: string)
    ensures f.required && IsZeroValue(f.typ, v) ==> FieldMissing(f, v, path) == Some(path)
    ensures !(f.required && IsZeroValue(f.typ, v)) && !f.typ.TStruct? && !f.typ.TPtr? ==> FieldMissing(f, v, path).None?
  {
  }

  /** A nil struct pointer is skipped, whatever is required beneath it. */
  lemma NilPointerSkipped(f: Field, path: string)
    requires f.typ.TPtr? && !f.required
    ensures FieldMissing(f, VPtr(None), path).None?
  {
  }

  /** q is the path prefix, a dot and more. */
  predicate Extends(q: string, prefix: string)
  {
    |q| > |prefix| && q[..|prefix| + 1] == prefix + "."
  }

  /** Every path reported beneath a non-empty prefix is that prefix, a dot
      and more. */
  lemma {:induction false} PathsExtendPrefix(fs: seq<Field>, vals: seq<Value>, prefix: string, i: nat)
    requires i <= |fs| && |vals| == |fs|
    requires prefix != ""
    ensures forall path :: path in AllMissing(fs, vals, prefix, i) ==> Extends(path, prefix)
    decreases fs, |fs| - i
  {
    if i < |fs| {
      PathsExtendPrefix(fs, vals, prefix, i + 1);
      var path := BuildFieldPath(prefix, fs[i].name);
      FieldPathExtends(prefix, fs[i].name);
      FieldPathsExtend(fs[i], vals[i], path, prefix);
      AllExtend(FieldAllMissing(fs[i], vals[i], path), AllMissing(fs, vals, prefix, i + 1), prefix);
    }
  }

  lemma FieldPathExtends(prefix: string, name: string)
    requires prefix != ""
    ensures Extends(BuildFieldPath(prefix, name), prefix)
  {
    assert BuildFieldPath(prefix, name)[..|prefix| + 1] == prefix + ".";
  }

  lemma AllExtend(a: seq<string>, b: seq<string>, prefix: string)
    requires forall q :: q in a ==> Extends(q, prefix)
    requires forall q :: q in b ==> Extends(q, prefix)
    ensures forall q :: q in a + b ==> Extends(q, prefix)
  {
  }

  /** A path beneath a path beneath prefix is beneath prefix. */
  lemma ExtendsTransitive(q: string, path: string, prefix: string)
    requires Extends(q, path) && Extends(path, prefix)
    ensures Extends(q, prefix)
  {
    assert q[..|prefix| + 1] == q[..|path| + 1][..|prefix| + 1];
  }

  lemma {:induction false} FieldPathsExtend(f: Field, v: Value, path: string, prefix: string)
    requires Extends(path, prefix)
    ensures forall q :: q in FieldAllMissing(f, v, path) ==> Extends(q, prefix)
    decreases f
  {
    var below :=
      if f.typ.TStruct? then AllMissing(f.typ.fields, StructVals(f.typ.fields, v), path, 0)
      else if f.typ.TPtr? && f.typ.target.TStruct? && v.VPtr? && v.ptr.Some? then
        AllMissing(f.typ.target.fields, StructVals(f.typ.target.fields, v.ptr.value), path, 0)
      else [];
    if f.typ.TStruct? {
      PathsExtendPrefix(f.typ.fields, StructVals(f.typ.fields, v), path, 0);
    } else if f.typ.TPtr? && f.typ.target.TStruct? && v.VPtr? && v.ptr.Some? {
      PathsExtendPrefix(f.typ.target.fields, StructVals(f.typ.target.fields, v.ptr.value), path, 0);
    }
    forall q | q in below
      ensures Extends(q, prefix)
    {
      ExtendsTransitive(q, path, prefix);
    }
    var own := if f.required && IsZeroValue(f.typ, v) then [path] else [];
    AllExtend(own, below, prefix);
  }
}
