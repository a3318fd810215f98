/** The environment half of loading: processStruct, hasAnyEnvVar and
    setFieldFromEnv of haconfig/config.go, as functions over a struct's
    field list and its field values. The process environment is a map in
    which an unset variable and an empty one read alike. */
module HaconfigWalk {
  import opened GoOption
  import opened GoStrings
  import opened HaconfigTypes
  import opened HaconfigNames
  import opened HaconfigCoerce

  /** The options of a Config that loading reads. */
  datatype Settings = Settings(envPrefix: string, yamlFile: string, envMapping: map<string, string>)

  type Env = map<string, string>

  /** os.Getenv: an unset variable reads as "". */
  function Getenv(env: Env, name: string): string
  {
    if name in env then env[name] else ""
  }

  /** The variable a leaf field is read from: the custom mapping of the
      bare field name when there is one, otherwise the derived name. */
  function ResolvedName(st: Settings, fieldName: string, prefix: string): string
  {
    if fieldName in st.envMapping then st.envMapping[fieldName] else EnvName(st.envPrefix, fieldName, prefix)
  }

  /** A pointer to a struct or to a time.Time: processStruct allocates it
      only when a variable beneath it is set. */
  predicate IsStructPtr(t: Type)
  {
    t.TPtr? && (t.target.TStruct? || t.target.TTime?)
  }

  /** A field processStruct hands to setFieldFromEnv. */
  predicate IsLeaf(t: Type)
  {
    !t.TStruct? && !IsStructPtr(t)
  }

  /** hasAnyEnvVar over the fields from index i on. The exported fields of
      time.Time are none, so a *time.Time has no variable beneath it. */
  function AnyEnvVar(st: Settings, env: Env, fs: seq<Field>, prefix: string, i: nat): bool
    requires i <= |fs|
    decreases fs, |fs| - i
  {
    if i == |fs| then false
    else
      var f := fs[i];
      var found :=
        if f.typ.TStruct? then AnyEnvVar(st, env, f.typ.fields, BuildPrefix(prefix, f.name), 0)
        else if f.typ.TPtr? && f.typ.target.TStruct? then AnyEnvVar(st, env, f.typ.target.fields, BuildPrefix(prefix, f.name), 0)
        else if f.typ.TPtr? && f.typ.target.TTime? then false
        else Getenv(env, ResolvedName(st, f.name, prefix)) != "";
      found || AnyEnvVar(st, env, fs, prefix, i + 1)
  }

  /** The variables of every leaf beneath the fields from index i on,
      through nested structs and struct pointers alike. */
  function LeafNames(st: Settings, fs: seq<Field>, prefix: string, i: nat): seq<string>
    requires i <= |fs|
    decreases fs, |fs| - i
  {
    if i == |fs| then []
    else
      var f := fs[i];
      var mine :=
        if f.typ.TStruct? then LeafNames(st, f.typ.fields, BuildPrefix(prefix, f.name), 0)
        else if f.typ.TPtr? && f.typ.target.TStruct? then LeafNames(st, f.typ.target.fields, BuildPrefix(prefix, f.name), 0)
        else if f.typ.TPtr? && f.typ.target.TTime? then []
        else [ResolvedName(st, f.name, prefix)];
      mine + LeafNames(st, fs, prefix, i + 1)
  }

  /** hasAnyEnvVar holds exactly when one of the leaf variables beneath is
      set to something non-empty. */
  lemma {:induction false} AnyEnvVarIsSomeLeaf(st: Settings, env: Env, fs: seq<Field>, prefix: string, i: nat)
    requires i <= |fs|
    ensures AnyEnvVar(st, env, fs, prefix, i) <==> exists n :: n in LeafNames(st, fs, prefix, i) && Getenv(env, n) != ""
    decreases fs, |fs| - i
  {
    if i < |fs| {
      var f := fs[i];
      AnyEnvVarIsSomeLeaf(st, env, fs, prefix, i + 1);
      if f.typ.TStruct? {
        AnyEnvVarIsSomeLeaf(st, env, f.typ.fields, BuildPrefix(prefix, f.name), 0);
      } else if f.typ.TPtr? && f.typ.target.TStruct? {
        AnyEnvVarIsSomeLeaf(st, env, f.typ.target.fields, BuildPrefix(prefix, f.name), 0);
      }
    }
  }

  /** The error processStruct returns: the leaf field whose value did not
      coerce. Errors from nested structs are passed up unchanged. */
  datatype EnvError = SetFieldFailed(field: string, cause: CoerceError)

  function EnvMessage(e: EnvError): string
  {
    "failed to set field " + e.field + ": " + CoerceMessage(e.cause)
  }

  /** The value of one field after its turn in processStruct's loop, and
      the error of that turn. */
  datatype Stepped = Stepped(value: Value, err: Option<EnvError>)

  /** The struct's field values after processStruct, and its error. */
  datatype Walked = Walked(vals: seq<Value>, err: Option<EnvError>)

  /** setFieldFromEnv for a leaf: an empty variable leaves the field as it
      is; otherwise the text is coerced and an error names the field. */
  function LeafStep(st: Settings, env: Env, p: Parsers, f: Field, v: Value, prefix: string): Stepped
  {
    var ev := Getenv(env, ResolvedName(st, f.name, prefix));
    if ev == "" then Stepped(v, None)
    else
      var c := SetValue(p, f.typ, v, ev);
      Stepped(c.value, if c.err.Some? then Some(SetFieldFailed(f.name, c.err.value)) else None)
  }

  /** One turn of processStruct's loop, on field f holding v. */
  function StepField(st: Settings, env: Env, p: Parsers, f: Field, v: Value, prefix: string): Stepped
    decreases f
  {
    var np := BuildPrefix(prefix, f.name);
    if f.typ.TStruct? then
      var w := ProcessFields(st, env, p, f.typ.fields, StructVals(f.typ.fields, v), np);
      Stepped(VStruct(w.vals), w.err)
    else if f.typ.TPtr? && f.typ.target.TStruct? then
      var sub := f.typ.target.fields;
      if !AnyEnvVar(st, env, sub, np, 0) then Stepped(v, None)
      else
        var cur := if v.VPtr? && v.ptr.Some? then v.ptr.value else Zero(f.typ.target);
        var w := ProcessFields(st, env, p, sub, StructVals(sub, cur), np);
        Stepped(VPtr(Some(VStruct(w.vals))), w.err)
    else if f.typ.TPtr? && f.typ.target.TTime? then Stepped(v, None)
    else LeafStep(st, env, p, f, v, prefix)
  }

  /** The turn each field takes. A pointer's target is a value held in
      the field, so a turn reads and writes only its own field and sees
      the value the field had before the loop; in Go this holds when no
      two pointer fields share a target. */
  function Turns(st: Settings, env: Env, p: Parsers, fs: seq<Field>, vals: seq<Value>, prefix: string): (cs: seq<Stepped>)
    requires |vals| == |fs|
    ensures |cs| == |fs|
    decreases fs, 0
  {
    seq(|fs|, k requires 0 <= k < |fs| => StepField(st, env, p, fs[k], vals[k], prefix))
  }

  /** processStruct's loop from field i on: each turn's value is stored
      into its field, and the loop returns at the first turn that fails. */
  function Apply(cs: seq<Stepped>, vals: seq<Value>, i: nat): (r: Walked)
    requires i <= |cs| == |vals|
    ensures |r.vals| == |vals|
    decreases |cs| - i
  {
    if i == |cs| then Walked(vals, None)
    else
      var next := vals[i := cs[i].value];
      if cs[i].err.Some? then Walked(next, cs[i].err) else Apply(cs, next, i + 1)
  }

  /** processStruct on a struct's fields under an ancestor prefix. */
  function ProcessFields(st: Settings, env: Env, p: Parsers, fs: seq<Field>, vals: seq<Value>, prefix: string): (r: Walked)
    requires |vals| == |fs|
    ensures |r.vals| == |fs|
    decreases fs, 1
  {
    Apply(Turns(st, env, p, fs, vals, prefix), vals, 0)
  }

  /** The loop never goes back: fields before i are not touched. */
  lemma {:induction false} ApplyKeepsEarlier(cs: seq<Stepped>, vals: seq<Value>, i: nat)
    requires i <= |cs| == |vals|
    ensures forall k :: 0 <= k < i ==> Apply(cs, vals, i).vals[k] == vals[k]
    decreases |cs| - i
  {
    if i < |cs| && cs[i].err.None? {
      ApplyKeepsEarlier(cs, vals[i := cs[i].value], i + 1);
    }
  }

  /** Without an error every field from i on holds its turn's value. */
  lemma {:induction false} ApplySuccess(cs: seq<Stepped>, vals: seq<Value>, i: nat)
    requires i <= |cs| == |vals|
    requires Apply(cs, vals, i).err.None?
    ensures forall k :: i <= k < |cs| ==> cs[k].err.None? && Apply(cs, vals, i).vals[k] == cs[k].value
    decreases |cs| - i
  {
    if i < |cs| {
      var next := vals[i := cs[i].value];
      ApplySuccess(cs, next, i + 1);
      ApplyKeepsEarlier(cs, next, i + 1);
    }
  }

  /** The index of the first failing turn from i on, |cs| if none
      fails. */
  function FirstFailure(cs: seq<Stepped>, i: nat): (j: nat)
    requires i <= |cs|
    ensures i <= j <= |cs|
    ensures forall k :: i <= k < j ==> cs[k].err.None?
    ensures j < |cs| ==> cs[j].err.Some?
    decreases |cs| - i
  {
    if i == |cs| || cs[i].err.Some? then i else FirstFailure(cs, i + 1)
  }

  /** With an error the loop stopped at the first failing turn j: the
      fields from i to j hold their turns' values (the failing field
      keeps what its own turn did to it), the later fields are untouched,
      and the error is turn j's. */
  lemma {:induction false} ApplyFailure(cs: seq<Stepped>, vals: seq<Value>, i: nat)
    requires i <= |cs| == |vals|
    requires Apply(cs, vals, i).err.Some?
    ensures FirstFailure(cs, i) < |cs|
    ensures forall k :: i <= k <= FirstFailure(cs, i) ==> Apply(cs, vals, i).vals[k] == cs[k].value
    ensures forall k :: FirstFailure(cs, i) < k < |cs| ==> Apply(cs, vals, i).vals[k] == vals[k]
    ensures Apply(cs, vals, i).err == cs[FirstFailure(cs, i)].err
    decreases |cs| - i
  {
    var next := vals[i := cs[i].value];
    if cs[i].err.None? {
      ApplyFailure(cs, next, i + 1);
      ApplyKeepsEarlier(cs, next, i + 1);
    }
  }

  /** When every turn leaves its field as it was and succeeds, the loop
      changes nothing. */
  lemma {:induction false} ApplyQuiet(cs: seq<Stepped>, vals: seq<Value>, i: nat)
    requires i <= |cs| == |vals|
    requires forall k :: i <= k < |cs| ==> cs[k] == Stepped(vals[k], None)
    ensures Apply(cs, vals, i) == Walked(vals, None)
    decreases |cs| - i
  {
    if i < |cs| {
      assert vals[i := cs[i].value] == vals;
      ApplyQuiet(cs, vals, i + 1);
    }
  }

  /** When every stored value is a value of its field's type, so is the
      result. */
  lemma {:induction false} ApplyMatches(fs: seq<Field>, cs: seq<Stepped>, vals: seq<Value>, i: nat)
    requires i <= |cs| == |vals| == |fs|
    requires forall k :: 0 <= k < |fs| ==> Matches(fs[k].typ, vals[k])
    requires forall k :: i <= k < |fs| ==> Matches(fs[k].typ, cs[k].value)
    ensures forall k :: 0 <= k < |fs| ==> Matches(fs[k].typ, Apply(cs, vals, i).vals[k])
    decreases |cs| - i
  {
    if i < |cs| {
      var next := vals[i := cs[i].value];
      assert forall k :: 0 <= k < |fs| ==> Matches(fs[k].typ, next[k]);
      if cs[i].err.None? {
        ApplyMatches(fs, cs, next, i + 1);
      }
    }
  }

  /** With no variable set to anything non-empty, processStruct changes
      nothing and succeeds. */
  lemma {:induction false} QuietEnvChangesNothing(st: Settings, env: Env, p: Parsers, fs: seq<Field>, vals: seq<Value>, prefix: string)
    requires |vals| == |fs|
    requires forall n :: n in env ==> env[n] == ""
    requires Matches(TStruct(fs), VStruct(vals))
    ensures ProcessFields(st, env, p, fs, vals, prefix) == Walked(vals, None)
    decreases fs, 1
  {
    var cs := Turns(st, env, p, fs, vals, prefix);
    forall k | 0 <= k < |fs|
      ensures cs[k] == Stepped(vals[k], None)
    {
      QuietStep(st, env, p, fs[k], vals[k], prefix);
    }
    ApplyQuiet(cs, vals, 0);
  }

  lemma {:induction false} QuietStep(st: Settings, env: Env, p: Parsers, f: Field, v: Value, prefix: string)
    requires forall n :: n in env ==> env[n] == ""
    requires Matches(f.typ, v)
    ensures StepField(st, env, p, f, v, prefix) == Stepped(v, None)
    decreases f, 0
  {
    var np := BuildPrefix(prefix, f.name);
    if f.typ.TStruct? {
      QuietEnvChangesNothing(st, env, p, f.typ.fields, v.vals, np);
    } else if f.typ.TPtr? && f.typ.target.TStruct? {
      AnyEnvVarIsSomeLeaf(st, env, f.typ.target.fields, np, 0);
    }
  }

  /** The walk keeps the struct a value of its type. */
  lemma {:induction false} ProcessFieldsMatches(st: Settings, env: Env, p: Parsers, fs: seq<Field>, vals: seq<Value>, prefix: string)
    requires |vals| == |fs|
    requires Matches(TStruct(fs), VStruct(vals))
    ensures Matches(TStruct(fs), VStruct(ProcessFields(st, env, p, fs, vals, prefix).vals))
    decreases fs, 1
  {
    var cs := Turns(st, env, p, fs, vals, prefix);
    forall k | 0 <= k < |fs|
      ensures Matches(fs[k].typ, cs[k].value)
    {
      StepMatches(st, env, p, fs[k], vals[k], prefix);
    }
    ApplyMatches(fs, cs, vals, 0);
  }

  lemma {:induction false} StepMatches(st: Settings, env: Env, p: Parsers, f: Field, v: Value, prefix: string)
    requires Matches(f.typ, v)
    ensures Matches(f.typ, StepField(st, env, p, f, v, prefix).value)
    decreases f, 0
  {
    var np := BuildPrefix(prefix, f.name);
    if f.typ.TStruct? {
      ProcessFieldsMatches(st, env, p, f.typ.fields, v.vals, np);
    } else if f.typ.TPtr? && f.typ.target.TStruct? {
      var sub := f.typ.target.fields;
      if AnyEnvVar(st, env, sub, np, 0) {
        var cur := if v.ptr.Some? then v.ptr.value else Zero(f.typ.target);
        ProcessFieldsMatches(st, env, p, sub, StructVals(sub, cur), np);
      }
    } else if !(f.typ.TPtr? && f.typ.target.TTime?) {
      var ev := Getenv(env, ResolvedName(st, f.name, prefix));
      if ev != "" {
        SetValueMatches(p, f.typ, v, ev);
      }
    }
  }

  /** A pointer to a struct ends up allocated exactly when it already was
      or some leaf variable beneath it is set; when none is, the field is
      left exactly as it was. An allocated pointer is not replaced: the
      walk goes on into what it points to. */
  lemma PointerAllocation(st: Settings, env: Env, p: Parsers, f: Field, v: Value, prefix: string)
    requires f.typ.TPtr? && f.typ.target.TStruct? && v.VPtr?
    ensures var c := StepField(st, env, p, f, v, prefix);
            var np := BuildPrefix(prefix, f.name);
            var sub := f.typ.target.fields;
            && (c.value.VPtr? && c.value.ptr.Some? <==> v.ptr.Some? || AnyEnvVar(st, env, sub, np, 0))
            && (!AnyEnvVar(st, env, sub, np, 0) ==> c == Stepped(v, None))
            && (AnyEnvVar(st, env, sub, np, 0) ==>
                 var start := if v.ptr.Some? then v.ptr.value else Zero(f.typ.target);
                 var w := ProcessFields(st, env, p, sub, StructVals(sub, start), np);
                 c == Stepped(VPtr(Some(VStruct(w.vals))), w.err))
  {
  }

  /** A *time.Time field is never touched by the walk. */
  lemma TimePointerUntouched(st: Settings, env: Env, p: Parsers, f: Field, v: Value, prefix: string)
    requires f.typ == TPtr(TTime)
    ensures StepField(st, env, p, f, v, prefix) == Stepped(v, None)
  {
  }

  /** setFieldFromEnv handles every field that is neither a struct nor a
      pointer to one. */
  lemma LeafIsSetFromEnv(st: Settings, env: Env, p: Parsers, f: Field, v: Value, prefix: string)
    requires IsLeaf(f.typ)
    ensures StepField(st, env, p, f, v, prefix) == LeafStep(st, env, p, f, v, prefix)
  {
  }

  /** A leaf whose variable is unset or empty keeps its value (a value
      loaded from YAML survives); a set variable's coerced value replaces
      it, and a failed coercion is reported under the field's name. */
  lemma LeafRule(st: Settings, env: Env, p: Parsers, f: Field, v: Value, prefix: string)
    ensures var ev := Getenv(env, ResolvedName(st, f.name, prefix));
            var c := LeafStep(st, env, p, f, v, prefix);
            && (ev == "" ==> c == Stepped(v, None))
            && (ev != "" ==>
                 && c.value == SetValue(p, f.typ, v, ev).value
                 && (c.err.None? <==> SetValue(p, f.typ, v, ev).err.None?)
                 && (c.err.Some? ==> c.err.value == SetFieldFailed(f.name, SetValue(p, f.typ, v, ev).err.value)))
  {
  }

  /** A custom mapping keyed by the bare field name replaces the whole
      variable name, whatever the nesting and the global prefix. */
  lemma MappingReplacesName(st: Settings, fieldName: string, prefix: string, prefix': string)
    requires fieldName in st.envMapping
    ensures ResolvedName(st, fieldName, prefix) == st.envMapping[fieldName] == ResolvedName(st, fieldName, prefix')
  {
  }
}
