/** The configuration manager of haconfig/config.go: a Config whose
    options New applies one by one, and whose methods walk a configuration
    struct in place. The struct a Go pointer designates is a Box whose
    field values Load reassigns. */
module Haconfig {
  import opened GoOption
  import opened GoStrings
  import opened GoResult
  import opened GoStrconv
  import opened HaconfigTypes
  import opened HaconfigNames
  import opened HaconfigCoerce
  import opened HaconfigWalk
  import opened HaconfigValidate

  /** The three ConfigOption constructors. */
  datatype ConfigOption =
    | WithEnvPrefix(prefix: string)
    | WithYAMLFile(file: string)
    | WithEnvMapping(mapping: map<string, string>)

  /** What New starts from: no prefix, no file, an empty mapping. */
  const Defaults := Settings("", "", map[])

  function ApplyOption(s: Settings, opt: ConfigOption): Settings
  {
    match opt
    case WithEnvPrefix(x) => s.(envPrefix := x)
    case WithYAMLFile(x) => s.(yamlFile := x)
    case WithEnvMapping(m) => s.(envMapping := m)
  }

  /** The options applied in order. */
  function ApplyOptions(s: Settings, opts: seq<ConfigOption>): Settings
  {
    if opts == [] then s else ApplyOption(ApplyOptions(s, opts[..|opts| - 1]), opts[|opts| - 1])
  }

  /** Applying two lists of options is applying their concatenation. */
  lemma {:induction false} ApplyOptionsAppend(s: Settings, a: seq<ConfigOption>, b: seq<ConfigOption>)
    ensures ApplyOptions(s, a + b) == ApplyOptions(ApplyOptions(s, a), b)
    decreases |b|
  {
    if b == [] {
      assert a + b == a;
    } else {
      assert (a + b)[..|a + b| - 1] == a + b[..|b| - 1];
      ApplyOptionsAppend(s, a, b[..|b| - 1]);
    }
  }

  /** The last option of a kind wins, and options of the other kinds do
      not touch that setting. */
  lemma LastOptionWins(s: Settings, opts: seq<ConfigOption>, o: ConfigOption)
    ensures o.WithEnvPrefix? ==> ApplyOptions(s, opts + [o]) == ApplyOptions(s, opts).(envPrefix := o.prefix)
    ensures o.WithYAMLFile? ==> ApplyOptions(s, opts + [o]) == ApplyOptions(s, opts).(yamlFile := o.file)
    ensures o.WithEnvMapping? ==> ApplyOptions(s, opts + [o]) == ApplyOptions(s, opts).(envMapping := o.mapping)
  {
    assert (opts + [o])[..|opts + [o]| - 1] == opts;
  }

  /** The error text Validate returns for a missing required field. */
  function RequiredMessage(path: string): string
  {
    "required field is empty: " + path
  }

  /** A struct behind a pointer: its field list and field values. */
  class Box {
    const fields: seq<Field>
    var vals: seq<Value>

    predicate Valid()
      reads this
    {
      |vals| == |fields|
    }

    constructor (fields: seq<Field>, vals: seq<Value>)
      requires |vals| == |fields|
      ensures this.fields == fields && this.vals == vals
      ensures Valid()
    {
      this.fields := fields;
      this.vals := vals;
    }
  }

  /** What Load and Validate can be handed: nil, a pointer to a struct, a
      struct by value, or anything else (including a nil pointer and a
      pointer to a non-struct). */
  datatype Target =
    | NilTarget
    | StructPointer(box: Box)
    | StructValue(fields: seq<Field>, vals: seq<Value>)
    | OtherTarget

  /** Reading and decoding the YAML file, which is not modelled: the file
      is missing, could not be read, or was decoded into the struct, with
      the values it left there and the decoder's error if any. */
  datatype YamlOutcome =
    | Missing
    | ReadFailed(readCause: string)
    | Decoded(decoded: seq<Value>, decodeErr: Option<string>)

  datatype LoadError =
    | NilConfig
    | NotStructPointer
    | YamlReadFailed(readCause: string)
    | YamlDecodeFailed(decodeCause: string)
    | EnvFailed(envErr: EnvError)

  function LoadMessage(e: LoadError): string
  {
    match e
    case NilConfig => "config cannot be nil"
    case NotStructPointer => "config must be a pointer to struct"
    case YamlReadFailed(c) => "failed to load YAML: failed to read YAML file: " + c
    case YamlDecodeFailed(c) => "failed to load YAML: failed to unmarshal YAML: " + c
    case EnvFailed(w) => "failed to load from env: " + EnvMessage(w)
  }

  /** The struct after Load, and Load's error. */
  datatype Loaded = Loaded(vals: seq<Value>, err: Option<LoadError>)

  /** loadFromYAML: a missing file is skipped. */
  function YamlRead(vals: seq<Value>, yaml: YamlOutcome): Loaded
  {
    match yaml
    case Missing => Loaded(vals, None)
    case ReadFailed(c) => Loaded(vals, Some(YamlReadFailed(c)))
    case Decoded(dv, None) => Loaded(dv, None)
    case Decoded(dv, Some(c)) => Loaded(dv, Some(YamlDecodeFailed(c)))
  }

  /** Load's YAML stage: only when a file is named. */
  function YamlStep(st: Settings, vals: seq<Value>, yaml: YamlOutcome): Loaded
  {
    if st.yamlFile == "" then Loaded(vals, None) else YamlRead(vals, yaml)
  }

  /** Load on a pointer to a struct: YAML first, then the environment. */
  function LoadSpec(st: Settings, env: Env, p: Parsers, fields: seq<Field>, vals: seq<Value>, yaml: YamlOutcome): Loaded
    requires |vals| == |fields|
    requires yaml.Decoded? ==> |yaml.decoded| == |fields|
  {
    var y := YamlStep(st, vals, yaml);
    if y.err.Some? then y
    else
      var w := ProcessFields(st, env, p, fields, y.vals, "");
      Loaded(w.vals, if w.err.Some? then Some(EnvFailed(w.err.value)) else None)
  }

  class Config {
    var envPrefix: string
    var yamlFile: string
    var envMapping: map<string, string>

    function Settings(): Settings
      reads this
    {
      HaconfigWalk.Settings(envPrefix, yamlFile, envMapping)
    }

    /** New: the defaults, then each option in turn. */
    constructor New(opts: seq<ConfigOption>)
      ensures Settings() == ApplyOptions(Defaults, opts)
    {
      envPrefix := "";
      yamlFile := "";
      envMapping := map[];
      new;
      for i := 0 to |opts|
        invariant Settings() == ApplyOptions(Defaults, opts[..i])
      {
        assert opts[..i + 1][..i] == opts[..i];
        Configure(opts[i]);
      }
      assert opts[..|opts|] == opts;
    }

    /** Running one option's closure on the Config. */
    method Configure(opt: ConfigOption)
      modifies this
      ensures Settings() == ApplyOption(old(Settings()), opt)
    {
      match opt
      case WithEnvPrefix(x) => envPrefix := x;
      case WithYAMLFile(x) => yamlFile := x;
      case WithEnvMapping(m) => envMapping := m;
    }

    /** setFieldValue, with the time layouts tried in a loop. */
    method SetFieldValue(p: Parsers, t: Type, v: Value, s: string) returns (nv: Value, err: Option<CoerceError>)
      ensures Coerced(nv, err) == SetValue(p, t, v, s)
      decreases t, 0
    {
      match t
      case TString =>
        nv, err := VString(s), None;
      case TBool =>
        var b := ParseBool(s);
        if b.None? {
          return v, Some(InvalidBool(s));
        }
        nv, err := VBool(b.value), None;
      case TDuration =>
        var d := p.parseDuration(s);
        if d.None? {
          return v, Some(InvalidDuration(s));
        }
        nv, err := VInt(d.value), None;
      case TInt(w) =>
        var i := ParseInt(s);
        if i.None? {
          return v, Some(InvalidInt(s));
        }
        nv, err := VInt(WrapSigned(i.value, w)), None;
      case TUint(w) =>
        var u := ParseUint(s);
        if u.None? {
          return v, Some(InvalidUint(s));
        }
        nv, err := VUint(WrapUnsigned(u.value, w)), None;
      case TFloat32 =>
        var f := p.parseFloat(s);
        if f.None? {
          return v, Some(InvalidFloat(s));
        }
        nv, err := VFloat(p.toFloat32(f.value)), None;
      case TFloat64 =>
        var f := p.parseFloat(s);
        if f.None? {
          return v, Some(InvalidFloat(s));
        }
        nv, err := VFloat(f.value), None;
      case TSlice(e) =>
        nv, err := SetSliceValue(p, e, v, s);
      case TPtr(e) =>
        var inner := if v.VPtr? && v.ptr.Some? then v.ptr.value else Zero(e);
        var x;
        x, err := SetFieldValue(p, e, inner, s);
        nv := VPtr(Some(x));
      case TTime =>
        var tv := p.parseTime(RFC3339, s);
        if tv.None? {
          var i := 0;
          while i < |FallbackLayouts| && tv.None?
            invariant 0 <= i <= |FallbackLayouts|
            invariant tv.None? ==> ParseFallback(p, s, 0) == ParseFallback(p, s, i)
            invariant tv.Some? ==> tv == ParseFallback(p, s, 0)
            decreases |FallbackLayouts| - i
          {
            tv := p.parseTime(FallbackLayouts[i], s);
            i := i + 1;
          }
          if tv.None? {
            return v, Some(InvalidTime(s));
          }
        }
        nv, err := VTime(tv.value), None;
      case TStruct(_) =>
        nv, err := v, None;
      case TOther(k) =>
        nv, err := v, Some(Unsupported(k));
    }

    /** setSliceValue: the field is assigned only once every part has
        coerced. */
    method SetSliceValue(p: Parsers, e: Type, v: Value, s: string) returns (nv: Value, err: Option<CoerceError>)
      ensures Coerced(nv, err) == SetValue(p, TSlice(e), v, s)
      decreases e, 3
    {
      var parts := Split(s, ',');
      var r := FillSlice(p, e, parts);
      SliceOutcome(p, e, v, s);
      if r.Ok? {
        nv, err := VSlice(Some(r.value)), None;
      } else {
        nv, err := v, Some(r.err);
      }
    }

    /** setSliceValue's loop: element i of a fresh slice of zero elements
        is set from part i, until a part fails to coerce. */
    method FillSlice(p: Parsers, e: Type, parts: seq<string>) returns (r: Result<seq<Value>, CoerceError>)
      ensures r == Gather(Elements(p, e, parts), 0)
      decreases e, 2
    {
      ghost var cs := Elements(p, e, parts);
      var items: seq<Value> := [];
      AttachNothing(Gather(cs, 0));
      for i := 0 to |parts|
        invariant |items| == i
        invariant Gather(cs, 0) == Attach(items, Gather(cs, i))
      {
        var x, ex := SetElement(p, e, parts, i);
        FillTurn(cs, items, i, Coerced(x, ex));
        if ex.Some? {
          return Err(InvalidElement(i, ex.value));
        }
        items := items + [x];
      }
      FillDone(cs, items);
      return Ok(items);
    }

    /** setFieldValue on element i of a fresh slice, from part i. */
    method SetElement(p: Parsers, e: Type, parts: seq<string>, i: nat) returns (x: Value, ex: Option<CoerceError>)
      requires i < |parts|
      ensures Coerced(x, ex) == Elements(p, e, parts)[i]
      decreases e, 1
    {
      x, ex := SetFieldValue(p, e, Zero(e), TrimSpace(parts[i]));
    }

    /** setFieldFromEnv: nothing happens when the variable is unset or
        empty. */
    method SetFieldFromEnv(p: Parsers, env: Env, t: Type, v: Value, envName: string) returns (nv: Value, err: Option<CoerceError>)
      ensures Getenv(env, envName) == "" ==> nv == v && err.None?
      ensures Getenv(env, envName) != "" ==> Coerced(nv, err) == SetValue(p, t, v, Getenv(env, envName))
    {
      var envValue := Getenv(env, envName);
      if envValue == "" {
        return v, None;
      }
      nv, err := SetFieldValue(p, t, v, envValue);
    }

    /** hasAnyEnvVar: returns as soon as a set variable is found. */
    method HasAnyEnvVar(env: Env, fs: seq<Field>, prefix: string) returns (found: bool)
      ensures found == AnyEnvVar(Settings(), env, fs, prefix, 0)
      decreases fs
    {
      for i := 0 to |fs|
        invariant AnyEnvVar(Settings(), env, fs, prefix, 0) == AnyEnvVar(Settings(), env, fs, prefix, i)
      {
        var f := fs[i];
        if f.typ.TStruct? {
          found := HasAnyEnvVar(env, f.typ.fields, BuildPrefix(prefix, f.name));
          if found {
            return;
          }
        } else if f.typ.TPtr? && f.typ.target.TStruct? {
          found := HasAnyEnvVar(env, f.typ.target.fields, BuildPrefix(prefix, f.name));
          if found {
            return;
          }
        } else if !(f.typ.TPtr? && f.typ.target.TTime?) {
          var envName := EnvName(envPrefix, f.name, prefix);
          if f.name in envMapping {
            envName := envMapping[f.name];
          }
          if Getenv(env, envName) != "" {
            return true;
          }
        }
      }
      return false;
    }

    /** processStruct: each field in turn, updated in place; the first
        error is returned at once, with the fields already set left
        set. */
    method ProcessStruct(p: Parsers, env: Env, fs: seq<Field>, vals: seq<Value>, prefix: string) returns (out: seq<Value>, err: Option<EnvError>)
      requires |vals| == |fs|
      ensures Walked(out, err) == ProcessFields(Settings(), env, p, fs, vals, prefix)
      decreases fs, 1
    {
      ghost var cs := Turns(Settings(), env, p, fs, vals, prefix);
      out := vals;
      for i := 0 to |fs|
        invariant |out| == |fs|
        invariant forall k :: i <= k < |fs| ==> out[k] == vals[k]
        invariant Apply(cs, vals, 0) == Apply(cs, out, i)
      {
        var nv, e := ProcessField(p, env, fs[i], out[i], prefix);
        assert Stepped(nv, e) == cs[i];
        ApplyStep(cs, out, i);
        out := out[i := nv];
        if e.Some? {
          return out, e;
        }
      }
      err := None;
    }

    /** One turn of processStruct's loop, on field f holding v: a nested
        struct is walked under the field's prefix, a struct pointer only
        when a variable beneath it is set (allocating it if nil), a
        *time.Time never, and any other field is set from its variable. */
    method ProcessField(p: Parsers, env: Env, f: Field, v: Value, prefix: string) returns (nv: Value, e: Option<EnvError>)
      ensures Stepped(nv, e) == StepField(Settings(), env, p, f, v, prefix)
      decreases f, 0
    {
      var np := BuildPrefix(prefix, f.name);
      nv, e := v, None;
      if f.typ.TStruct? {
        var sub;
        sub, e := ProcessStruct(p, env, f.typ.fields, StructVals(f.typ.fields, v), np);
        nv := VStruct(sub);
      } else if f.typ.TPtr? && f.typ.target.TStruct? {
        var any := HasAnyEnvVar(env, f.typ.target.fields, np);
        if any {
          var cur := if v.VPtr? && v.ptr.Some? then v.ptr.value else Zero(f.typ.target);
          var sub;
          sub, e := ProcessStruct(p, env, f.typ.target.fields, StructVals(f.typ.target.fields, cur), np);
          nv := VPtr(Some(VStruct(sub)));
        }
      } else if !(f.typ.TPtr? && f.typ.target.TTime?) {
        nv, e := ProcessLeaf(p, env, f, v, prefix);
      }
    }

    /** A leaf field: its variable name, overridden by the mapping, and
        the field set from that variable. */
    method ProcessLeaf(p: Parsers, env: Env, f: Field, v: Value, prefix: string) returns (nv: Value, e: Option<EnvError>)
      ensures Stepped(nv, e) == LeafStep(Settings(), env, p, f, v, prefix)
    {
      var envName := EnvName(envPrefix, f.name, prefix);
      if f.name in envMapping {
        envName := envMapping[f.name];
      }
      var ce;
      nv, ce := SetFieldFromEnv(p, env, f.typ, v, envName);
      e := None;
      if ce.Some? {
        e := Some(SetFieldFailed(f.name, ce.value));
      }
    }

    /** validateStruct: returns the path of the first required field that
        is zero. It reads the struct and changes nothing. */
    method ValidateStruct(fs: seq<Field>, vals: seq<Value>, prefix: string) returns (missing: Option<string>)
      requires |vals| == |fs|
      ensures missing == MissingFrom(fs, vals, prefix, 0)
      decreases fs
    {
      for i := 0 to |fs|
        invariant MissingFrom(fs, vals, prefix, 0) == MissingFrom(fs, vals, prefix, i)
      {
        var f := fs[i];
        var v := vals[i];
        var fieldPath := BuildFieldPath(prefix, f.name);
        if f.required && IsZeroValue(f.typ, v) {
          return Some(fieldPath);
        }
        if f.typ.TStruct? {
          missing := ValidateStruct(f.typ.fields, StructVals(f.typ.fields, v), fieldPath);
          if missing.Some? {
            return;
          }
        }
        if f.typ.TPtr? && f.typ.target.TStruct? && v.VPtr? && v.ptr.Some? {
          missing := ValidateStruct(f.typ.target.fields, StructVals(f.typ.target.fields, v.ptr.value), fieldPath);
          if missing.Some? {
            return;
          }
        }
      }
      return None;
    }

    /** loadFromYAML into the box. */
    method LoadFromYAML(box: Box, yaml: YamlOutcome) returns (err: Option<LoadError>)
      requires box.Valid() && (yaml.Decoded? ==> |yaml.decoded| == |box.fields|)
      modifies box
      ensures box.Valid()
      ensures Loaded(box.vals, err) == YamlRead(old(box.vals), yaml)
    {
      match yaml
      case Missing =>
        err := None;
      case ReadFailed(c) =>
        err := Some(YamlReadFailed(c));
      case Decoded(dv, de) =>
        box.vals := dv;
        err := if de.Some? then Some(YamlDecodeFailed(de.value)) else None;
    }

    /** loadFromEnv into the box. */
    method LoadFromEnvInto(p: Parsers, env: Env, box: Box) returns (err: Option<EnvError>)
      requires box.Valid()
      modifies box
      ensures box.Valid()
      ensures Walked(box.vals, err) == ProcessFields(Settings(), env, p, box.fields, old(box.vals), "")
    {
      var out;
      out, err := ProcessStruct(p, env, box.fields, box.vals, "");
      box.vals := out;
    }

    /** Load: the target is checked before anything is read; then the
        YAML file, if one is named, then the environment. */
    method Load(target: Target, env: Env, p: Parsers, yaml: YamlOutcome) returns (err: Option<LoadError>)
      requires target.StructPointer? ==> target.box.Valid()
      requires target.StructPointer? && yaml.Decoded? ==> |yaml.decoded| == |target.box.fields|
      modifies if target.StructPointer? then {target.box} else {}
      ensures target.NilTarget? ==> err == Some(NilConfig)
      ensures !target.NilTarget? && !target.StructPointer? ==> err == Some(NotStructPointer)
      ensures target.StructPointer? ==>
                && target.box.Valid()
                && Loaded(target.box.vals, err) == LoadSpec(Settings(), env, p, target.box.fields, old(target.box.vals), yaml)
    {
      if target.NilTarget? {
        return Some(NilConfig);
      }
      if !target.StructPointer? {
        return Some(NotStructPointer);
      }
      var box := target.box;
      if yamlFile != "" {
        err := LoadFromYAML(box, yaml);
        if err.Some? {
          return;
        }
      }
      var e := LoadFromEnvInto(p, env, box);
      err := if e.Some? then Some(EnvFailed(e.value)) else None;
    }

    /** MustLoad panics when Load fails, so it may only be called where
        Load succeeds. */
    method MustLoad(target: Target, env: Env, p: Parsers, yaml: YamlOutcome)
      requires target.StructPointer? && target.box.Valid()
      requires yaml.Decoded? ==> |yaml.decoded| == |target.box.fields|
      requires LoadSpec(Settings(), env, p, target.box.fields, target.box.vals, yaml).err.None?
      modifies target.box
      ensures target.box.vals == LoadSpec(Settings(), env, p, target.box.fields, old(target.box.vals), yaml).vals
    {
      var err := Load(target, env, p, yaml);
    }

    /** Validate: through a pointer or on a struct value. */
    method Validate(target: Target) returns (err: Option<string>)
      requires target.StructPointer? ==> target.box.Valid()
      requires target.StructPointer? || (target.StructValue? && |target.vals| == |target.fields|)
      ensures target.StructPointer? ==>
                err == (var m := MissingFrom(target.box.fields, target.box.vals, "", 0); if m.Some? then Some(RequiredMessage(m.value)) else None)
      ensures target.StructValue? ==>
                err == (var m := MissingFrom(target.fields, target.vals, "", 0); if m.Some? then Some(RequiredMessage(m.value)) else None)
    {
      var missing;
      if target.StructPointer? {
        missing := ValidateStruct(target.box.fields, target.box.vals, "");
      } else {
        missing := ValidateStruct(target.fields, target.vals, "");
      }
      err := if missing.Some? then Some(RequiredMessage(missing.value)) else None;
    }
  }

  /** One turn of processStruct's loop: the field takes the turn's value,
      and the loop stops if the turn failed. */
  lemma ApplyStep(cs: seq<Stepped>, vals: seq<Value>, i: nat)
    requires i < |cs| == |vals|
    ensures cs[i].err.Some? ==> Apply(cs, vals, i) == Walked(vals[i := cs[i].value], cs[i].err)
    ensures cs[i].err.None? ==> Apply(cs, vals, i) == Apply(cs, vals[i := cs[i].value], i + 1)
  {
  }

  /** The elements already set, in front of the outcome of the rest. */
  function Attach(items: seq<Value>, rest: Result<seq<Value>, CoerceError>): Result<seq<Value>, CoerceError>
  {
    if rest.Ok? then Ok(items + rest.value) else rest
  }

  lemma AttachNothing(r: Result<seq<Value>, CoerceError>)
    ensures Attach([], r) == r
  {
    if r.Ok? {
      assert [] + r.value == r.value;
    }
  }

  lemma AttachTwice(a: seq<Value>, b: seq<Value>, r: Result<seq<Value>, CoerceError>)
    ensures Attach(a, Attach(b, r)) == Attach(a + b, r)
  {
    if r.Ok? {
      assert a + (b + r.value) == (a + b) + r.value;
    }
  }

  /** One turn of setSliceValue's loop, on the outcome c of element i. */
  lemma FillTurn(cs: seq<Coerced>, items: seq<Value>, i: nat, c: Coerced)
    requires i < |cs| && c == cs[i]
    requires Gather(cs, 0) == Attach(items, Gather(cs, i))
    ensures c.err.Some? ==> Gather(cs, 0) == Err(InvalidElement(i, c.err.value))
    ensures c.err.None? ==> Gather(cs, 0) == Attach(items + [c.value], Gather(cs, i + 1))
  {
    GatherStep(cs, i);
    AttachTwice(items, [c.value], Gather(cs, i + 1));
  }

  /** After the last element, the slice is complete. */
  lemma FillDone(cs: seq<Coerced>, items: seq<Value>)
    requires Gather(cs, 0) == Attach(items, Gather(cs, |cs|))
    ensures Gather(cs, 0) == Ok(items)
  {
    assert items + [] == items;
  }

  /** One turn of Gather: a failing element ends it, any other is put in
      front of the rest. */
  lemma GatherStep(cs: seq<Coerced>, i: nat)
    requires i < |cs|
    ensures cs[i].err.Some? ==> Gather(cs, i) == Err(InvalidElement(i, cs[i].err.value))
    ensures cs[i].err.None? ==> Gather(cs, i) == Attach([cs[i].value], Gather(cs, i + 1))
  {
  }

  /** LoadFromFile: a Config whose file is the given one (unless a later
      option names another), then Load. */
  method LoadFromFile(file: string, target: Target, opts: seq<ConfigOption>, env: Env, p: Parsers, yaml: YamlOutcome) returns (err: Option<LoadError>)
    requires target.StructPointer? ==> target.box.Valid()
    requires target.StructPointer? && yaml.Decoded? ==> |yaml.decoded| == |target.box.fields|
    modifies if target.StructPointer? then {target.box} else {}
    ensures target.NilTarget? ==> err == Some(NilConfig)
    ensures !target.NilTarget? && !target.StructPointer? ==> err == Some(NotStructPointer)
    ensures target.StructPointer? ==>
              Loaded(target.box.vals, err) == LoadSpec(ApplyOptions(Defaults, [WithYAMLFile(file)] + opts), env, p, target.box.fields, old(target.box.vals), yaml)
  {
    var config := new Config.New([WithYAMLFile(file)] + opts);
    err := config.Load(target, env, p, yaml);
  }

  /** LoadFromEnv skips the YAML file and the checks of Load: handed
      anything but a pointer to a struct, the Go code panics. Its error is
      processStruct's, unwrapped. */
  method LoadFromEnv(target: Target, opts: seq<ConfigOption>, env: Env, p: Parsers) returns (err: Option<EnvError>)
    requires target.StructPointer? && target.box.Valid()
    modifies target.box
    ensures Walked(target.box.vals, err) == ProcessFields(ApplyOptions(Defaults, opts), env, p, target.box.fields, old(target.box.vals), "")
  {
    var config := new Config.New(opts);
    err := config.LoadFromEnvInto(p, env, target.box);
  }
}
