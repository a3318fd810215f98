/** The decisions of o4g_logger/colored_formatter.go: the colour codes,
    the level labels and message colours, the logger name, the timestamp
    layout, the field list, the caller suffix, and the two ways a
    ColoredFormatter writes a line. The clock, the process id and the
    goroutine count are parameters; entry.Time.Format is the parameter
    `stamp`, applied to the layout; a field value is given already rendered
    by fmt's %v. */
module O4gFormatter {
  import opened GoOption
  import opened GoStrings

  // ---------------------------------------------------------------------
  // ANSI colour codes
  // ---------------------------------------------------------------------

  const Esc: char := '\U{1B}'

  const Reset := "\U{1B}[0m"
  const Red := "\U{1B}[31m"
  const Green := "\U{1B}[32m"
  const Yellow := "\U{1B}[33m"
  const Blue := "\U{1B}[34m"
  const Magenta := "\U{1B}[35m"
  const Cyan := "\U{1B}[36m"
  const White := "\U{1B}[37m"
  const Gray := "\U{1B}[90m"
  const BoldRed := "\U{1B}[1;31m"
  const BoldGreen := "\U{1B}[1;32m"
  const BoldYellow := "\U{1B}[1;33m"
  const BoldBlue := "\U{1B}[1;34m"
  const BoldMagenta := "\U{1B}[1;35m"
  const BoldCyan := "\U{1B}[1;36m"
  const BoldWhite := "\U{1B}[1;37m"
  const HiRed := "\U{1B}[91m"
  const HiGreen := "\U{1B}[92m"
  const HiYellow := "\U{1B}[93m"
  const HiBlue := "\U{1B}[94m"
  const HiMagenta := "\U{1B}[95m"
  const HiCyan := "\U{1B}[96m"
  const HiWhite := "\U{1B}[97m"

  const Colours: seq<string> := [
    Reset, Red, Green, Yellow, Blue, Magenta, Cyan, White, Gray,
    BoldRed, BoldGreen, BoldYellow, BoldBlue, BoldMagenta, BoldCyan, BoldWhite,
    HiRed, HiGreen, HiYellow, HiBlue, HiMagenta, HiCyan, HiWhite]

  /** An ANSI control sequence: ESC, '[', parameters made of digits and
      ';', and the final 'm'. */
  predicate IsSgr(c: string)
  {
    && |c| >= 4 && c[0] == Esc && c[1] == '[' && c[|c| - 1] == 'm'
    && forall i :: 2 <= i < |c| - 1 ==> IsDigit(c[i]) || c[i] == ';'
  }

  /** Every colour constant is a control sequence, so it starts with ESC
      '[' and a text without ESC contains none of them. */
  lemma ColoursAreSgr()
    ensures forall k :: 0 <= k < |Colours| ==> IsSgr(Colours[k])
    ensures forall k :: 0 <= k < |Colours| ==> Colours[k][0] == Esc && Colours[k][1] == '['
  {
    forall k | 0 <= k < |Colours|
      ensures IsSgr(Colours[k])
    {
      SgrCodes(k);
    }
  }

  lemma SgrCodes(k: nat)
    requires k < |Colours|
    ensures IsSgr(Colours[k])
  {
    var c := Colours[k];
    assert c[0] == Esc && c[1] == '[' && c[|c| - 1] == 'm';
  }

  /** A text without ESC contains no colour code anywhere inside it. */
  lemma NoEscNoColour(s: string, k: nat, i: nat)
    requires Esc !in s
    requires k < |Colours| && i + |Colours[k]| <= |s|
    ensures s[i..i + |Colours[k]|] != Colours[k]
  {
    SgrCodes(k);
    assert s[i] in s;
  }

  // ---------------------------------------------------------------------
  // Levels
  // ---------------------------------------------------------------------

  /** logrus levels; any other value of logrus.Level is UnknownLevel. */
  datatype Level = PanicLevel | FatalLevel | ErrorLevel | WarnLevel | InfoLevel | DebugLevel | TraceLevel | UnknownLevel

  /** logrus's Level.String(). */
  function LevelString(l: Level): (name: string)
    ensures |name| >= 4 && forall i :: 0 <= i < |name| ==> IsLower(name[i])
  {
    match l
    case PanicLevel => "panic"
    case FatalLevel => "fatal"
    case ErrorLevel => "error"
    case WarnLevel => "warning"
    case InfoLevel => "info"
    case DebugLevel => "debug"
    case TraceLevel => "trace"
    case UnknownLevel => "unknown"
  }

  /** fmt.Sprintf("%5s", strings.ToUpper(level.String())): the plain
      path's level column, and the coloured path's for an unknown level. */
  function PlainLevel(l: Level): string
  {
    PadLeft(ToUpper(LevelString(l)), 5)
  }

  /** The coloured path's label and its colour, for the seven levels. */
  function LevelColour(l: Level): (c: string)
    requires !l.UnknownLevel?
    ensures c in Colours
  {
    match l
    case TraceLevel => BoldMagenta
    case DebugLevel => BoldBlue
    case InfoLevel => BoldGreen
    case WarnLevel => BoldYellow
    case ErrorLevel => BoldRed
    case FatalLevel => HiRed
    case PanicLevel => HiRed
  }

  function LevelLabel(l: Level): string
    requires !l.UnknownLevel?
  {
    match l
    case TraceLevel => "TRACE"
    case DebugLevel => "DEBUG"
    case InfoLevel => " INFO"
    case WarnLevel => " WARN"
    case ErrorLevel => "ERROR"
    case FatalLevel => "FATAL"
    case PanicLevel => "PANIC"
  }

  /** formatLevelColored. */
  function FormatLevelColored(l: Level): string
  {
    if l.UnknownLevel? then PlainLevel(l) else LevelColour(l) + LevelLabel(l) + Reset
  }

  lemma PanicColumn() ensures PlainLevel(PanicLevel) == "PANIC" { }
  lemma FatalColumn() ensures PlainLevel(FatalLevel) == "FATAL" { }
  lemma ErrorColumn() ensures PlainLevel(ErrorLevel) == "ERROR" { }
  lemma DebugColumn() ensures PlainLevel(DebugLevel) == "DEBUG" { }
  lemma TraceColumn() ensures PlainLevel(TraceLevel) == "TRACE" { }

  lemma InfoColumn()
    ensures PlainLevel(InfoLevel) == " INFO"
  {
    assert ToUpper("info") == "INFO";
    assert PadLeft("INFO", 5) == " INFO";
  }

  lemma WarnColumn()
    ensures PlainLevel(WarnLevel) == "WARNING"
  {
    assert "warn" + "ing" == "warning" && "WARN" + "ING" == "WARNING";
    assert ToUpper("warn") == "WARN" && ToUpper("ing") == "ING";
    ToUpperAppend("warn", "ing");
  }

  lemma UnknownColumn()
    ensures PlainLevel(UnknownLevel) == "UNKNOWN"
  {
    assert "unk" + "nown" == "unknown" && "UNK" + "NOWN" == "UNKNOWN";
    assert ToUpper("unk") == "UNK" && ToUpper("nown") == "NOWN";
    ToUpperAppend("unk", "nown");
  }

  /** Each of the seven levels gets a five-character label between its
      colour and Reset, so the column lines up. The label is the plain
      path's column, except that the plain path writes WARNING in full
      where the coloured one cuts it to WARN. */
  lemma LevelLabels(l: Level)
    requires !l.UnknownLevel?
    ensures |LevelLabel(l)| == 5
    ensures !l.WarnLevel? ==> LevelLabel(l) == PlainLevel(l)
    ensures l.WarnLevel? ==> PlainLevel(l) == "WARNING" && LevelLabel(l) == " " + PlainLevel(l)[..4]
  {
    if l == PanicLevel { PanicColumn(); }
    else if l == FatalLevel { FatalColumn(); }
    else if l == ErrorLevel { ErrorColumn(); }
    else if l == WarnLevel { WarnColumn(); }
    else if l == InfoLevel { InfoColumn(); }
    else if l == DebugLevel { DebugColumn(); }
    else if l == TraceLevel { TraceColumn(); }
  }

  /** A level logrus does not name is printed as in the plain path, with
      no colour. */
  lemma UnknownLevelLabel()
    ensures FormatLevelColored(UnknownLevel) == "UNKNOWN"
    ensures Esc !in FormatLevelColored(UnknownLevel)
  {
    UnknownColumn();
  }

  /** getMessageColor. */
  function MessageColor(l: Level): (c: string)
    ensures c in Colours
  {
    match l
    case ErrorLevel => HiRed
    case FatalLevel => HiRed
    case PanicLevel => HiRed
    case WarnLevel => HiYellow
    case InfoLevel => HiWhite
    case DebugLevel => Blue
    case TraceLevel => Gray
    case UnknownLevel => HiWhite
  }

  /** The message colour by severity: error and worse in high-intensity
      red, a warning in high-intensity yellow, and every level that is
      neither an error, a warning nor debug output in high-intensity white
      unless it is trace output. */
  lemma MessageColours(l: Level)
    ensures MessageColor(l) == HiRed <==> l in {ErrorLevel, FatalLevel, PanicLevel}
    ensures MessageColor(l) == HiYellow <==> l == WarnLevel
    ensures MessageColor(l) == HiWhite <==> l == InfoLevel || l == UnknownLevel
    ensures MessageColor(l) == Blue <==> l == DebugLevel
    ensures MessageColor(l) == Gray <==> l == TraceLevel
  {
  }

  // ---------------------------------------------------------------------
  // Formatter, entries, logger name
  // ---------------------------------------------------------------------

  datatype ColoredFormatter = ColoredFormatter(
    timestampFormat: string,
    enableColors: bool,
    serviceName: string,
    environment: string,
    enableCaller: bool)

  const DefaultTimestampFormat := "2006-01-02 15:04:05.000"

  /** getTimestampFormat: the configured layout, or the default when it is
      empty; so the layout is never empty. */
  function TimestampFormat(f: ColoredFormatter): (layout: string)
    ensures layout != ""
    ensures f.timestampFormat != "" ==> layout == f.timestampFormat
    ensures f.timestampFormat == "" ==> layout == DefaultTimestampFormat
  {
    if f.timestampFormat != "" then f.timestampFormat else DefaultTimestampFormat
  }

  datatype Frame = Frame(funcName: string, file: string, line: int)

  /** A logrus entry: level, message, fields (each value as %v renders
      it), and the caller frame, which logrus reports only when its logger
      has ReportCaller set. */
  datatype Entry = Entry(
    level: Level,
    message: string,
    data: map<string, string>,
    caller: Option<Frame>,
    reportCaller: bool)

  /** entry.HasCaller(). */
  predicate HasCaller(e: Entry)
  {
    e.reportCaller && e.caller.Some?
  }

  /** getLoggerName. Split on '/' always yields at least one part. */
  function LoggerName(f: ColoredFormatter, e: Entry): string
  {
    if "component" in e.data then f.serviceName + "." + e.data["component"]
    else if "module" in e.data then f.serviceName + "." + e.data["module"]
    else if "service" in e.data then e.data["service"]
    else if HasCaller(e) then
      var parts := Split(e.caller.value.funcName, '/');
      var lastPart := parts[|parts| - 1];
      var funcParts := Split(lastPart, '.');
      if |funcParts| > 1 then f.serviceName + "." + funcParts[0] else f.serviceName
    else f.serviceName
  }

  /** The last '/'-separated segment of the caller's function name. */
  function FunctionBase(fn: string): string
  {
    LastPiece(fn, '/')
  }

  /** The precedence of the logger name: component, module, service, the
      package of the calling function (the text before the first dot of
      the last path segment, when that segment has a dot), and the service
      name. */
  lemma LoggerNamePrecedence(f: ColoredFormatter, e: Entry)
    ensures "component" in e.data ==> LoggerName(f, e) == f.serviceName + "." + e.data["component"]
    ensures "component" !in e.data && "module" in e.data ==> LoggerName(f, e) == f.serviceName + "." + e.data["module"]
    ensures "component" !in e.data && "module" !in e.data && "service" in e.data ==> LoggerName(f, e) == e.data["service"]
    ensures var named := "component" in e.data || "module" in e.data || "service" in e.data;
            !named && HasCaller(e) && '.' in FunctionBase(e.caller.value.funcName) ==>
              var base := FunctionBase(e.caller.value.funcName);
              LoggerName(f, e) == f.serviceName + "." + base[..IndexOfChar(base, '.')]
    ensures var named := "component" in e.data || "module" in e.data || "service" in e.data;
            !named && (!HasCaller(e) || '.' !in FunctionBase(e.caller.value.funcName)) ==>
              LoggerName(f, e) == f.serviceName
  {
    if HasCaller(e) {
      var base := FunctionBase(e.caller.value.funcName);
      SplitSingle(base, '.');
      SplitFirst(base, '.');
    }
  }

  // ---------------------------------------------------------------------
  // Fields
  // ---------------------------------------------------------------------

  /** The keys the field list leaves out: they already name the logger. */
  predicate Internal(key: string)
  {
    key == "component" || key == "module" || key == "service"
  }

  /** keys lists every shown field exactly once, in some order; Go's map
      iteration order is unspecified, so any such order may occur. */
  predicate IsOrdering(fields: map<string, string>, keys: seq<string>)
  {
    && (forall i, j :: 0 <= i < j < |keys| ==> keys[i] != keys[j])
    && (forall k :: k in keys ==> k in fields && !Internal(k))
    && (forall k :: k in fields && !Internal(k) ==> k in keys)
  }

  /** One key=value part; in colour, the key in high-intensity cyan and
      the value in high-intensity white. */
  function Part(colored: bool, key: string, value: string): string
  {
    if colored then HiCyan + key + Reset + "=" + HiWhite + value + Reset
    else key + "=" + value
  }

  function Parts(colored: bool, fields: map<string, string>, keys: seq<string>): (ps: seq<string>)
    requires forall k :: k in keys ==> k in fields
    ensures |ps| == |keys|
  {
    seq(|keys|, i requires 0 <= i < |keys| => Part(colored, keys[i], fields[keys[i]]))
  }

  /** The field list for a given visiting order: nothing when no field is
      shown, else the parts between braces (grey in colour). */
  function FieldsText(colored: bool, fields: map<string, string>, keys: seq<string>): string
    requires forall k :: k in keys ==> k in fields
  {
    if keys == [] then ""
    else
      var body := "{" + Join(Parts(colored, fields, keys), ", ") + "}";
      if colored then Gray + body + Reset else body
  }

  /** The list is empty exactly when every field is an internal one, and
      otherwise it shows each remaining field once as key=value. */
  lemma FieldsTextSpec(colored: bool, fields: map<string, string>, keys: seq<string>)
    requires IsOrdering(fields, keys)
    ensures FieldsText(colored, fields, keys) == "" <==> forall k :: k in fields ==> Internal(k)
    ensures forall k :: k in fields && !Internal(k) ==> Part(colored, k, fields[k]) in Parts(colored, fields, keys)
    ensures |Parts(colored, fields, keys)| == |set k | k in fields && !Internal(k)|
  {
    if keys != [] {
      assert keys[0] in keys;
    }
    forall k | k in fields && !Internal(k)
      ensures Part(colored, k, fields[k]) in Parts(colored, fields, keys)
    {
      var i :| 0 <= i < |keys| && keys[i] == k;
      assert Parts(colored, fields, keys)[i] == Part(colored, k, fields[k]);
    }
    DistinctCard(keys);
    assert (set k | k in keys) == (set k | k in fields && !Internal(k));
  }

  /** A sequence without repetitions has as many elements as its set. */
  lemma {:induction false} DistinctCard(keys: seq<string>)
    requires forall i, j :: 0 <= i < j < |keys| ==> keys[i] != keys[j]
    ensures |set k | k in keys| == |keys|
  {
    if keys != [] {
      var rest := keys[1..];
      DistinctCard(rest);
      assert (set k | k in keys) == (set k | k in rest) + {keys[0]};
    }
  }

  /** The loop of formatFields*: visit the keys in an unspecified order,
      skip the internal ones and collect a part for each other one. */
  method CollectParts(colored: bool, fields: map<string, string>) returns (parts: seq<string>, ghost keys: seq<string>)
    ensures IsOrdering(fields, keys)
    ensures parts == Parts(colored, fields, keys)
  {
    parts, keys := [], [];
    var rest := fields.Keys;
    while rest != {}
      invariant rest <= fields.Keys
      invariant forall i, j :: 0 <= i < j < |keys| ==> keys[i] != keys[j]
      invariant forall k :: k in keys ==> k in fields && k !in rest && !Internal(k)
      invariant forall k :: k in fields && !Internal(k) && k !in rest ==> k in keys
      invariant parts == Parts(colored, fields, keys)
      decreases |rest|
    {
      var key :| key in rest;
      rest := rest - {key};
      if Internal(key) {
        continue;
      }
      PartsSnoc(colored, fields, keys, key);
      parts := parts + [Part(colored, key, fields[key])];
      keys := keys + [key];
    }
  }

  lemma PartsSnoc(colored: bool, fields: map<string, string>, keys: seq<string>, key: string)
    requires forall k :: k in keys ==> k in fields
    requires key in fields
    ensures Parts(colored, fields, keys + [key]) == Parts(colored, fields, keys) + [Part(colored, key, fields[key])]
  {
    var longer := keys + [key];
    assert forall i :: 0 <= i < |keys| ==> longer[i] == keys[i];
  }

  /** formatFieldsPlain. */
  method FormatFieldsPlain(fields: map<string, string>) returns (r: string, ghost keys: seq<string>)
    ensures IsOrdering(fields, keys)
    ensures r == FieldsText(false, fields, keys)
  {
    if |fields| == 0 {
      return "", [];
    }
    var parts;
    parts, keys := CollectParts(false, fields);
    if |parts| == 0 {
      return "", keys;
    }
    r := "{" + Join(parts, ", ") + "}";
  }

  /** formatFieldsColored. */
  method FormatFieldsColored(fields: map<string, string>) returns (r: string, ghost keys: seq<string>)
    ensures IsOrdering(fields, keys)
    ensures r == FieldsText(true, fields, keys)
  {
    if |fields| == 0 {
      return "", [];
    }
    var parts;
    parts, keys := CollectParts(true, fields);
    if |parts| == 0 {
      return "", keys;
    }
    r := Gray + "{" + Join(parts, ", ") + "}" + Reset;
  }

  // ---------------------------------------------------------------------
  // The line
  // ---------------------------------------------------------------------

  /** The last '/'-separated segment of the caller's file name. */
  function ShortFile(file: string): string
  {
    LastPiece(file, '/')
  }

  /** The short file name holds no '/' and is what follows the last '/'
      of the file name (the whole name when it has none). */
  lemma ShortFileSpec(file: string)
    ensures '/' !in ShortFile(file)
    ensures exists k :: 0 <= k <= |file| && ShortFile(file) == file[k..] && (k == 0 || file[k - 1] == '/')
  {
    LastPieceIsSuffix(file, '/');
  }

  /** The caller suffix: only when the formatter asks for it and the entry
      has a caller. */
  function CallerSuffix(colored: bool, f: ColoredFormatter, e: Entry): string
  {
    if f.enableCaller && HasCaller(e) then
      var short := ShortFile(e.caller.value.file);
      var line := IntToDecimal(e.caller.value.line);
      if colored then " " + Gray + "[" + short + ":" + line + "]" + Reset
      else " [" + short + ":" + line + "]"
    else ""
  }

  /** The suffix appears exactly when caller reporting is on and the
      entry carries a caller; it then names the file without its
      directories, and the line. */
  lemma CallerSuffixSpec(colored: bool, f: ColoredFormatter, e: Entry)
    ensures CallerSuffix(colored, f, e) != "" <==> f.enableCaller && HasCaller(e)
    ensures f.enableCaller && HasCaller(e) ==> '/' !in ShortFile(e.caller.value.file)
  {
    if f.enableCaller && HasCaller(e) {
      ShortFileSpec(e.caller.value.file);
    }
  }

  /** What follows the message: a space and the field list when there is
      one. */
  function FieldsTail(colored: bool, e: Entry, keys: seq<string>): string
    requires forall k :: k in keys ==> k in e.data
  {
    var text := FieldsText(colored, e.data, keys);
    if text != "" then " " + text else ""
  }

  function Goroutine(goroutines: int): string
  {
    PadLeft("goroutine-" + IntToDecimal(goroutines), 15)
  }

  /** formatPlain's columns up to the message: timestamp, level, process
      id, separator, goroutine and logger name. */
  function PlainHead(f: ColoredFormatter, e: Entry, stamp: string -> string, pid: int, goroutines: int): string
  {
    stamp(TimestampFormat(f)) + " "
    + PlainLevel(e.level) + " "
    + IntToDecimal(pid) + " "
    + "--- "
    + "[" + Goroutine(goroutines) + "] "
    + PadRight(LoggerName(f, e), 40) + " : "
  }

  /** formatColored's columns up to the message, each in its colour. */
  function ColoredHead(f: ColoredFormatter, e: Entry, stamp: string -> string, pid: int, goroutines: int): string
  {
    Gray + stamp(TimestampFormat(f)) + Reset + " "
    + FormatLevelColored(e.level) + " "
    + Magenta + IntToDecimal(pid) + Reset + " "
    + Gray + "---" + Reset + " "
    + Cyan + "[" + Goroutine(goroutines) + "]" + Reset + " "
    + Cyan + PadRight(LoggerName(f, e), 40) + Reset + " : "
  }

  /** The line formatPlain writes, for a given visiting order of the
      fields. */
  function PlainLine(f: ColoredFormatter, e: Entry, keys: seq<string>, stamp: string -> string, pid: int, goroutines: int): string
    requires forall k :: k in keys ==> k in e.data
  {
    PlainHead(f, e, stamp, pid, goroutines) + e.message + FieldsTail(false, e, keys) + CallerSuffix(false, f, e) + "\n"
  }

  /** The line formatColored writes. */
  function ColoredLine(f: ColoredFormatter, e: Entry, keys: seq<string>, stamp: string -> string, pid: int, goroutines: int): string
    requires forall k :: k in keys ==> k in e.data
  {
    ColoredHead(f, e, stamp, pid, goroutines) + (MessageColor(e.level) + e.message + Reset)
    + FieldsTail(true, e, keys) + CallerSuffix(true, f, e) + "\n"
  }

  /** formatPlain, writing into a builder. */
  method FormatPlain(f: ColoredFormatter, e: Entry, stamp: string -> string, pid: int, goroutines: int)
    returns (line: string, ghost keys: seq<string>)
    ensures IsOrdering(e.data, keys)
    ensures line == PlainLine(f, e, keys, stamp, pid, goroutines)
  {
    var b := stamp(TimestampFormat(f)) + " ";
    b := b + PlainLevel(e.level) + " ";
    b := b + IntToDecimal(pid) + " ";
    b := b + "--- ";
    b := b + "[" + Goroutine(goroutines) + "] ";
    b := b + PadRight(LoggerName(f, e), 40) + " : ";
    assert b == PlainHead(f, e, stamp, pid, goroutines);
    b := b + e.message;
    keys := [];
    var fieldsText := "";
    if |e.data| > 0 {
      var fieldsStr;
      fieldsStr, keys := FormatFieldsPlain(e.data);
      if fieldsStr != "" {
        fieldsText := " " + fieldsStr;
      }
    }
    b := b + fieldsText;
    var callerText := "";
    if f.enableCaller && HasCaller(e) {
      callerText := " [" + ShortFile(e.caller.value.file) + ":" + IntToDecimal(e.caller.value.line) + "]";
    }
    b := b + callerText;
    line := b + "\n";
  }

  /** formatColored, writing into a builder. */
  method FormatColored(f: ColoredFormatter, e: Entry, stamp: string -> string, pid: int, goroutines: int)
    returns (line: string, ghost keys: seq<string>)
    ensures IsOrdering(e.data, keys)
    ensures line == ColoredLine(f, e, keys, stamp, pid, goroutines)
  {
    var b := Gray + stamp(TimestampFormat(f)) + Reset + " ";
    b := b + FormatLevelColored(e.level) + " ";
    b := b + Magenta + IntToDecimal(pid) + Reset + " ";
    b := b + Gray + "---" + Reset + " ";
    b := b + Cyan + "[" + Goroutine(goroutines) + "]" + Reset + " ";
    b := b + Cyan + PadRight(LoggerName(f, e), 40) + Reset + " : ";
    assert b == ColoredHead(f, e, stamp, pid, goroutines);
    b := b + (MessageColor(e.level) + e.message + Reset);
    keys := [];
    var fieldsText := "";
    if |e.data| > 0 {
      var fieldsStr;
      fieldsStr, keys := FormatFieldsColored(e.data);
      if fieldsStr != "" {
        fieldsText := " " + fieldsStr;
      }
    }
    b := b + fieldsText;
    var callerText := "";
    if f.enableCaller && HasCaller(e) {
      callerText := " " + Gray + "[" + ShortFile(e.caller.value.file) + ":" + IntToDecimal(e.caller.value.line) + "]" + Reset;
    }
    b := b + callerText;
    line := b + "\n";
  }

  /** Format: the plain path exactly when colours are off. The error is
      always nil. */
  method Format(f: ColoredFormatter, e: Entry, stamp: string -> string, pid: int, goroutines: int)
    returns (line: string, err: Option<string>, ghost keys: seq<string>)
    ensures err.None? && IsOrdering(e.data, keys)
    ensures !f.enableColors ==> line == PlainLine(f, e, keys, stamp, pid, goroutines)
    ensures f.enableColors ==> line == ColoredLine(f, e, keys, stamp, pid, goroutines)
  {
    err := None;
    if !f.enableColors {
      line, keys := FormatPlain(f, e, stamp, pid, goroutines);
      return;
    }
    line, keys := FormatColored(f, e, stamp, pid, goroutines);
  }

  /** A plain line carries the message right after the logger name
      column, and ends with a newline. */
  lemma PlainLineShape(f: ColoredFormatter, e: Entry, keys: seq<string>, stamp: string -> string, pid: int, goroutines: int)
    requires IsOrdering(e.data, keys)
    ensures var line := PlainLine(f, e, keys, stamp, pid, goroutines);
            var h := |PlainHead(f, e, stamp, pid, goroutines)|;
            && h + |e.message| < |line|
            && line[h..h + |e.message|] == e.message
            && line[|line| - 1] == '\n'
  {
    Middle(PlainHead(f, e, stamp, pid, goroutines), e.message, FieldsTail(false, e, keys), CallerSuffix(false, f, e));
  }

  /** A coloured line carries the message, in its level's colour, right
      after the logger name column, and ends with a newline. */
  lemma ColoredLineShape(f: ColoredFormatter, e: Entry, keys: seq<string>, stamp: string -> string, pid: int, goroutines: int)
    requires IsOrdering(e.data, keys)
    ensures var line := ColoredLine(f, e, keys, stamp, pid, goroutines);
            var h := |ColoredHead(f, e, stamp, pid, goroutines)|;
            var m := MessageColor(e.level) + e.message + Reset;
            && h + |m| < |line|
            && line[h..h + |m|] == m
            && line[|line| - 1] == '\n'
  {
    Middle(ColoredHead(f, e, stamp, pid, goroutines), MessageColor(e.level) + e.message + Reset, FieldsTail(true, e, keys), CallerSuffix(true, f, e));
  }

  lemma Middle(head: string, m: string, fields: string, caller: string)
    ensures var line := head + m + fields + caller + "\n";
            && |head| + |m| < |line|
            && line[|head|..|head| + |m|] == m
            && line[|line| - 1] == '\n'
  {
    var line := head + m + fields + caller + "\n";
    assert line == (head + m) + (fields + caller + "\n");
    assert (head + m)[|head|..] == m;
  }

  // ---------------------------------------------------------------------
  // The plain path writes no colour of its own
  // ---------------------------------------------------------------------

  /** Everything an entry and a formatter bring into a line is free of
      ESC. */
  predicate InputsFree(f: ColoredFormatter, e: Entry, stampText: string)
  {
    && Esc !in stampText && Esc !in e.message && NameInputsFree(f, e)
    && (e.caller.Some? ==> Esc !in e.caller.value.file)
  }

  /** What the logger name is made of is free of ESC. */
  predicate NameInputsFree(f: ColoredFormatter, e: Entry)
  {
    && Esc !in f.serviceName
    && (forall k :: k in e.data ==> Esc !in k && Esc !in e.data[k])
    && (e.caller.Some? ==> Esc !in e.caller.value.funcName)
  }

  /** With ESC-free inputs, the plain line holds no ESC, and so none of
      the colour codes: every ESC in a plain line comes from the entry or
      the formatter's settings. */
  lemma PlainLineHasNoColour(f: ColoredFormatter, e: Entry, keys: seq<string>, stamp: string -> string, pid: int, goroutines: int)
    requires IsOrdering(e.data, keys)
    requires InputsFree(f, e, stamp(TimestampFormat(f)))
    ensures Esc !in PlainLine(f, e, keys, stamp, pid, goroutines)
  {
    HeadNoEsc(f, e, stamp, pid, goroutines);
    TailNoEsc(f, e, keys);
    CallerNoEsc(f, e);
  }

  lemma HeadNoEsc(f: ColoredFormatter, e: Entry, stamp: string -> string, pid: int, goroutines: int)
    requires InputsFree(f, e, stamp(TimestampFormat(f)))
    ensures Esc !in PlainHead(f, e, stamp, pid, goroutines)
  {
    LevelNoEsc(e.level);
    DecimalNoEsc(pid);
    GoroutineNoEsc(goroutines);
    LoggerNameNoEsc(f, e);
    PadNoEsc(LoggerName(f, e), 40);
    ColumnsNoEsc(stamp(TimestampFormat(f)), PlainLevel(e.level), IntToDecimal(pid), Goroutine(goroutines), PadRight(LoggerName(f, e), 40));
  }

  lemma ColumnsNoEsc(t: string, level: string, pid: string, g: string, name: string)
    requires Esc !in t && Esc !in level && Esc !in pid && Esc !in g && Esc !in name
    ensures Esc !in t + " " + level + " " + pid + " " + "--- " + "[" + g + "] " + name + " : "
  {
  }

  lemma GoroutineNoEsc(goroutines: int)
    ensures Esc !in Goroutine(goroutines)
  {
    DecimalNoEsc(goroutines);
    PadNoEsc("goroutine-" + IntToDecimal(goroutines), 15);
  }

  lemma TailNoEsc(f: ColoredFormatter, e: Entry, keys: seq<string>)
    requires IsOrdering(e.data, keys)
    requires NameInputsFree(f, e)
    ensures Esc !in FieldsTail(false, e, keys)
  {
    PartsNoEsc(e.data, keys);
    JoinNoEsc(Parts(false, e.data, keys), ", ");
  }

  lemma CallerNoEsc(f: ColoredFormatter, e: Entry)
    requires e.caller.Some? ==> Esc !in e.caller.value.file
    ensures Esc !in CallerSuffix(false, f, e)
  {
    if e.caller.Some? {
      var file := e.caller.value.file;
      LastPieceIsSuffix(file, '/');
      var k :| 0 <= k <= |file| && ShortFile(file) == file[k..] && (k == 0 || file[k - 1] == '/');
      SliceNoEsc(file, k, |file|);
      DecimalNoEsc(e.caller.value.line);
    }
  }

  /** The plain level column holds capitals and spaces only. */
  lemma LevelNoEsc(l: Level)
    ensures forall i :: 0 <= i < |PlainLevel(l)| ==> IsUpper(PlainLevel(l)[i]) || PlainLevel(l)[i] == ' '
    ensures Esc !in PlainLevel(l)
  {
    ghost var name := LevelString(l);
    assert forall i :: 0 <= i < |name| ==> IsLower(name[i]);
    PaddedUpper(LevelString(l), 5);
  }

  lemma PaddedUpper(name: string, w: nat)
    requires forall i :: 0 <= i < |name| ==> IsLower(name[i])
    ensures var col := PadLeft(ToUpper(name), w);
      forall i :: 0 <= i < |col| ==> IsUpper(col[i]) || col[i] == ' '
    ensures Esc !in PadLeft(ToUpper(name), w)
  {
    var upper := ToUpper(name);
    var col := PadLeft(upper, w);
    forall i | 0 <= i < |col|
      ensures IsUpper(col[i]) || col[i] == ' '
    {
      if i >= |col| - |upper| {
        assert col[i] == col[|col| - |upper|..][i - (|col| - |upper|)];
      }
    }
  }

  lemma DecimalNoEsc(i: int)
    ensures Esc !in IntToDecimal(i)
  {
  }

  lemma PadNoEsc(s: string, w: nat)
    requires Esc !in s
    ensures Esc !in PadLeft(s, w) && Esc !in PadRight(s, w)
  {
    if |s| < w {
      assert Esc !in seq(w - |s|, _ => ' ');
    }
  }

  lemma SliceNoEsc(s: string, i: nat, j: nat)
    requires i <= j <= |s| && Esc !in s
    ensures Esc !in s[i..j]
  {
  }

  lemma LoggerNameNoEsc(f: ColoredFormatter, e: Entry)
    requires NameInputsFree(f, e)
    ensures Esc !in LoggerName(f, e)
  {
    if "component" !in e.data && "module" !in e.data && "service" !in e.data && HasCaller(e) {
      var fn := e.caller.value.funcName;
      LastPieceIsSuffix(fn, '/');
      var k :| 0 <= k <= |fn| && FunctionBase(fn) == fn[k..] && (k == 0 || fn[k - 1] == '/');
      SliceNoEsc(fn, k, |fn|);
      var base := FunctionBase(fn);
      SplitFirst(base, '.');
      SliceNoEsc(base, 0, IndexOfChar(base, '.'));
    }
  }

  lemma PartsNoEsc(fields: map<string, string>, keys: seq<string>)
    requires forall k :: k in keys ==> k in fields
    requires forall k :: k in fields ==> Esc !in k && Esc !in fields[k]
    ensures forall i :: 0 <= i < |keys| ==> Esc !in Parts(false, fields, keys)[i]
  {
  }

  lemma {:induction false} JoinNoEsc(parts: seq<string>, sep: string)
    requires Esc !in sep
    requires forall i :: 0 <= i < |parts| ==> Esc !in parts[i]
    ensures Esc !in Join(parts, sep)
    decreases |parts|
  {
    if |parts| > 1 {
      JoinNoEsc(parts[1..], sep);
    }
  }
}
