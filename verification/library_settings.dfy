/** `LibrarySettings` of characterizer/LibrarySettings.py: the library-wide settings
    record, each field behind a validating setter, plus `str_to_bool` and `NamedNode`. */
module Library {
  import opened Results
  import opened Text
  import Units

  /** The spellings `str_to_bool` accepts once its input is lower-cased. */
  const TrueWords: seq<string> := ["true", "t", "1"]
  const FalseWords: seq<string> := ["false", "f", "0"]

  /** `str_to_bool`: case-insensitive true/false words, anything else a ValueError. */
  function StrToBool(value: string): (r: Result<bool>)
    ensures r.Err? ==> r.error == ValueError
    // exactly six spellings are accepted, in any case
    ensures r == Ok(true) <==> Lower(value) in {"true", "t", "1"}
    ensures r == Ok(false) <==> Lower(value) in {"false", "f", "0"}
    // every accepted spelling has one to five characters, and its first one decides
    ensures r.Ok? ==> 1 <= |value| <= 5
    ensures r.Ok? ==> (r.value <==> LowerChar(value[0]) in "t1")
    ensures r.Ok? ==> (!r.value <==> LowerChar(value[0]) in "f0")
  {
    var word := Lower(value);
    if word in TrueWords then Ok(true)
    else if word in FalseWords then Ok(false)
    else Err(ValueError)
  }

  /** `str_to_bool` reads back what Python's `str()` prints for a bool. */
  lemma StrToBoolReadsPrintedBool(b: bool)
    ensures StrToBool(if b then "True" else "False") == Ok(b)
  {
    assert Lower("True") == "true";
    assert Lower("False") == "false";
  }

  /** `str_to_bool` does not see case: lower-casing the input first changes nothing. */
  lemma StrToBoolIgnoresCase(value: string)
    ensures StrToBool(Lower(value)) == StrToBool(value)
  {
    LowerIdempotent(value);
  }

  /** A filesystem path; `PathOf(t)` is `Path(t)`. */
  datatype PathRef = PathOf(text: string)

  /** `NamedNode`: a supply or well node, a name and a voltage with no checks. */
  datatype NamedNode = NamedNode(name: string, voltage: real)

  datatype LibrarySettings = LibrarySettings(
    libName: string,
    dotlibName: Option<string>,       // None: derived from libName
    verilogName: Option<string>,      // None: derived from libName
    cellNameSuffix: string,
    cellNamePrefix: string,
    units: Units.UnitsSettings,
    simulator: PathRef,
    workDir: PathRef,
    vdd: NamedNode,
    vss: NamedNode,
    pwell: NamedNode,
    nwell: NamedNode,
    process: Option<string>,
    temperature: real,
    logicThresholdLow: real,
    logicThresholdHigh: real,
    logicHighToLowThreshold: real,
    logicLowToHighThreshold: real,
    energyMeasLowThreshold: real,
    energyMeasHighThreshold: real,
    energyMeasTimeExtent: real,
    operatingConditions: Option<string>,
    delayModel: string,
    runSim: bool,
    mtSim: bool,
    isExported: bool,
    suppressMessage: bool,
    suppressSimMessage: bool,
    suppressDebugMessage: bool)

  /** The fields whose setter demands a non-empty string. */
  datatype TextField =
    LibName | DotlibName | VerilogName | CellNameSuffix | CellNamePrefix | Process | OperatingConditions | DelayModel

  /** The fields whose setter demands a value strictly between 0 and 1. */
  datatype FractionField =
    LogicThresholdLow | LogicThresholdHigh | LogicHighToLow | LogicLowToHigh | EnergyMeasLow | EnergyMeasHigh

  /** The flags set from a bool or a string (`run_sim`, `mt_sim`). */
  datatype FlagField = RunSim | MtSim

  /** The flags set only through `str_to_bool` (`suppress_*`). */
  datatype QuietField = SuppressMessage | SuppressSimMessage | SuppressDebugMessage

  datatype Rail = Vdd | Vss | Pwell | Nwell

  /** Every stored field of the record. */
  datatype Field =
    | TextF(t: TextField)
    | FractionF(x: FractionField)
    | TimeExtentF
    | TemperatureF
    | FlagF(g: FlagField)
    | QuietF(m: QuietField)
    | WorkDirF
    | SimulatorF
    | ExportedF
    | UnitsF
    | RailF(rail: Rail)

  /** The stored value of a field, as one type. */
  datatype Value =
    | Str(text: Option<string>)
    | Num(x: real)
    | Flag(b: bool)
    | PathV(p: PathRef)
    | NodeV(n: NamedNode)
    | UnitsV(u: Units.UnitsSettings)

  /** What is stored under a field (the raw value, not the derived file names). */
  function Read(s: LibrarySettings, f: Field): Value
  {
    match f
    case TextF(t) =>
      Str(match t
          case LibName => Some(s.libName)
          case DotlibName => s.dotlibName
          case VerilogName => s.verilogName
          case CellNameSuffix => Some(s.cellNameSuffix)
          case CellNamePrefix => Some(s.cellNamePrefix)
          case Process => s.process
          case OperatingConditions => s.operatingConditions
          case DelayModel => Some(s.delayModel))
    case FractionF(x) =>
      Num(match x
          case LogicThresholdLow => s.logicThresholdLow
          case LogicThresholdHigh => s.logicThresholdHigh
          case LogicHighToLow => s.logicHighToLowThreshold
          case LogicLowToHigh => s.logicLowToHighThreshold
          case EnergyMeasLow => s.energyMeasLowThreshold
          case EnergyMeasHigh => s.energyMeasHighThreshold)
    case TimeExtentF => Num(s.energyMeasTimeExtent)
    case TemperatureF => Num(s.temperature)
    case FlagF(g) => Flag(match g case RunSim => s.runSim case MtSim => s.mtSim)
    case QuietF(m) =>
      Flag(match m
           case SuppressMessage => s.suppressMessage
           case SuppressSimMessage => s.suppressSimMessage
           case SuppressDebugMessage => s.suppressDebugMessage)
    case WorkDirF => PathV(s.workDir)
    case SimulatorF => PathV(s.simulator)
    case ExportedF => Flag(s.isExported)
    case UnitsF => UnitsV(s.units)
    case RailF(rail) =>
      NodeV(match rail case Vdd => s.vdd case Vss => s.vss case Pwell => s.pwell case Nwell => s.nwell)
  }

  /** The record agrees with `s` on every field except `f`. */
  ghost predicate OnlyChanged(s: LibrarySettings, t: LibrarySettings, f: Field)
  {
    forall g :: g != f ==> Read(t, g) == Read(s, g)
  }

  /** The `dotlib_name` property: the explicit name, else `lib_name + '.lib'`. */
  function DotlibFile(s: LibrarySettings): string
  {
    if s.dotlibName.Some? then s.dotlibName.value else s.libName + ".lib"
  }

  /** The `verilog_name` property: the explicit name, else `lib_name + '.v'`. */
  function VerilogFile(s: LibrarySettings): string
  {
    if s.verilogName.Some? then s.verilogName.value else s.libName + ".v"
  }

  /** What the setters guarantee of every field they guard. */
  predicate Valid(s: LibrarySettings)
  {
    && s.libName != ""
    && s.delayModel != ""
    && (s.dotlibName.Some? ==> s.dotlibName.value != "")
    && (s.verilogName.Some? ==> s.verilogName.value != "")
    && (s.process.Some? ==> s.process.value != "")
    && (s.operatingConditions.Some? ==> s.operatingConditions.value != "")
    && 0.0 < s.logicThresholdLow < 1.0
    && 0.0 < s.logicThresholdHigh < 1.0
    && 0.0 < s.logicHighToLowThreshold < 1.0
    && 0.0 < s.logicLowToHighThreshold < 1.0
    && 0.0 < s.energyMeasLowThreshold < 1.0
    && 0.0 < s.energyMeasHighThreshold < 1.0
    && s.energyMeasTimeExtent > 0.0
  }

  /** The constructor. `ngspice` is what `which('ngspice')` found on the PATH; when it
      found nothing, `Path(None)` raises a TypeError. */
  function New(ngspice: Option<string>): (r: Result<LibrarySettings>)
    ensures r.Ok? <==> ngspice.Some?
    ensures r.Err? ==> r.error == TypeError
    ensures r.Ok? ==> Valid(r.value)
    ensures r.Ok? ==> r.value.simulator == PathOf(ngspice.value) && r.value.workDir == PathOf("work")
    ensures r.Ok? ==> r.value.libName == "unnamed_lib" && r.value.dotlibName.None? && r.value.verilogName.None?
    ensures r.Ok? ==> DotlibFile(r.value) == "unnamed_lib.lib" && VerilogFile(r.value) == "unnamed_lib.v"
    ensures r.Ok? ==> r.value.cellNameSuffix == "" && r.value.cellNamePrefix == ""
    ensures r.Ok? ==> r.value.units == Units.Defaults()
    ensures r.Ok? ==> r.value.process.None? && r.value.operatingConditions.None?
    ensures r.Ok? ==> r.value.temperature == 25.0 && r.value.delayModel == "table_lookup"
    ensures r.Ok? ==> r.value.logicThresholdLow == 0.2 && r.value.logicThresholdHigh == 0.8
    ensures r.Ok? ==> r.value.logicHighToLowThreshold == 0.5 && r.value.logicLowToHighThreshold == 0.5
    ensures r.Ok? ==> r.value.energyMeasLowThreshold == 0.01 && r.value.energyMeasHighThreshold == 0.99
    ensures r.Ok? ==> r.value.energyMeasTimeExtent == 10.0
    ensures r.Ok? ==> r.value.runSim && r.value.mtSim && !r.value.isExported
    ensures r.Ok? ==> !r.value.suppressMessage && !r.value.suppressSimMessage && !r.value.suppressDebugMessage
    ensures r.Ok? ==> r.value.vdd == NamedNode("VDD", 0.0) && r.value.vss == NamedNode("VSS", 0.0)
    ensures r.Ok? ==> r.value.pwell == NamedNode("VPW", 0.0) && r.value.nwell == NamedNode("VNW", 0.0)
  {
    match ngspice
    case None => Err(TypeError)
    case Some(found) =>
      Ok(LibrarySettings(
        libName := "unnamed_lib",
        dotlibName := None,
        verilogName := None,
        cellNameSuffix := "",
        cellNamePrefix := "",
        units := Units.Defaults(),
        simulator := PathOf(found),
        workDir := PathOf("work"),
        vdd := NamedNode("VDD", 0.0),
        vss := NamedNode("VSS", 0.0),
        pwell := NamedNode("VPW", 0.0),
        nwell := NamedNode("VNW", 0.0),
        process := None,
        temperature := 25.0,
        logicThresholdLow := 0.2,
        logicThresholdHigh := 0.8,
        logicHighToLowThreshold := 0.5,
        logicLowToHighThreshold := 0.5,
        energyMeasLowThreshold := 0.01,
        energyMeasHighThreshold := 0.99,
        energyMeasTimeExtent := 10.0,
        operatingConditions := None,
        delayModel := "table_lookup",
        runSim := true,
        mtSim := true,
        isExported := false,
        suppressMessage := false,
        suppressSimMessage := false,
        suppressDebugMessage := false))
  }

  /** What `run_sim`/`mt_sim` may be given, by Python type. */
  datatype FlagInput = FlagNone | FlagBool(b: bool) | FlagText(text: string) | FlagOther

  /** What `work_dir`/`simulator` may be given, by Python type. */
  datatype PathInput = PathNone | PathObject(p: PathRef) | PathText(text: string) | PathOther

  /** One property assignment `settings.<field> = <value>`. */
  datatype Assignment =
    | AssignText(t: TextField, text: Option<string>)
    | AssignFraction(x: FractionField, fraction: Option<real>)
    | AssignTimeExtent(extent: Option<real>)
    | AssignTemperature(degrees: Option<real>)
    | AssignFlag(g: FlagField, flag: FlagInput)
    | AssignQuiet(m: QuietField, word: string)
    | AssignWorkDir(dir: PathInput)

  /** The field an assignment is about. */
  function Target(a: Assignment): Field
  {
    match a
    case AssignText(t, _) => TextF(t)
    case AssignFraction(x, _) => FractionF(x)
    case AssignTimeExtent(_) => TimeExtentF
    case AssignTemperature(_) => TemperatureF
    case AssignFlag(g, _) => FlagF(g)
    case AssignQuiet(m, _) => QuietF(m)
    case AssignWorkDir(_) => WorkDirF
  }

  // One raw write per stored field, as each Python property has its own setter.

  function WriteLibName(s: LibrarySettings, v: string): (r: LibrarySettings)
    ensures Read(r, TextF(LibName)) == Str(Some(v))
    ensures Valid(s) && v != "" ==> Valid(r)
    ensures OnlyChanged(s, r, TextF(LibName))
  {
    s.(libName := v)
  }

  function WriteDotlibName(s: LibrarySettings, v: string): (r: LibrarySettings)
    ensures Read(r, TextF(DotlibName)) == Str(Some(v))
    ensures Valid(s) && v != "" ==> Valid(r)
    ensures OnlyChanged(s, r, TextF(DotlibName))
  {
    s.(dotlibName := Some(v))
  }

  function WriteVerilogName(s: LibrarySettings, v: string): (r: LibrarySettings)
    ensures Read(r, TextF(VerilogName)) == Str(Some(v))
    ensures Valid(s) && v != "" ==> Valid(r)
    ensures OnlyChanged(s, r, TextF(VerilogName))
  {
    s.(verilogName := Some(v))
  }

  function WriteCellNameSuffix(s: LibrarySettings, v: string): (r: LibrarySettings)
    ensures Read(r, TextF(CellNameSuffix)) == Str(Some(v))
    ensures Valid(s) && v != "" ==> Valid(r)
    ensures OnlyChanged(s, r, TextF(CellNameSuffix))
  {
    s.(cellNameSuffix := v)
  }

  function WriteCellNamePrefix(s: LibrarySettings, v: string): (r: LibrarySettings)
    ensures Read(r, TextF(CellNamePrefix)) == Str(Some(v))
    ensures Valid(s) && v != "" ==> Valid(r)
    ensures OnlyChanged(s, r, TextF(CellNamePrefix))
  {
    s.(cellNamePrefix := v)
  }

  function WriteProcess(s: LibrarySettings, v: string): (r: LibrarySettings)
    ensures Read(r, TextF(Process)) == Str(Some(v))
    ensures Valid(s) && v != "" ==> Valid(r)
    ensures OnlyChanged(s, r, TextF(Process))
  {
    s.(process := Some(v))
  }

  function WriteOperatingConditions(s: LibrarySettings, v: string): (r: LibrarySettings)
    ensures Read(r, TextF(OperatingConditions)) == Str(Some(v))
    ensures Valid(s) && v != "" ==> Valid(r)
    ensures OnlyChanged(s, r, TextF(OperatingConditions))
  {
    s.(operatingConditions := Some(v))
  }

  function WriteDelayModel(s: LibrarySettings, v: string): (r: LibrarySettings)
    ensures Read(r, TextF(DelayModel)) == Str(Some(v))
    ensures Valid(s) && v != "" ==> Valid(r)
    ensures OnlyChanged(s, r, TextF(DelayModel))
  {
    s.(delayModel := v)
  }

  function WriteLogicThresholdLow(s: LibrarySettings, v: real): (r: LibrarySettings)
    ensures Read(r, FractionF(LogicThresholdLow)) == Num(v)
    ensures Valid(s) && 0.0 < v < 1.0 ==> Valid(r)
    ensures OnlyChanged(s, r, FractionF(LogicThresholdLow))
  {
    s.(logicThresholdLow := v)
  }

  function WriteLogicThresholdHigh(s: LibrarySettings, v: real): (r: LibrarySettings)
    ensures Read(r, FractionF(LogicThresholdHigh)) == Num(v)
    ensures Valid(s) && 0.0 < v < 1.0 ==> Valid(r)
    ensures OnlyChanged(s, r, FractionF(LogicThresholdHigh))
  {
    s.(logicThresholdHigh := v)
  }

  function WriteLogicHighToLow(s: LibrarySettings, v: real): (r: LibrarySettings)
    ensures Read(r, FractionF(LogicHighToLow)) == Num(v)
    ensures Valid(s) && 0.0 < v < 1.0 ==> Valid(r)
    ensures OnlyChanged(s, r, FractionF(LogicHighToLow))
  {
    s.(logicHighToLowThreshold := v)
  }

  function WriteLogicLowToHigh(s: LibrarySettings, v: real): (r: LibrarySettings)
    ensures Read(r, FractionF(LogicLowToHigh)) == Num(v)
    ensures Valid(s) && 0.0 < v < 1.0 ==> Valid(r)
    ensures OnlyChanged(s, r, FractionF(LogicLowToHigh))
  {
    s.(logicLowToHighThreshold := v)
  }

  function WriteEnergyMeasLow(s: LibrarySettings, v: real): (r: LibrarySettings)
    ensures Read(r, FractionF(EnergyMeasLow)) == Num(v)
    ensures Valid(s) && 0.0 < v < 1.0 ==> Valid(r)
    ensures OnlyChanged(s, r, FractionF(EnergyMeasLow))
  {
    s.(energyMeasLowThreshold := v)
  }

  function WriteEnergyMeasHigh(s: LibrarySettings, v: real): (r: LibrarySettings)
    ensures Read(r, FractionF(EnergyMeasHigh)) == Num(v)
    ensures Valid(s) && 0.0 < v < 1.0 ==> Valid(r)
    ensures OnlyChanged(s, r, FractionF(EnergyMeasHigh))
  {
    s.(energyMeasHighThreshold := v)
  }

  function WriteRunSim(s: LibrarySettings, v: bool): (r: LibrarySettings)
    ensures Read(r, FlagF(RunSim)) == Flag(v)
    ensures Valid(s) ==> Valid(r)
    ensures OnlyChanged(s, r, FlagF(RunSim))
  {
    s.(runSim := v)
  }

  function WriteMtSim(s: LibrarySettings, v: bool): (r: LibrarySettings)
    ensures Read(r, FlagF(MtSim)) == Flag(v)
    ensures Valid(s) ==> Valid(r)
    ensures OnlyChanged(s, r, FlagF(MtSim))
  {
    s.(mtSim := v)
  }

  function WriteSuppressMessage(s: LibrarySettings, v: bool): (r: LibrarySettings)
    ensures Read(r, QuietF(SuppressMessage)) == Flag(v)
    ensures Valid(s) ==> Valid(r)
    ensures OnlyChanged(s, r, QuietF(SuppressMessage))
  {
    s.(suppressMessage := v)
  }

  function WriteSuppressSimMessage(s: LibrarySettings, v: bool): (r: LibrarySettings)
    ensures Read(r, QuietF(SuppressSimMessage)) == Flag(v)
    ensures Valid(s) ==> Valid(r)
    ensures OnlyChanged(s, r, QuietF(SuppressSimMessage))
  {
    s.(suppressSimMessage := v)
  }

  function WriteSuppressDebugMessage(s: LibrarySettings, v: bool): (r: LibrarySettings)
    ensures Read(r, QuietF(SuppressDebugMessage)) == Flag(v)
    ensures Valid(s) ==> Valid(r)
    ensures OnlyChanged(s, r, QuietF(SuppressDebugMessage))
  {
    s.(suppressDebugMessage := v)
  }

  function WriteText(s: LibrarySettings, t: TextField, v: string): (r: LibrarySettings)
    ensures Read(r, TextF(t)) == Str(Some(v))
    ensures Valid(s) && v != "" ==> Valid(r)
    ensures OnlyChanged(s, r, TextF(t))
  {
    match t
    case LibName => WriteLibName(s, v)
    case DotlibName => WriteDotlibName(s, v)
    case VerilogName => WriteVerilogName(s, v)
    case CellNameSuffix => WriteCellNameSuffix(s, v)
    case CellNamePrefix => WriteCellNamePrefix(s, v)
    case Process => WriteProcess(s, v)
    case OperatingConditions => WriteOperatingConditions(s, v)
    case DelayModel => WriteDelayModel(s, v)
  }

  function WriteFraction(s: LibrarySettings, x: FractionField, v: real): (r: LibrarySettings)
    ensures Read(r, FractionF(x)) == Num(v)
    ensures Valid(s) && 0.0 < v < 1.0 ==> Valid(r)
    ensures OnlyChanged(s, r, FractionF(x))
  {
    match x
    case LogicThresholdLow => WriteLogicThresholdLow(s, v)
    case LogicThresholdHigh => WriteLogicThresholdHigh(s, v)
    case LogicHighToLow => WriteLogicHighToLow(s, v)
    case LogicLowToHigh => WriteLogicLowToHigh(s, v)
    case EnergyMeasLow => WriteEnergyMeasLow(s, v)
    case EnergyMeasHigh => WriteEnergyMeasHigh(s, v)
  }

  function WriteFlag(s: LibrarySettings, g: FlagField, v: bool): (r: LibrarySettings)
    ensures Read(r, FlagF(g)) == Flag(v)
    ensures Valid(s) ==> Valid(r)
    ensures OnlyChanged(s, r, FlagF(g))
  {
    match g
    case RunSim => WriteRunSim(s, v)
    case MtSim => WriteMtSim(s, v)
  }

  function WriteQuiet(s: LibrarySettings, m: QuietField, v: bool): (r: LibrarySettings)
    ensures Read(r, QuietF(m)) == Flag(v)
    ensures Valid(s) ==> Valid(r)
    ensures OnlyChanged(s, r, QuietF(m))
  {
    match m
    case SuppressMessage => WriteSuppressMessage(s, v)
    case SuppressSimMessage => WriteSuppressSimMessage(s, v)
    case SuppressDebugMessage => WriteSuppressDebugMessage(s, v)
  }

  function WriteTimeExtent(s: LibrarySettings, v: real): (r: LibrarySettings)
    ensures Read(r, TimeExtentF) == Num(v)
    ensures Valid(s) && v > 0.0 ==> Valid(r)
    ensures OnlyChanged(s, r, TimeExtentF)
  {
    s.(energyMeasTimeExtent := v)
  }

  function WriteTemperature(s: LibrarySettings, v: real): (r: LibrarySettings)
    ensures Read(r, TemperatureF) == Num(v)
    ensures Valid(s) ==> Valid(r)
    ensures OnlyChanged(s, r, TemperatureF)
  {
    s.(temperature := v)
  }

  function WriteWorkDir(s: LibrarySettings, p: PathRef): (r: LibrarySettings)
    ensures Read(r, WorkDirF) == PathV(p)
    ensures Valid(s) ==> Valid(r)
    ensures OnlyChanged(s, r, WorkDirF)
  {
    s.(workDir := p)
  }

  /** The property setters. Each one validates first and raises without writing, or
      writes exactly its own field. */
  function Assign(s: LibrarySettings, a: Assignment): (r: Result<LibrarySettings>)
    // a TypeError only ever comes from a value of the wrong Python type
    ensures r.Err? && r.error == TypeError ==> a.AssignFlag? || a.AssignWorkDir?
  {
    match a
    case AssignText(t, v) =>
      if v.Some? && |v.value| > 0 then Ok(WriteText(s, t, v.value)) else Err(ValueError)
    case AssignFraction(x, v) =>
      if v.Some? && 0.0 < v.value < 1.0 then Ok(WriteFraction(s, x, v.value)) else Err(ValueError)
    case AssignTimeExtent(v) =>
      if v.Some? && v.value > 0.0 then Ok(WriteTimeExtent(s, v.value)) else Err(ValueError)
    case AssignTemperature(v) =>
      if v.Some? then Ok(WriteTemperature(s, v.value)) else Err(ValueError)
    case AssignFlag(g, v) => SetFlag(s, g, v)
    case AssignQuiet(m, text) => SetQuiet(s, m, text)
    case AssignWorkDir(v) => SetWorkDir(s, v)
  }

  /** The `suppress_*` setters: the value always goes through `str_to_bool`. */
  function SetQuiet(s: LibrarySettings, m: QuietField, text: string): (r: Result<LibrarySettings>)
    ensures r.Ok? ==> OnlyChanged(s, r.value, QuietF(m)) && (Valid(s) ==> Valid(r.value))
    ensures r.Err? ==> r.error == ValueError
  {
    match StrToBool(text)
    case Ok(b) => Ok(WriteQuiet(s, m, b))
    case Err(e) => Err(e)
  }

  /** A successful assignment changes its own field and no other. */
  lemma AssignChangesOnlyTarget(s: LibrarySettings, a: Assignment)
    ensures Assign(s, a).Ok? ==> OnlyChanged(s, Assign(s, a).value, Target(a))
  {
    match a
    case AssignText(t, v) =>
    case AssignFraction(x, v) =>
    case AssignTimeExtent(v) =>
    case AssignTemperature(v) =>
    case AssignFlag(g, v) =>
    case AssignQuiet(m, text) =>
    case AssignWorkDir(v) =>
  }

  /** The `run_sim`/`mt_sim` setters: a bool as given, a string through `str_to_bool`. */
  function SetFlag(s: LibrarySettings, g: FlagField, v: FlagInput): (r: Result<LibrarySettings>)
    ensures r.Ok? ==> OnlyChanged(s, r.value, FlagF(g)) && (Valid(s) ==> Valid(r.value))
    ensures r.Err? && r.error == TypeError ==> v.FlagOther?
  {
    match v
    case FlagNone => Err(ValueError)
    case FlagText(text) =>
      (match StrToBool(text)
       case Ok(b) => Ok(WriteFlag(s, g, b))
       case Err(e) => Err(e))
    case FlagBool(b) => Ok(WriteFlag(s, g, b))
    case FlagOther => Err(TypeError)
  }

  /** The `work_dir` setter: a Path as given, a string made into a Path. */
  function SetWorkDir(s: LibrarySettings, v: PathInput): (r: Result<LibrarySettings>)
    ensures r.Ok? ==> OnlyChanged(s, r.value, WorkDirF) && (Valid(s) ==> Valid(r.value))
    ensures r.Err? && r.error == TypeError ==> v.PathOther?
  {
    match v
    case PathNone => Err(ValueError)
    case PathObject(p) => Ok(WriteWorkDir(s, p))
    case PathText(text) => Ok(WriteWorkDir(s, PathOf(text)))
    case PathOther => Err(TypeError)
  }

  function WriteSimulator(s: LibrarySettings, p: PathRef): (r: LibrarySettings)
    ensures r.simulator == p
    ensures OnlyChanged(s, r, SimulatorF)
  {
    s.(simulator := p)
  }

  /** The `simulator` setter. `isFile` answers `Path.is_file()` for the filesystem. */
  function SetSimulator(s: LibrarySettings, value: PathInput, isFile: PathRef -> bool): (r: Result<LibrarySettings>)
    ensures r.Ok? ==> OnlyChanged(s, r.value, SimulatorF)
    ensures r.Ok? ==> isFile(r.value.simulator)
    ensures value.PathNone? ==> r == Err(ValueError)
    ensures value.PathOther? ==> r == Err(TypeError)
    ensures value.PathObject? ==> (r.Ok? <==> isFile(value.p)) && (r.Ok? ==> r.value.simulator == value.p)
    ensures value.PathText? ==> (r.Ok? <==> isFile(PathOf(value.text))) && (r.Ok? ==> r.value.simulator == PathOf(value.text))
    ensures r.Err? && r.error == TypeError ==> value.PathOther?
  {
    match value
    case PathNone => Err(ValueError)
    case PathObject(p) => if isFile(p) then Ok(WriteSimulator(s, p)) else Err(ValueError)
    case PathText(text) => if isFile(PathOf(text)) then Ok(WriteSimulator(s, PathOf(text))) else Err(ValueError)
    case PathOther => Err(TypeError)
  }

  /** `set_exported`: raises the export flag and touches nothing else. */
  function SetExported(s: LibrarySettings): (r: LibrarySettings)
    ensures r.isExported
    ensures OnlyChanged(s, r, ExportedF)
  {
    s.(isExported := true)
  }
}
