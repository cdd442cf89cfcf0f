/** What the `LibrarySettings` setters accept and reject, stated for all inputs, and the
    facts that relate several calls: the derived file names, the export flag, and the
    validity every setter preserves. */
module LibraryLaws {
  import opened Results
  import opened Text
  import opened Library

  /** The string setters reject None and the empty string with a ValueError, and
      otherwise store the string. */
  lemma TextSetters(s: LibrarySettings, t: TextField, v: Option<string>)
    ensures Assign(s, AssignText(t, v)).Ok? <==> v.Some? && v.value != ""
    ensures Assign(s, AssignText(t, v)).Err? ==> Assign(s, AssignText(t, v)).error == ValueError
    ensures Assign(s, AssignText(t, v)).Ok? ==> Read(Assign(s, AssignText(t, v)).value, TextF(t)) == Str(v)
  {
  }

  /** The six threshold setters accept exactly the values strictly between 0 and 1. */
  lemma FractionSetters(s: LibrarySettings, x: FractionField, v: Option<real>)
    ensures Assign(s, AssignFraction(x, v)).Ok? <==> v.Some? && 0.0 < v.value < 1.0
    ensures Assign(s, AssignFraction(x, v)).Err? ==> Assign(s, AssignFraction(x, v)).error == ValueError
    ensures Assign(s, AssignFraction(x, v)).Ok? ==> Read(Assign(s, AssignFraction(x, v)).value, FractionF(x)) == Num(v.value)
  {
  }

  /** `energy_meas_time_extent` accepts only positive values; `temperature` anything but None. */
  lemma ExtentAndTemperatureSetters(s: LibrarySettings, v: Option<real>)
    ensures Assign(s, AssignTimeExtent(v)).Ok? <==> v.Some? && v.value > 0.0
    ensures Assign(s, AssignTimeExtent(v)).Ok? ==> Assign(s, AssignTimeExtent(v)).value.energyMeasTimeExtent == v.value
    ensures Assign(s, AssignTemperature(v)).Ok? <==> v.Some?
    ensures Assign(s, AssignTemperature(v)).Ok? ==> Assign(s, AssignTemperature(v)).value.temperature == v.value
    ensures Assign(s, AssignTimeExtent(v)).Err? ==> Assign(s, AssignTimeExtent(v)).error == ValueError
    ensures Assign(s, AssignTemperature(v)).Err? ==> Assign(s, AssignTemperature(v)).error == ValueError
  {
    ExtentSetter(s, v);
    TemperatureSetter(s, v);
  }

  lemma ExtentSetter(s: LibrarySettings, v: Option<real>)
    ensures Assign(s, AssignTimeExtent(v)) ==
      if v.Some? && v.value > 0.0 then Ok(s.(energyMeasTimeExtent := v.value)) else Err(ValueError)
  {
  }

  lemma TemperatureSetter(s: LibrarySettings, v: Option<real>)
    ensures Assign(s, AssignTemperature(v)) ==
      if v.Some? then Ok(s.(temperature := v.value)) else Err(ValueError)
  {
  }

  /** `run_sim` and `mt_sim`: a bool is stored as given, a string goes through
      `str_to_bool`, None is a ValueError and any other type a TypeError. */
  lemma FlagSetters(s: LibrarySettings, g: FlagField, v: FlagInput)
    ensures v.FlagNone? ==> Assign(s, AssignFlag(g, v)) == Err(ValueError)
    ensures v.FlagOther? ==> Assign(s, AssignFlag(g, v)) == Err(TypeError)
    ensures v.FlagBool? ==>
      Assign(s, AssignFlag(g, v)).Ok? && Read(Assign(s, AssignFlag(g, v)).value, FlagF(g)) == Flag(v.b)
    ensures v.FlagText? ==>
      (Assign(s, AssignFlag(g, v)).Ok? <==> StrToBool(v.text).Ok?) &&
      (Assign(s, AssignFlag(g, v)).Ok? ==> Read(Assign(s, AssignFlag(g, v)).value, FlagF(g)) == Flag(StrToBool(v.text).value)) &&
      (Assign(s, AssignFlag(g, v)).Err? ==> Assign(s, AssignFlag(g, v)).error == ValueError)
  {
  }

  /** The `suppress_*` setters always go through `str_to_bool`. */
  lemma QuietSetters(s: LibrarySettings, m: QuietField, word: string)
    ensures Assign(s, AssignQuiet(m, word)).Ok? <==> StrToBool(word).Ok?
    ensures Assign(s, AssignQuiet(m, word)).Ok? ==>
      Read(Assign(s, AssignQuiet(m, word)).value, QuietF(m)) == Flag(StrToBool(word).value)
    ensures Assign(s, AssignQuiet(m, word)).Err? ==> Assign(s, AssignQuiet(m, word)).error == ValueError
  {
  }

  /** `work_dir` takes a Path as given or converts a string; None is a ValueError and any
      other type a TypeError. */
  lemma WorkDirSetter(s: LibrarySettings, v: PathInput)
    ensures v.PathNone? ==> Assign(s, AssignWorkDir(v)) == Err(ValueError)
    ensures v.PathOther? ==> Assign(s, AssignWorkDir(v)) == Err(TypeError)
    ensures v.PathObject? ==> Assign(s, AssignWorkDir(v)) == Ok(s.(workDir := v.p))
    ensures v.PathText? ==> Assign(s, AssignWorkDir(v)) == Ok(s.(workDir := PathOf(v.text)))
  {
  }

  /** Every setter keeps the record valid: no sequence of assignments can store an empty
      name or a threshold outside (0, 1). */
  lemma AssignKeepsValid(s: LibrarySettings, a: Assignment)
    requires Valid(s)
    ensures Assign(s, a).Ok? ==> Valid(Assign(s, a).value)
  {
    match a
    case AssignText(t, v) => {}
    case AssignFraction(x, v) => {}
    case AssignTimeExtent(v) => {}
    case AssignTemperature(v) => {}
    case AssignFlag(g, v) => {}
    case AssignQuiet(m, w) => {}
    case AssignWorkDir(v) => {}
  }

  /** Valid settings always name non-empty output files. */
  lemma FileNamesNonEmpty(s: LibrarySettings)
    requires Valid(s)
    ensures DotlibFile(s) != "" && VerilogFile(s) != ""
  {
  }

  /** Until `dotlib_name`/`verilog_name` are set, they follow every new `lib_name`. */
  lemma DerivedNamesFollowLibName(s: LibrarySettings, name: string)
    requires name != ""
    ensures Assign(s, AssignText(LibName, Some(name))).Ok?
    ensures s.dotlibName.None? ==> DotlibFile(Assign(s, AssignText(LibName, Some(name))).value) == name + ".lib"
    ensures s.verilogName.None? ==> VerilogFile(Assign(s, AssignText(LibName, Some(name))).value) == name + ".v"
  {
  }

  /** Once set explicitly, the file names keep their value under every assignment to
      any other field, `lib_name` included. */
  lemma ExplicitNamesStay(s: LibrarySettings, a: Assignment)
    ensures s.dotlibName.Some? && Assign(s, a).Ok? && Target(a) != TextF(DotlibName) ==>
      DotlibFile(Assign(s, a).value) == DotlibFile(s)
    ensures s.verilogName.Some? && Assign(s, a).Ok? && Target(a) != TextF(VerilogName) ==>
      VerilogFile(Assign(s, a).value) == VerilogFile(s)
  {
    if Assign(s, a).Ok? {
      var r := Assign(s, a).value;
      AssignChangesOnlyTarget(s, a);
      NameStays(s, r, Target(a), DotlibName);
      NameStays(s, r, Target(a), VerilogName);
    }
  }

  /** A frame that spares a text field leaves that field as it was. */
  lemma NameStays(s: LibrarySettings, r: LibrarySettings, target: Field, name: TextField)
    requires OnlyChanged(s, r, target)
    ensures target != TextF(name) ==> Read(r, TextF(name)) == Read(s, TextF(name))
  {
  }

  /** An explicitly assigned file name is what the property returns. */
  lemma ExplicitNameWins(s: LibrarySettings, name: string)
    requires name != ""
    ensures Assign(s, AssignText(DotlibName, Some(name))).Ok?
    ensures DotlibFile(Assign(s, AssignText(DotlibName, Some(name))).value) == name
    ensures Assign(s, AssignText(VerilogName, Some(name))).Ok?
    ensures VerilogFile(Assign(s, AssignText(VerilogName, Some(name))).value) == name
  {
  }

  /** `set_exported` is idempotent, and once exported no setter clears the flag. */
  lemma ExportIsPermanent(s: LibrarySettings, a: Assignment, v: PathInput, isFile: PathRef -> bool)
    ensures SetExported(SetExported(s)) == SetExported(s)
    ensures s.isExported && Assign(s, a).Ok? ==> Assign(s, a).value.isExported
    ensures s.isExported && SetSimulator(s, v, isFile).Ok? ==> SetSimulator(s, v, isFile).value.isExported
  {
    if Assign(s, a).Ok? {
      AssignChangesOnlyTarget(s, a);
      assert Read(Assign(s, a).value, ExportedF) == Read(s, ExportedF);
    }
    if SetSimulator(s, v, isFile).Ok? {
      assert Read(SetSimulator(s, v, isFile).value, ExportedF) == Read(s, ExportedF);
    }
  }

  /** The thresholds are checked one at a time: the low logic threshold may be set above
      the high one. */
  lemma ThresholdsNotCrossChecked(ngspice: string)
    ensures New(Some(ngspice)).Ok?
    ensures var r := Assign(New(Some(ngspice)).value, AssignFraction(LogicThresholdLow, Some(0.9)));
      r.Ok? && r.value.logicThresholdLow > r.value.logicThresholdHigh
  {
  }
}
