# CharLib settings, modelled in Dafny

CharLib characterizes standard cells by driving a circuit simulator. The part of it that
holds checkable logic today is its configuration: `characterizer/UnitsSettings.py` and
`characterizer/LibrarySettings.py`. This project models those two files.

- **Engineering units.** An `EngineeringUnit` is a unit symbol plus a magnitude. The
  magnitude can be set from one of twenty one-letter metric prefixes: the power-of-1000
  SI prefixes, with `u` for micro. `get_metric_prefix` is the inverse lookup, and
  `__str__` prints the unit.
- **Units settings.** `UnitsSettings` holds the unit of each of seven quantities. Seven
  setters parse strings such as `mV`, `kVolts`, `pF`, `nseconds`, `kΩ` or `kOhm`. Unit
  letters and unit words are matched without regard to case. `Ω` is compared exactly
  as written. The prefix in front of the unit is always matched with regard to case.
- **Library settings.** `LibrarySettings` is a record of library-wide settings. Each
  field sits behind a validating setter. It also has `str_to_bool`, the derived
  `.lib`/`.v` file names, a one-way export flag, and `NamedNode`, a plain name/voltage
  pair.

Everything is written as pure functions over immutable datatypes:

- A magnitude is `Pow(k)`, meaning the float `1e{3k}`, or `Unscaled(token)`, meaning
  any other float assigned directly. No float arithmetic is needed.
- A setter that checks before it writes returns `Result`: the updated record, or the
  Python exception it raises (`ValueError` or `TypeError`).
- A units setter returns `Effect`: the record after the call plus the exception raised,
  if any. These setters write the symbol before they assign the magnitude, so they can
  raise after changing the record.

The seven units setters share one code shape. `Units.Forms` gives, per quantity, the
spellings the setter tries, in order. Two quirks of the code are modelled as written:

- The time setter keeps only `value[-7]`, a single character, as the symbol of a
  prefixed `seconds`. So `nseconds` gives the symbol `s`.
- The resistance setter always cuts three characters off a prefixed `ohm`/`ohms`. So
  `kOhm` gives `Ohm` at 1e3, while `kOhms` writes the symbol `hms` and then raises on
  the prefix `kO`.

The doc comments of `charlib/characterizer/procedures/metastability_delay.py` (lines 15-20
and 89-96) describe a bisection search for setup and hold times and a worst-case (largest)
result over the tested conditions. The bodies of those procedures are stubs (`pass`,
`print`, `TODO`). This model follows the code, so those procedures are not modelled.

Files: `results.dfy` (error kinds, `Option`, `Result`), `text.dfy` (lower-casing and
suffix tests), `engineering_unit.dfy`, `units_settings.dfy`, `units_laws.dfy`,
`library_settings.dfy`, `library_laws.dfy`.

## Model

| member | source | states |
|---|---|---|
| EngineeringUnits.PrefixTableBijective | characterizer/UnitsSettings.py:15-110 | the prefix letters the setter accepts and the letters `get_metric_prefix` returns are inverse lookups; a letter exists exactly for the exponents 1 <= abs(k) <= 10 |
| EngineeringUnits.PrefixLettersDescending | characterizer/UnitsSettings.py:70-110 | the twenty letters Q R Y Z E P T G M k m u n p f a z y r q stand for 1e30 down to 1e-30, one per power of 1000, skipping 1 |
| EngineeringUnits.MetricPrefix | characterizer/UnitsSettings.py:15-58 | a prefix is returned exactly when the magnitude is 1000^k with 1 <= abs(k) <= 10, and that prefix maps back to k; 1 and any other float give None |
| EngineeringUnits.SetSymbol | characterizer/UnitsSettings.py:10-13 | None and the empty string are ignored and keep the old symbol; any other string replaces it; the magnitude never changes |
| EngineeringUnits.SetMagnitude | characterizer/UnitsSettings.py:64-116 | None and every int but 1 raise TypeError; any float is stored unchecked; a string of one character is accepted exactly when the prefix table knows that character, and the magnitude becomes the letter's power of 1000; a refused string raises ValueError |
| EngineeringUnits.PrefixReadsBack | characterizer/UnitsSettings.py:64-116 | a string is accepted exactly when it is one of the twenty letters (`K` and the empty string are not), and `get_metric_prefix` of the stored magnitude then returns that same letter |
| EngineeringUnits.SetMagnitudeExamples | characterizer/UnitsSettings.py:64-116 | `K`, the empty string, the int 1000 and None are refused with the stated error kinds; `k`, the int 1 and the float 1e3 are stored |
| EngineeringUnits.Render | characterizer/UnitsSettings.py:119-127 | the output is text exactly when the magnitude is 1000^k with abs(k) <= 10; that text ends in the symbol, with at most one letter in front that decodes to the magnitude, and with no letter only at magnitude 1; otherwise it is the symbol with the magnitude as a factor |
| Units.Defaults | characterizer/UnitsSettings.py:134-141 | every quantity starts with its canonical symbol, at a power of 1000 between 1e-12 and 1 |
| Units.DefaultsPrint | characterizer/UnitsSettings.py:119-141 | the seven default units print as V, pF, Ω, uA, ns, nW and pJ |
| Units.Forms | characterizer/UnitsSettings.py:159-321 | each spelling cuts no more characters than its shortest suffix and keeps a non-empty symbol, so every slice the setters take exists |
| Units.Set | characterizer/UnitsSettings.py:159-321 | only the named quantity's unit can change; the only exception is ValueError, and the magnitude is unchanged when it is raised; an unrecognised suffix raises before anything is written; a successful call leaves a magnitude that prints as text |
| UnitsLaws.LetterSpelling | characterizer/UnitsSettings.py:160-168 | for voltage, capacitance, current, power and energy, input ending in the unit letter in either case: the bare letter sets the capital symbol at magnitude 1; a known prefix letter sets that magnitude with the letter as written; any other prefix writes the symbol and then raises ValueError with the magnitude kept |
| UnitsLaws.WordSpelling | characterizer/UnitsSettings.py:169-177 | for the same five quantities, input ending in the unit word in any case: the bare word is kept as written at magnitude 1; a known prefix sets that magnitude; any other prefix writes the word as symbol and raises ValueError |
| UnitsLaws.TimeLetterSpelling | characterizer/UnitsSettings.py:258-271 | input ending in `s`/`S` but not in `seconds` (any case): bare, the input is kept as symbol at magnitude 1; behind any prefix the letter as written becomes the symbol, and a known prefix letter sets its magnitude while any other prefix raises ValueError after the write |
| UnitsLaws.TimeWordSpelling | characterizer/UnitsSettings.py:258-264 | input ending in `seconds` in any case: bare, the input is kept as written at magnitude 1; behind any prefix only the word's first character (`value[-7]`) becomes the symbol, and a known prefix letter sets its magnitude while any other prefix raises ValueError after the write |
| UnitsLaws.TimeWordKeepsOneCharacter | characterizer/UnitsSettings.py:258-264 | a prefix letter followed by `seconds` sets the one-character symbol `s` at that prefix's magnitude |
| UnitsLaws.OmegaSpelling | characterizer/UnitsSettings.py:210-216 | input ending in `Ω` (compared with regard to case): bare sets Ω at 1; a known prefix sets its magnitude; any other prefix writes Ω and raises ValueError |
| UnitsLaws.OhmWordSpelling | characterizer/UnitsSettings.py:210-225 | input ending in `ohm` or `ohms` in any case misses the `Ω` spelling; bare, the input is kept as written at magnitude 1; behind a prefix, `ohm` as written becomes the symbol and the prefix sets its magnitude or raises ValueError; `ohms` always writes its last three characters as the symbol and raises ValueError, the magnitude kept |
| UnitsLaws.ResistanceSingularWord | characterizer/UnitsSettings.py:217-223 | a prefix letter followed by `Ohm` sets the symbol `Ohm` at that prefix's magnitude |
| UnitsLaws.ResistancePluralWordFails | characterizer/UnitsSettings.py:217-225 | any character followed by `Ohms` writes the symbol `hms`, keeps the magnitude and raises ValueError |
| UnitsLaws.RenderThenSetRoundTrip | characterizer/UnitsSettings.py:119-321 | for every quantity's canonical symbol and every magnitude 1000^k with abs(k) <= 10, assigning the unit's printed text to that quantity sets exactly that unit and raises nothing |
| UnitsLaws.DefaultsReparse | characterizer/UnitsSettings.py:134-141 | assigning each default unit's printed name back leaves the default settings unchanged |
| Library.StrToBool | characterizer/LibrarySettings.py:37-43 | the result is True exactly when the lower-cased input is `true`, `t` or `1`, and False exactly when it is `false`, `f` or `0`; anything else raises ValueError; an accepted spelling has one to five characters, and its first character, lower-cased, is `t`/`1` exactly for True and `f`/`0` exactly for False |
| Library.StrToBoolReadsPrintedBool | characterizer/LibrarySettings.py:37-43 | `str_to_bool` reads back `True` and `False`, the text Python prints for a bool |
| Library.StrToBoolIgnoresCase | characterizer/LibrarySettings.py:37-43 | lower-casing the input first never changes the outcome |
| Library.New | characterizer/LibrarySettings.py:47-81 | without an ngspice on the PATH the constructor raises TypeError; otherwise every default holds (`lib_name` unnamed_lib with `dotlib_name` and `verilog_name` unset, so the files are unnamed_lib.lib and unnamed_lib.v, empty affixes, default units, work dir `work`, nodes VDD/VSS/VPW/VNW at 0, temperature 25, thresholds 0.2/0.8/0.5/0.5 and 0.01/0.99, time extent 10, table_lookup, run_sim and mt_sim on, not exported, messages not suppressed) and the record is valid |
| Library.Assign | characterizer/LibrarySettings.py:117-410 | a TypeError comes only from the flag and work_dir setters; every other refusal is a ValueError |
| Library.AssignChangesOnlyTarget | characterizer/LibrarySettings.py:117-410 | a successful assignment changes only the field it names |
| Library.SetFlag | characterizer/LibrarySettings.py:353-379 | on success only the named flag changes and a valid record stays valid; a TypeError means the value was neither None, a bool nor a string |
| Library.SetQuiet | characterizer/LibrarySettings.py:392-410 | on success only the named `suppress_*` flag changes and validity is kept; a refusal is a ValueError |
| Library.SetWorkDir | characterizer/LibrarySettings.py:117-127 | on success only `work_dir` changes and validity is kept; a TypeError means the value was neither None, a Path nor a string |
| Library.SetSimulator | characterizer/LibrarySettings.py:133-147 | None raises ValueError and a non-path type TypeError; a path or string is accepted exactly when it names a file, which is then stored; nothing else changes |
| Library.SetExported | characterizer/LibrarySettings.py:385-386 | the export flag is set and no other field changes |
| LibraryLaws.TextSetters | characterizer/LibrarySettings.py:153-219 | the eight string setters accept exactly a non-empty string and store it; None or the empty string raises ValueError |
| LibraryLaws.FractionSetters | characterizer/LibrarySettings.py:236-311 | the six threshold setters accept exactly the values strictly between 0 and 1 and store them; anything else raises ValueError |
| LibraryLaws.ExtentAndTemperatureSetters | characterizer/LibrarySettings.py:225-325 | `energy_meas_time_extent` accepts exactly the positive values and `temperature` any value but None; both raise ValueError otherwise |
| LibraryLaws.FlagSetters | characterizer/LibrarySettings.py:353-379 | `run_sim`/`mt_sim` store a bool as given and a string through `str_to_bool`; None raises ValueError, any other type TypeError |
| LibraryLaws.QuietSetters | characterizer/LibrarySettings.py:392-410 | the `suppress_*` setters succeed exactly when `str_to_bool` does and store its value |
| LibraryLaws.WorkDirSetter | characterizer/LibrarySettings.py:117-127 | `work_dir` stores a Path as given and a string as a Path; None raises ValueError, any other type TypeError |
| LibraryLaws.AssignKeepsValid | characterizer/LibrarySettings.py:149-347 | no assignment can store an empty name, a threshold outside (0, 1) or a non-positive time extent into a valid record |
| LibraryLaws.FileNamesNonEmpty | characterizer/LibrarySettings.py:160-186 | a valid record always names non-empty `.lib` and `.v` files |
| LibraryLaws.DerivedNamesFollowLibName | characterizer/LibrarySettings.py:160-186 | while unset, `dotlib_name` and `verilog_name` are the new `lib_name` plus `.lib` and `.v` |
| LibraryLaws.ExplicitNamesStay | characterizer/LibrarySettings.py:160-186 | once set, the file names keep their value under every assignment to another field, `lib_name` included |
| LibraryLaws.ExplicitNameWins | characterizer/LibrarySettings.py:167-186 | an explicitly assigned file name is what the property returns |
| LibraryLaws.ExportIsPermanent | characterizer/LibrarySettings.py:381-386 | `set_exported` is idempotent, and no setter clears the flag once it is set |
| LibraryLaws.ThresholdsNotCrossChecked | characterizer/LibrarySettings.py:236-255 | starting from the defaults, the low logic threshold can be set above the high one |

## Left out

- Procedure files under `charlib/characterizer/procedures/`: their bodies are `pass`, `print` or `TODO`. The bisection and worst-case reduction exist only in doc comments.
- `normalized_voltage` and the `*_threshold_voltage` methods: these are float products.
- The float text inside `__str__`: the factor of a scaled unit is kept as a value, not printed.
- `__str__` of `UnitsSettings` and `LibrarySettings`, and every `__repr__`: these format text only.
- `which('ngspice')` and `Path.is_file()`: they touch the PATH and the filesystem. Their answers are parameters of `Library.New` and `Library.SetSimulator`.
- Path normalisation: `Path(text)` is modelled as `PathOf(text)`, so two texts naming the same Python path are different values here.
- The general `EngineeringUnit` constructor: with an empty symbol it leaves the object without a symbol attribute. It is only called with the seven defaults, which `Units.Defaults` models.
- `NamedNode` setters: they store any value unchecked, so the datatype's record update stands for them.
- Python dynamic-typing failures, for example `.lower()` on a non-string: inputs are typed values. A bool given to the magnitude setter counts as the int 0 or 1.
- Float range and NaN: `Pow(k)` is taken for any k, although `1e{3k}` overflows for large k. Thresholds are reals, so NaN is not modelled; a NaN threshold is refused by the source too.
- Units.Set: its contract states the frame, the error kind, and that an unrecognised input writes nothing; it does not say which unit a recognised spelling stores. That is stated per spelling family by the `UnitsLaws` spelling lemmas listed in the next line.
- Units.Forms: its contract states only that every slice exists. What each spelling does is stated by the `UnitsLaws` spelling lemmas: `LetterSpelling`, `WordSpelling`, `TimeLetterSpelling`, `TimeWordSpelling`, `OmegaSpelling` and `OhmWordSpelling`. Each one covers every input ending in its suffix.
- Library.Assign: its own contract states the error kinds; the frame is stated by `Library.AssignChangesOnlyTarget`. The per-setter acceptance conditions are stated by the `LibraryLaws` lemmas.
