/** `UnitsSettings` of characterizer/UnitsSettings.py: the unit used for each of seven
    physical quantities, and the setters that parse unit names such as `mV`, `kVolts`,
    `pF`, `nseconds` or `kOhm`. */
module Units {
  import opened Results
  import opened Text
  import opened EngineeringUnits

  datatype Quantity = Voltage | Capacitance | Resistance | Current | Time | Power | Energy

  datatype UnitsSettings = UnitsSettings(
    voltage: EngineeringUnit,
    capacitance: EngineeringUnit,
    resistance: EngineeringUnit,
    current: EngineeringUnit,
    time: EngineeringUnit,
    power: EngineeringUnit,
    energy: EngineeringUnit)

  /** What a quantity setter leaves behind. The setters write the symbol before they
      assign the magnitude, so an exception can be raised after the record changed. */
  datatype Effect = Effect(after: UnitsSettings, raised: Option<ErrorKind>)

  function Get(s: UnitsSettings, q: Quantity): EngineeringUnit
  {
    match q
    case Voltage => s.voltage
    case Capacitance => s.capacitance
    case Resistance => s.resistance
    case Current => s.current
    case Time => s.time
    case Power => s.power
    case Energy => s.energy
  }

  function Put(s: UnitsSettings, q: Quantity, u: EngineeringUnit): (r: UnitsSettings)
    ensures Get(r, q) == u
    ensures forall q' :: q' != q ==> Get(r, q') == Get(s, q')
  {
    match q
    case Voltage => s.(voltage := u)
    case Capacitance => s.(capacitance := u)
    case Resistance => s.(resistance := u)
    case Current => s.(current := u)
    case Time => s.(time := u)
    case Power => s.(power := u)
    case Energy => s.(energy := u)
  }

  /** The symbol each quantity starts with, and the one its short spelling sets. */
  function CanonicalSymbol(q: Quantity): string
  {
    match q
    case Voltage => "V"
    case Capacitance => "F"
    case Resistance => "Ω"
    case Current => "A"
    case Time => "s"
    case Power => "W"
    case Energy => "J"
  }

  /** The constructor's units: each quantity's canonical symbol, at 1 or a fraction of it. */
  function Defaults(): (d: UnitsSettings)
    ensures forall q :: Get(d, q).symbol == CanonicalSymbol(q)
    ensures forall q :: Get(d, q).magnitude.Pow? && -4 <= Get(d, q).magnitude.exp <= 0
  {
    UnitsSettings(
      EngineeringUnit("V", Pow(0)),
      EngineeringUnit("F", Pow(-4)),
      EngineeringUnit("Ω", Pow(0)),
      EngineeringUnit("A", Pow(-2)),
      EngineeringUnit("s", Pow(-3)),
      EngineeringUnit("W", Pow(-3)),
      EngineeringUnit("J", Pow(-4)))
  }

  /** The default units print as V, pF, Ω, uA, ns, nW and pJ. */
  lemma DefaultsPrint()
    ensures Render(Defaults().voltage) == Plain("V")
    ensures Render(Defaults().capacitance) == Plain("pF")
    ensures Render(Defaults().resistance) == Plain("Ω")
    ensures Render(Defaults().current) == Plain("uA")
    ensures Render(Defaults().time) == Plain("ns")
    ensures Render(Defaults().power) == Plain("nW")
    ensures Render(Defaults().energy) == Plain("pJ")
  {
    RenderAtOne("V");
    RenderAtOne("Ω");
    RenderPrefixed("F", -4, 'p', "pF");
    RenderPrefixed("A", -2, 'u', "uA");
    RenderPrefixed("s", -3, 'n', "ns");
    RenderPrefixed("W", -3, 'n', "nW");
    RenderPrefixed("J", -4, 'p', "pJ");
  }

  lemma RenderAtOne(symbol: string)
    ensures Render(EngineeringUnit(symbol, Pow(0))) == Plain(symbol)
  {
  }

  lemma RenderPrefixed(symbol: string, k: int, c: char, printed: string)
    requires ExponentPrefix(k) == Some(c) && printed == [c] + symbol
    ensures Render(EngineeringUnit(symbol, Pow(k))) == Plain(printed)
  {
    PrefixTableBijective();
  }

  /** Which symbol a bare spelling (no prefix) sets: a fixed one, or the input as written. */
  datatype Bare = Canonical(symbol: string) | AsWritten

  /** One spelling family a setter recognises. The input matches when it ends with one
      of `suffixes` (compared after lower-casing when `ignoreCase`); it is bare when it
      equals one of them. Otherwise the last `strip` characters are cut off, what is left
      is the prefix, and the symbol is the `keep` characters where the cut begins. */
  datatype Form = Form(suffixes: seq<string>, ignoreCase: bool, bare: Bare, strip: nat, keep: nat)

  predicate WellFormed(f: Form)
  {
    && 1 <= f.keep <= f.strip
    && (f.bare.Canonical? ==> f.bare.symbol != "")
    && forall i :: 0 <= i < |f.suffixes| ==> f.strip <= |f.suffixes[i]|
  }

  /** A one-letter spelling such as `v` whose bare form sets the capital symbol `V`. */
  function Letter(lower: string, symbol: string): Form
  {
    Form([lower], true, Canonical(symbol), 1, 1)
  }

  /** A whole-word spelling such as `volts`, kept as written. */
  function Word(lower: string): Form
  {
    Form([lower], true, AsWritten, |lower|, |lower|)
  }

  /** The spellings of each setter, in the order the setter tries them. The time setter
      keeps only one character (`value[-7]`) of a prefixed `seconds`, and the resistance
      setter always cuts three characters off a prefixed `ohm` or `ohms`. */
  function Forms(q: Quantity): (r: seq<Form>)
    ensures forall i :: 0 <= i < |r| ==> WellFormed(r[i])
  {
    match q
    case Voltage => [Letter("v", "V"), Word("volts")]
    case Capacitance => [Letter("f", "F"), Word("farads")]
    case Resistance => [Form(["Ω"], false, Canonical("Ω"), 1, 1), Form(["ohms", "ohm"], true, AsWritten, 3, 3)]
    case Current => [Letter("a", "A"), Word("amps")]
    case Time => [Form(["seconds"], true, AsWritten, 7, 1), Form(["s"], true, AsWritten, 1, 1)]
    case Power => [Letter("w", "W"), Word("watts")]
    case Energy => [Letter("j", "J"), Word("joules")]
  }

  function Folded(f: Form, v: string): string
  {
    if f.ignoreCase then Lower(v) else v
  }

  predicate Matches(f: Form, v: string)
  {
    EndsWithAny(Folded(f, v), f.suffixes)
  }

  predicate IsBare(f: Form, v: string)
  {
    Folded(f, v) in f.suffixes
  }

  /** Some spelling of the quantity's setter matches the input. */
  predicate Recognised(q: Quantity, v: string)
  {
    exists i :: 0 <= i < |Forms(q)| && Matches(Forms(q)[i], v)
  }

  /** One branch of a setter: write the symbol, then assign the magnitude. */
  function ApplyForm(s: UnitsSettings, q: Quantity, f: Form, v: string): (r: Effect)
    requires WellFormed(f) && Matches(f, v)
  {
    var u := Get(s, q);
    EndsWithAnyLength(Folded(f, v), f.suffixes, f.strip);
    if IsBare(f, v) then
      var symbol := if f.bare.Canonical? then f.bare.symbol else v;
      var scaled := SetMagnitude(SetSymbol(u, Some(symbol)), IntIn(1));
      Effect(Put(s, q, scaled.value), None)
    else
      var cut := |v| - f.strip;
      var named := SetSymbol(u, Some(v[cut .. cut + f.keep]));
      match SetMagnitude(named, TextIn(v[..cut]))
      case Ok(w) => Effect(Put(s, q, w), None)
      case Err(e) => Effect(Put(s, q, named), Some(e))
  }

  /** Tries the spellings in order; none matching is a ValueError before any write. */
  function SetWith(s: UnitsSettings, q: Quantity, forms: seq<Form>, v: string): (r: Effect)
    requires forall i :: 0 <= i < |forms| ==> WellFormed(forms[i])
    ensures forall q' :: q' != q ==> Get(r.after, q') == Get(s, q')
    ensures r.raised.Some? ==> r.raised.value == ValueError
    ensures r.raised.Some? ==> Get(r.after, q).magnitude == Get(s, q).magnitude
    ensures r.raised.None? ==> Get(r.after, q).magnitude.Pow? && -10 <= Get(r.after, q).magnitude.exp <= 10
    ensures (forall i :: 0 <= i < |forms| ==> !Matches(forms[i], v)) ==> r == Effect(s, Some(ValueError))
    decreases |forms|
  {
    if forms == [] then Effect(s, Some(ValueError))
    else if Matches(forms[0], v) then ApplyForm(s, q, forms[0], v)
    else SetWith(s, q, forms[1..], v)
  }

  /** The seven quantity setters (`voltage`, `capacitance`, ... , `energy`). */
  function Set(s: UnitsSettings, q: Quantity, v: string): (r: Effect)
    // only the named quantity's unit can change
    ensures forall q' :: q' != q ==> Get(r.after, q') == Get(s, q')
    // the only exception is ValueError, and it never changes the magnitude
    ensures r.raised.Some? ==> r.raised.value == ValueError
    ensures r.raised.Some? ==> Get(r.after, q).magnitude == Get(s, q).magnitude
    // a successful assignment always leaves a magnitude that renders as text
    ensures r.raised.None? ==> Render(Get(r.after, q)).Plain?
    // an unrecognised suffix raises before anything is written
    ensures !Recognised(q, v) ==> r == Effect(s, Some(ValueError))
  {
    SetWith(s, q, Forms(q), v)
  }
}
