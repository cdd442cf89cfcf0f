/** `EngineeringUnit` of characterizer/UnitsSettings.py: a unit symbol paired with a
    power-of-1000 scale factor, and the one-letter metric prefixes that name those
    factors (the power-of-1000 SI prefixes, with `u` written for micro). */
module EngineeringUnits {
  import opened Results

  /** The value held in `magnitude`. `Pow(k)` is the float `1e{3k}`, that is 1000^k,
      so `Pow(0)` is 1 (which the integer 1 also compares equal to). `Unscaled(token)`
      is any other float assigned directly; the token only tells such floats apart. */
  datatype Magnitude = Pow(exp: int) | Unscaled(token: nat)

  /** What a caller may assign to `magnitude`, by Python type. */
  datatype MagnitudeInput =
    | FloatIn(m: Magnitude)   // a float
    | IntIn(n: int)           // an int (a bool counts as 0 or 1)
    | TextIn(s: string)       // a str, read as a prefix letter
    | NoneIn                  // None

  datatype EngineeringUnit = EngineeringUnit(symbol: string, magnitude: Magnitude)

  /** What `str()` shows: a plain text when the magnitude is 1 or has a prefix, and
      otherwise the symbol followed by " x " and the float's own rendering (not modelled). */
  datatype Rendering = Plain(s: string) | Scaled(symbol: string, factor: Magnitude)

  /** The twenty prefix letters, from 1e30 down to 1e-30. */
  const PrefixLetters: string := "QRYZEPTGMkmunpfazyrq"

  /** The exponent k (magnitude 1000^k) a prefix letter stands for, as the string
      branch of the `magnitude` setter assigns it. */
  function PrefixExponent(c: char): Option<int>
  {
    match c
    case 'Q' => Some(10)
    case 'R' => Some(9)
    case 'Y' => Some(8)
    case 'Z' => Some(7)
    case 'E' => Some(6)
    case 'P' => Some(5)
    case 'T' => Some(4)
    case 'G' => Some(3)
    case 'M' => Some(2)
    case 'k' => Some(1)
    case 'm' => Some(-1)
    case 'u' => Some(-2)
    case 'n' => Some(-3)
    case 'p' => Some(-4)
    case 'f' => Some(-5)
    case 'a' => Some(-6)
    case 'z' => Some(-7)
    case 'y' => Some(-8)
    case 'r' => Some(-9)
    case 'q' => Some(-10)
    case _ => None
  }

  /** The letter `get_metric_prefix` returns for magnitude 1000^k. */
  function ExponentPrefix(k: int): Option<char>
  {
    if k == 10 then Some('Q')
    else if k == 9 then Some('R')
    else if k == 8 then Some('Y')
    else if k == 7 then Some('Z')
    else if k == 6 then Some('E')
    else if k == 5 then Some('P')
    else if k == 4 then Some('T')
    else if k == 3 then Some('G')
    else if k == 2 then Some('M')
    else if k == 1 then Some('k')
    else if k == -1 then Some('m')
    else if k == -2 then Some('u')
    else if k == -3 then Some('n')
    else if k == -4 then Some('p')
    else if k == -5 then Some('f')
    else if k == -6 then Some('a')
    else if k == -7 then Some('z')
    else if k == -8 then Some('y')
    else if k == -9 then Some('r')
    else if k == -10 then Some('q')
    else None
  }

  /** An exponent some prefix letter names: 1 <= |k| <= 10. */
  predicate Prefixable(k: int)
  {
    -10 <= k <= 10 && k != 0
  }

  /** The two lookups are inverse to each other, and between them cover exactly the
      twenty letters and the exponents 1 <= |k| <= 10. */
  lemma PrefixTableBijective()
    ensures forall c :: PrefixExponent(c).Some? ==>
      Prefixable(PrefixExponent(c).value) && ExponentPrefix(PrefixExponent(c).value) == Some(c)
    ensures forall k :: ExponentPrefix(k).Some? <==> Prefixable(k)
    ensures forall k :: ExponentPrefix(k).Some? ==> PrefixExponent(ExponentPrefix(k).value) == Some(k)
  {
    forall c | PrefixExponent(c).Some?
      ensures Prefixable(PrefixExponent(c).value) && ExponentPrefix(PrefixExponent(c).value) == Some(c)
    {
      PrefixLetterRoundTrip(c);
    }
    forall k
      ensures ExponentPrefix(k).Some? <==> Prefixable(k)
      ensures ExponentPrefix(k).Some? ==> PrefixExponent(ExponentPrefix(k).value) == Some(k)
    {
      PrefixExponentRoundTrip(k);
    }
  }

  lemma PrefixLetterRoundTrip(c: char)
    requires PrefixExponent(c).Some?
    ensures Prefixable(PrefixExponent(c).value) && ExponentPrefix(PrefixExponent(c).value) == Some(c)
  {
  }

  lemma PrefixExponentRoundTrip(k: int)
    ensures ExponentPrefix(k).Some? <==> Prefixable(k)
    ensures ExponentPrefix(k).Some? ==> PrefixExponent(ExponentPrefix(k).value) == Some(k)
  {
  }

  /** The table lists the letters in descending order of magnitude, one per exponent. */
  lemma PrefixLettersDescending()
    ensures |PrefixLetters| == 20
    ensures forall i :: 0 <= i < |PrefixLetters| ==>
      PrefixExponent(PrefixLetters[i]) == Some(if i < 10 then 10 - i else 9 - i)
    ensures forall c :: PrefixExponent(c).Some? <==> c in PrefixLetters
  {
  }

  /** `get_metric_prefix`: the letter naming the magnitude, if there is one. */
  function MetricPrefix(u: EngineeringUnit): (r: Option<char>)
    ensures r.Some? <==> u.magnitude.Pow? && Prefixable(u.magnitude.exp)
    ensures r.Some? ==> PrefixExponent(r.value) == Some(u.magnitude.exp)
  {
    PrefixTableBijective();
    match u.magnitude
    case Pow(k) => ExponentPrefix(k)
    case Unscaled(_) => None
  }

  /** The `symbol` setter: None and the empty string are ignored without error. */
  function SetSymbol(u: EngineeringUnit, value: Option<string>): (r: EngineeringUnit)
    ensures r.magnitude == u.magnitude
    ensures value.Some? && value.value != "" ==> r.symbol == value.value
    ensures value.None? || value.value == "" ==> r == u
  {
    if value.Some? && |value.value| > 0 then u.(symbol := value.value) else u
  }

  /** The `magnitude` setter. */
  function SetMagnitude(u: EngineeringUnit, value: MagnitudeInput): (r: Result<EngineeringUnit>)
    ensures r.Ok? ==> r.value.symbol == u.symbol
    // None, and any int but 1, is a TypeError; a float is stored without any check
    ensures value.NoneIn? ==> r == Err(TypeError)
    ensures value.IntIn? ==> (r.Ok? <==> value.n == 1) && (r.Err? ==> r.error == TypeError)
    ensures value.IntIn? && value.n == 1 ==> r.value.magnitude == Pow(0)
    ensures value.FloatIn? ==> r.Ok? && r.value.magnitude == value.m
    // a string is accepted exactly when it is one prefix letter, and then reads back as that letter
    ensures value.TextIn? ==> (r.Ok? <==> |value.s| == 1 && PrefixExponent(value.s[0]).Some?)
    ensures value.TextIn? && r.Ok? ==> r.value.magnitude == Pow(PrefixExponent(value.s[0]).value)
    ensures value.TextIn? && r.Err? ==> r.error == ValueError
  {
    match value
    case NoneIn => Err(TypeError)
    case FloatIn(m) => Ok(u.(magnitude := m))
    case IntIn(n) => if n == 1 then Ok(u.(magnitude := Pow(0))) else Err(TypeError)
    case TextIn(s) =>
      if |s| == 1 && PrefixExponent(s[0]).Some? then Ok(u.(magnitude := Pow(PrefixExponent(s[0]).value)))
      else Err(ValueError)
  }

  /** A string magnitude is accepted exactly when it is one of the twenty prefix letters,
      and the stored magnitude then reads back as that same letter. */
  lemma PrefixReadsBack(u: EngineeringUnit, text: string)
    ensures SetMagnitude(u, TextIn(text)).Ok? <==> |text| == 1 && text[0] in PrefixLetters
    ensures SetMagnitude(u, TextIn(text)).Ok? ==> MetricPrefix(SetMagnitude(u, TextIn(text)).value) == Some(text[0])
  {
    PrefixLettersDescending();
    if SetMagnitude(u, TextIn(text)).Ok? {
      PrefixTableBijective();
    }
  }

  /** The inputs the setter's messages are about: an upper-case `K`, the empty string,
      the int 1000 and None are all refused; the float 1e3 is stored. */
  lemma SetMagnitudeExamples(u: EngineeringUnit)
    ensures SetMagnitude(u, TextIn("K")) == Err(ValueError)
    ensures SetMagnitude(u, TextIn("")) == Err(ValueError)
    ensures SetMagnitude(u, TextIn("k")) == Ok(u.(magnitude := Pow(1)))
    ensures SetMagnitude(u, IntIn(1000)) == Err(TypeError)
    ensures SetMagnitude(u, IntIn(1)) == Ok(u.(magnitude := Pow(0)))
    ensures SetMagnitude(u, FloatIn(Pow(1))) == Ok(u.(magnitude := Pow(1)))
    ensures SetMagnitude(u, NoneIn) == Err(TypeError)
  {
  }

  /** `__str__`: the prefix letter glued to the symbol when there is one, the bare
      symbol at magnitude 1, and otherwise the scaled form. */
  function Render(u: EngineeringUnit): (r: Rendering)
    ensures r.Plain? <==> u.magnitude.Pow? && -10 <= u.magnitude.exp <= 10
    ensures r.Plain? ==> |u.symbol| <= |r.s| <= |u.symbol| + 1 && r.s[|r.s| - |u.symbol|..] == u.symbol
    ensures r.Plain? && |r.s| == |u.symbol| ==> u.magnitude == Pow(0)
    ensures r.Plain? && |r.s| > |u.symbol| ==> PrefixExponent(r.s[0]) == Some(u.magnitude.exp)
    ensures r.Scaled? ==> r.symbol == u.symbol && r.factor == u.magnitude
  {
    match MetricPrefix(u)
    case Some(p) => Plain([p] + u.symbol)
    case None => if u.magnitude == Pow(0) then Plain(u.symbol) else Scaled(u.symbol, u.magnitude)
  }
}
