/** What the quantity setters of `UnitsSettings` accept, stated for all inputs. Unit
    letters and words are recognised without regard to case, `Ω` as written, and the
    prefix in front of the unit with regard to case. Every unit `str()` prints for a
    canonical symbol parses back. */
module UnitsLaws {
  import opened Results
  import opened Text
  import opened EngineeringUnits
  import opened Units

  /** The quantities whose setters try a one-letter spelling first and a word second. */
  predicate LetterAndWord(q: Quantity)
  {
    q != Resistance && q != Time
  }

  /** The prefix is exactly one known letter. */
  predicate KnownPrefix(pre: string)
  {
    |pre| == 1 && PrefixExponent(pre[0]).Some?
  }

  /** The setter's first spelling decides when it matches. */
  lemma SetByFirstForm(s: UnitsSettings, q: Quantity, v: string)
    requires Matches(Forms(q)[0], v)
    ensures Set(s, q, v) == ApplyForm(s, q, Forms(q)[0], v)
  {
  }

  /** The second spelling decides when only it matches. */
  lemma SetBySecondForm(s: UnitsSettings, q: Quantity, v: string)
    requires !Matches(Forms(q)[0], v) && Matches(Forms(q)[1], v)
    ensures Set(s, q, v) == ApplyForm(s, q, Forms(q)[1], v)
  {
    var rest := Forms(q)[1..];
    assert rest != [] && rest[0] == Forms(q)[1];
    assert SetWith(s, q, rest, v) == ApplyForm(s, q, rest[0], v);
  }

  /** A bare spelling sets its symbol at magnitude 1. */
  lemma ApplyBare(s: UnitsSettings, q: Quantity, f: Form, v: string)
    requires WellFormed(f) && Matches(f, v) && IsBare(f, v)
    ensures ApplyForm(s, q, f, v)
      == Effect(Put(s, q, EngineeringUnit(if f.bare.Canonical? then f.bare.symbol else v, Pow(0))), None)
  {
  }

  /** A prefixed spelling: the symbol is taken from the cut-off tail, and the prefix
      in front of it either names a magnitude or raises after the symbol was written. */
  lemma {:induction false} ApplyPrefixed(s: UnitsSettings, q: Quantity, f: Form, pre: string, tail: string)
    requires WellFormed(f) && Matches(f, pre + tail) && !IsBare(f, pre + tail)
    requires |tail| == f.strip
    ensures KnownPrefix(pre) ==>
      ApplyForm(s, q, f, pre + tail)
      == Effect(Put(s, q, EngineeringUnit(tail[..f.keep], Pow(PrefixExponent(pre[0]).value))), None)
    ensures !KnownPrefix(pre) ==>
      ApplyForm(s, q, f, pre + tail)
      == Effect(Put(s, q, Get(s, q).(symbol := tail[..f.keep])), Some(ValueError))
  {
    var v := pre + tail;
    var cut := |v| - f.strip;
    assert v[cut .. cut + f.keep] == tail[..f.keep];
    assert v[..cut] == pre;
    var named := SetSymbol(Get(s, q), Some(tail[..f.keep]));
    assert named == EngineeringUnit(tail[..f.keep], Get(s, q).magnitude);
    var scaled := SetMagnitude(named, TextIn(pre));
    assert ApplyForm(s, q, f, v)
      == if scaled.Ok? then Effect(Put(s, q, scaled.value), None)
         else Effect(Put(s, q, named), Some(scaled.error));
    if KnownPrefix(pre) {
      assert scaled == Ok(EngineeringUnit(tail[..f.keep], Pow(PrefixExponent(pre[0]).value)));
    } else {
      assert scaled == Err(ValueError);
    }
  }

  /** An input ending in the quantity's letter is handled by the letter spelling, and
      is bare exactly when nothing precedes the letter. */
  lemma {:induction false} LetterMatches(q: Quantity, pre: string, c: char)
    requires LetterAndWord(q)
    requires Forms(q)[0].suffixes == [[LowerChar(c)]]
    ensures Matches(Forms(q)[0], pre + [c])
    ensures IsBare(Forms(q)[0], pre + [c]) <==> pre == []
  {
    LetterAndWordForms(q);
    LetterFormMatches(Forms(q)[0], pre, c);
  }

  /** The bare letter sets the capital symbol at magnitude 1. */
  lemma {:induction false} BareLetter(s: UnitsSettings, q: Quantity, c: char)
    requires LetterAndWord(q)
    requires Forms(q)[0].suffixes == [[LowerChar(c)]]
    ensures Set(s, q, [c]) == Effect(Put(s, q, EngineeringUnit(CanonicalSymbol(q), Pow(0))), None)
  {
    LetterAndWordForms(q);
    LetterMatches(q, [], c);
    assert [] + [c] == [c];
    SetByFirstForm(s, q, [c]);
    ApplyBare(s, q, Forms(q)[0], [c]);
  }

  /** A prefixed letter keeps the letter as written as its symbol. */
  lemma {:induction false} PrefixedLetter(s: UnitsSettings, q: Quantity, pre: string, c: char)
    requires LetterAndWord(q)
    requires Forms(q)[0].suffixes == [[LowerChar(c)]]
    requires pre != []
    ensures KnownPrefix(pre) ==>
      Set(s, q, pre + [c]) == Effect(Put(s, q, EngineeringUnit([c], Pow(PrefixExponent(pre[0]).value))), None)
    ensures !KnownPrefix(pre) ==>
      Set(s, q, pre + [c]) == Effect(Put(s, q, Get(s, q).(symbol := [c])), Some(ValueError))
  {
    LetterAndWordForms(q);
    LetterMatches(q, pre, c);
    SetByFirstForm(s, q, pre + [c]);
    ApplyPrefixed(s, q, Forms(q)[0], pre, [c]);
  }

  /** Inputs ending in the quantity's letter in either case (`v`, `mV`, `KV`, ...). */
  lemma {:induction false} LetterSpelling(s: UnitsSettings, q: Quantity, pre: string, c: char)
    requires LetterAndWord(q)
    requires Forms(q)[0].suffixes == [[LowerChar(c)]]
    ensures pre == [] ==>
      Set(s, q, [c]) == Effect(Put(s, q, EngineeringUnit(CanonicalSymbol(q), Pow(0))), None)
    ensures KnownPrefix(pre) ==>
      Set(s, q, pre + [c]) == Effect(Put(s, q, EngineeringUnit([c], Pow(PrefixExponent(pre[0]).value))), None)
    ensures pre != [] && !KnownPrefix(pre) ==>
      Set(s, q, pre + [c]) == Effect(Put(s, q, Get(s, q).(symbol := [c])), Some(ValueError))
  {
    if pre == [] {
      BareLetter(s, q, c);
    } else {
      PrefixedLetter(s, q, pre, c);
    }
  }

  /** The shape of the letter-and-word setters' spellings. */
  lemma LetterAndWordForms(q: Quantity)
    requires LetterAndWord(q)
    ensures |Forms(q)| == 2
    ensures Forms(q)[0].ignoreCase && |Forms(q)[0].suffixes| == 1 && Forms(q)[0].suffixes[0] == [Forms(q)[0].suffixes[0][0]]
    ensures Forms(q)[0].suffixes[0][0] != 's'
    ensures Forms(q)[0].bare == Canonical(CanonicalSymbol(q)) && Forms(q)[0].strip == 1 && Forms(q)[0].keep == 1
    ensures var w := Forms(q)[1].suffixes[0];
      Forms(q)[1] == Form([w], true, AsWritten, |w|, |w|) && |w| > 1 && w[|w| - 1] == 's'
  {
  }

  /** A word ending in `s` never ends in a single letter other than `s`. */
  lemma {:induction false} WordMissesLetter(v: string, word: string, letter: string)
    requires EndsWith(v, word) && |word| > 0 && word[|word| - 1] == 's'
    requires |letter| == 1 && letter[0] != 's'
    ensures !EndsWith(v, letter)
  {
    assert v[|v| - 1] == 's';
  }

  /** A letter spelling never matches text that ends in a word ending in `s`. */
  lemma {:induction false} WordSkipsLetter(letter: Form, x: char, pre: string, word: string)
    requires letter.ignoreCase && letter.suffixes == [[x]] && x != 's'
    requires |word| > 0 && Lower(word)[|word| - 1] == 's'
    ensures !Matches(letter, pre + word)
  {
    var v := pre + word;
    LoweredEndsWith(pre, word);
    WordMissesLetter(Lower(v), Lower(word), [x]);
    assert Folded(letter, v) == Lower(v);
    assert letter.suffixes[1..] == [];
    assert !EndsWithAny(Lower(v), letter.suffixes[1..]);
    assert !EndsWith(Lower(v), letter.suffixes[0]);
  }

  /** A word spelling matches text ending in the word, bare exactly when nothing precedes it. */
  lemma {:induction false} WordMatchesWord(f: Form, pre: string, word: string)
    requires f.ignoreCase && f.suffixes == [Lower(word)]
    ensures Matches(f, pre + word)
    ensures IsBare(f, pre + word) <==> pre == []
  {
    var v := pre + word;
    LoweredEndsWith(pre, word);
    assert EndsWith(Folded(f, v), f.suffixes[0]);
    if pre != [] {
      assert |Folded(f, v)| > |word|;
    }
  }

  /** An input ending in the quantity's word skips the letter spelling, is handled by
      the word spelling, and is bare exactly when nothing precedes the word. */
  lemma WordMatches(q: Quantity, pre: string, word: string)
    requires LetterAndWord(q)
    requires Forms(q)[1].suffixes == [Lower(word)]
    ensures !Matches(Forms(q)[0], pre + word)
    ensures Matches(Forms(q)[1], pre + word)
    ensures IsBare(Forms(q)[1], pre + word) <==> pre == []
  {
    LetterAndWordForms(q);
    WordSkipsLetter(Forms(q)[0], Forms(q)[0].suffixes[0][0], pre, word);
    WordMatchesWord(Forms(q)[1], pre, word);
  }

  /** The bare word is kept as written, at magnitude 1. */
  lemma {:induction false} BareWord(s: UnitsSettings, q: Quantity, word: string)
    requires LetterAndWord(q)
    requires Forms(q)[1].suffixes == [Lower(word)]
    ensures Set(s, q, word) == Effect(Put(s, q, EngineeringUnit(word, Pow(0))), None)
  {
    LetterAndWordForms(q);
    WordMatches(q, [], word);
    assert [] + word == word;
    SetBySecondForm(s, q, word);
    ApplyBare(s, q, Forms(q)[1], word);
  }

  /** A prefixed word keeps the word as written as its symbol. */
  lemma {:induction false} PrefixedWord(s: UnitsSettings, q: Quantity, pre: string, word: string)
    requires LetterAndWord(q)
    requires Forms(q)[1].suffixes == [Lower(word)]
    requires pre != []
    ensures KnownPrefix(pre) ==>
      Set(s, q, pre + word) == Effect(Put(s, q, EngineeringUnit(word, Pow(PrefixExponent(pre[0]).value))), None)
    ensures !KnownPrefix(pre) ==>
      Set(s, q, pre + word) == Effect(Put(s, q, Get(s, q).(symbol := word)), Some(ValueError))
  {
    WordMatches(q, pre, word);
    SetBySecondForm(s, q, pre + word);
    WordCutsWholeWord(q, word);
    ApplyPrefixed(s, q, Forms(q)[1], pre, word);
  }

  /** A prefixed word spelling cuts off, and keeps as the symbol, exactly the word. */
  lemma WordCutsWholeWord(q: Quantity, word: string)
    requires LetterAndWord(q)
    requires Forms(q)[1].suffixes == [Lower(word)]
    ensures WellFormed(Forms(q)[1]) && Forms(q)[1].strip == |word|
    ensures word[..Forms(q)[1].keep] == word
  {
    LetterAndWordForms(q);
    WordFormCuts(Forms(q)[1], word);
  }

  lemma WordFormCuts(f: Form, word: string)
    requires word != [] && f == Form([Lower(word)], true, AsWritten, |Lower(word)|, |Lower(word)|)
    ensures WellFormed(f) && f.strip == |word|
    ensures word[..f.keep] == word
  {
  }

  /** Inputs ending in the quantity's word in any case (`volts`, `kVolts`, `mFARADS`, ...). */
  lemma {:induction false} WordSpelling(s: UnitsSettings, q: Quantity, pre: string, word: string)
    requires LetterAndWord(q)
    requires Forms(q)[1].suffixes == [Lower(word)]
    ensures pre == [] ==>
      Set(s, q, word) == Effect(Put(s, q, EngineeringUnit(word, Pow(0))), None)
    ensures KnownPrefix(pre) ==>
      Set(s, q, pre + word) == Effect(Put(s, q, EngineeringUnit(word, Pow(PrefixExponent(pre[0]).value))), None)
    ensures pre != [] && !KnownPrefix(pre) ==>
      Set(s, q, pre + word) == Effect(Put(s, q, Get(s, q).(symbol := word)), Some(ValueError))
  {
    if pre == [] {
      BareWord(s, q, word);
    } else {
      PrefixedWord(s, q, pre, word);
    }
  }

  /** A word spelling reads text ending in a word that lower-cases to its suffix: bare,
      the input is kept as written at magnitude 1; behind a prefix the symbol is the
      first `keep` characters of the word, and the prefix names the magnitude or raises. */
  lemma {:induction false} WordFormSpelling(s: UnitsSettings, q: Quantity, f: Form, pre: string, word: string)
    requires WellFormed(f) && f.ignoreCase && f.suffixes == [Lower(word)] && f.bare == AsWritten
    requires f.strip == |word|
    ensures pre == [] ==>
      ApplyForm(s, q, f, word) == Effect(Put(s, q, EngineeringUnit(word, Pow(0))), None)
    ensures pre != [] && KnownPrefix(pre) ==>
      ApplyForm(s, q, f, pre + word)
      == Effect(Put(s, q, EngineeringUnit(word[..f.keep], Pow(PrefixExponent(pre[0]).value))), None)
    ensures pre != [] && !KnownPrefix(pre) ==>
      ApplyForm(s, q, f, pre + word)
      == Effect(Put(s, q, Get(s, q).(symbol := word[..f.keep])), Some(ValueError))
  {
    WordMatchesWord(f, pre, word);
    if pre == [] {
      assert [] + word == word;
      ApplyBare(s, q, f, word);
    } else {
      ApplyPrefixed(s, q, f, pre, word);
    }
  }

  /** Inputs ending in `seconds` in any case (`seconds`, `nseconds`, `kSECONDS`, ...).
      Bare, the input is kept as written. Behind a prefix the setter keeps `value[-7]`,
      the single first character of the word, as the symbol. */
  lemma {:induction false} TimeWordSpelling(s: UnitsSettings, pre: string, word: string)
    requires Lower(word) == "seconds"
    ensures pre == [] ==>
      Set(s, Time, word) == Effect(Put(s, Time, EngineeringUnit(word, Pow(0))), None)
    ensures KnownPrefix(pre) ==>
      Set(s, Time, pre + word) == Effect(Put(s, Time, EngineeringUnit([word[0]], Pow(PrefixExponent(pre[0]).value))), None)
    ensures pre != [] && !KnownPrefix(pre) ==>
      Set(s, Time, pre + word) == Effect(Put(s, Time, Get(s, Time).(symbol := [word[0]])), Some(ValueError))
  {
    var f := Forms(Time)[0];
    assert f == Form([Lower(word)], true, AsWritten, |word|, 1);
    assert word[..1] == [word[0]];
    WordMatchesWord(f, pre, word);
    SetByFirstForm(s, Time, pre + word);
    WordFormSpelling(s, Time, f, pre, word);
  }

  /** `nseconds` sets the symbol to the single character `s` (the setter reads
      `value[-7]`, not `value[-7:]`), with the prefix applied. */
  lemma {:induction false} TimeWordKeepsOneCharacter(s: UnitsSettings, p: char)
    requires PrefixExponent(p).Some?
    ensures Set(s, Time, [p] + "seconds")
      == Effect(Put(s, Time, EngineeringUnit("s", Pow(PrefixExponent(p).value))), None)
  {
    LowerWithoutCapitals("seconds");
    TimeWordSpelling(s, [p], "seconds");
  }

  /** The resistance setter's spellings: `Ω` compared as written, then `ohms` or `ohm`
      in any case, always cut three characters from the end. */
  lemma ResistanceForms()
    ensures Forms(Resistance)[0] == Form(["Ω"], false, Canonical("Ω"), 1, 1)
    ensures Forms(Resistance)[1] == Form(["ohms", "ohm"], true, AsWritten, 3, 3)
    ensures WellFormed(Forms(Resistance)[1])
  {
  }

  /** Text ending in a word that lower-cases to `ohm` or `ohms` misses the `Ω` spelling
      and is read by the `ohm` spelling, bare exactly when nothing precedes the word. */
  lemma {:induction false} OhmWordMatches(pre: string, word: string)
    requires Lower(word) == "ohm" || Lower(word) == "ohms"
    ensures !Matches(Forms(Resistance)[0], pre + word)
    ensures Matches(Forms(Resistance)[1], pre + word)
    ensures IsBare(Forms(Resistance)[1], pre + word) <==> pre == []
  {
    ResistanceForms();
    var v := pre + word;
    var last := |word| - 1;
    assert LowerChar(word[last]) == Lower(word)[last];
    assert v[|v| - 1] == word[last];
    OmegaMisses(v);
    LoweredEndsWith(pre, word);
    assert Folded(Forms(Resistance)[1], v) == Lower(v);
    OhmSuffixMatches(Lower(v), Lower(word), |pre|);
  }

  /** Text whose last character is not `Ω` misses the `Ω` spelling. */
  lemma {:induction false} OmegaMisses(v: string)
    requires v != [] && v[|v| - 1] != 'Ω'
    ensures !Matches(Forms(Resistance)[0], v)
  {
    var omega := Forms(Resistance)[0];
    assert Folded(omega, v) == v;
    assert !EndsWith(v, omega.suffixes[0]);
    assert omega.suffixes[1..] == [];
    assert !EndsWithAny(v, omega.suffixes[1..]);
  }

  /** Text ending in `ohm` or `ohms` after `n` characters ends with one of the `ohm`
      spelling's suffixes, and is one of them exactly when `n` is 0. */
  lemma {:induction false} OhmSuffixMatches(w: string, word: string, n: nat)
    requires word == "ohm" || word == "ohms"
    requires EndsWith(w, word) && |w| == n + |word|
    ensures EndsWithAny(w, Forms(Resistance)[1].suffixes)
    ensures w in Forms(Resistance)[1].suffixes <==> n == 0
  {
    var suffixes := Forms(Resistance)[1].suffixes;
    assert suffixes == ["ohms", "ohm"];
    if word == "ohms" {
      assert EndsWith(w, suffixes[0]);
    } else {
      assert suffixes[1..] == ["ohm"];
      assert EndsWith(w, suffixes[1..][0]);
      assert EndsWithAny(w, suffixes[1..]);
      assert w[|w| - 1] == 'm';
    }
    if n == 0 {
      assert w == word;
    } else {
      assert w != "ohm" && w != "ohms";
    }
  }

  /** Inputs ending in `ohm` or `ohms` in any case (`ohm`, `kOhm`, `MOHMS`, ...). Bare,
      the input is kept as written. Behind a prefix the setter cuts three characters:
      `ohm` is kept as the symbol and the prefix read; `ohms` keeps only its last three
      characters, and the prefix read together with the word's first character is never
      a single known letter, so the call writes that symbol and raises. */
  lemma {:induction false} OhmWordSpelling(s: UnitsSettings, pre: string, word: string)
    requires Lower(word) == "ohm" || Lower(word) == "ohms"
    ensures pre == [] ==>
      Set(s, Resistance, word) == Effect(Put(s, Resistance, EngineeringUnit(word, Pow(0))), None)
    ensures |word| == 3 && KnownPrefix(pre) ==>
      Set(s, Resistance, pre + word)
      == Effect(Put(s, Resistance, EngineeringUnit(word, Pow(PrefixExponent(pre[0]).value))), None)
    ensures |word| == 3 && pre != [] && !KnownPrefix(pre) ==>
      Set(s, Resistance, pre + word)
      == Effect(Put(s, Resistance, Get(s, Resistance).(symbol := word)), Some(ValueError))
    ensures |word| == 4 && pre != [] ==>
      Set(s, Resistance, pre + word)
      == Effect(Put(s, Resistance, Get(s, Resistance).(symbol := word[1..])), Some(ValueError))
  {
    ResistanceForms();
    var f := Forms(Resistance)[1];
    OhmWordMatches(pre, word);
    SetBySecondForm(s, Resistance, pre + word);
    if pre == [] {
      assert [] + word == word;
      ApplyBare(s, Resistance, f, word);
    } else if |word| == 3 {
      assert word[..3] == word;
      ApplyPrefixed(s, Resistance, f, pre, word);
    } else {
      PrefixedOhms(s, pre, word);
    }
  }

  /** Behind a prefix, `ohms` is cut to `hms`, and the longer prefix raises. */
  lemma {:induction false} PrefixedOhms(s: UnitsSettings, pre: string, word: string)
    requires pre != [] && |word| == 4
    requires Matches(Forms(Resistance)[1], pre + word) && !IsBare(Forms(Resistance)[1], pre + word)
    ensures ApplyForm(s, Resistance, Forms(Resistance)[1], pre + word)
      == Effect(Put(s, Resistance, Get(s, Resistance).(symbol := word[1..])), Some(ValueError))
  {
    ResistanceForms();
    var head := pre + [word[0]];
    var tail := word[1..];
    assert pre + word == head + tail;
    assert !KnownPrefix(head);
    assert tail[..3] == tail;
    ApplyPrefixed(s, Resistance, Forms(Resistance)[1], head, tail);
  }

  /** `kOhm` gives the symbol `Ohm` at the prefix's magnitude. */
  lemma {:induction false} ResistanceSingularWord(s: UnitsSettings, p: char)
    requires PrefixExponent(p).Some?
    ensures Set(s, Resistance, [p] + "Ohm")
      == Effect(Put(s, Resistance, EngineeringUnit("Ohm", Pow(PrefixExponent(p).value))), None)
  {
    assert Lower("Ohm") == "ohm" by {
      assert Lower("Ohm")[0] == LowerChar('O') == 'o';
    }
    OhmWordSpelling(s, [p], "Ohm");
  }

  /** `kOhms` is cut three characters from the end: the symbol becomes `hms`, and the
      two-character prefix `kO` then raises, so the magnitude stays as it was. */
  lemma {:induction false} ResistancePluralWordFails(s: UnitsSettings, p: char)
    ensures Set(s, Resistance, [p] + "Ohms")
      == Effect(Put(s, Resistance, Get(s, Resistance).(symbol := "hms")), Some(ValueError))
  {
    assert Lower("Ohms") == "ohms" by {
      assert Lower("Ohms")[0] == LowerChar('O') == 'o';
    }
    assert "Ohms"[1..] == "hms";
    OhmWordSpelling(s, [p], "Ohms");
  }

  /** A case-insensitive one-letter spelling matches text ending in that letter, bare
      exactly when nothing precedes it. */
  lemma {:induction false} LetterFormMatches(f: Form, pre: string, c: char)
    requires f.ignoreCase && f.suffixes == [[LowerChar(c)]]
    ensures Matches(f, pre + [c])
    ensures IsBare(f, pre + [c]) <==> pre == []
  {
    var v := pre + [c];
    assert Lower(v)[|v| - 1..] == [LowerChar(c)];
    assert EndsWith(Folded(f, v), f.suffixes[0]);
    if pre != [] {
      assert |Folded(f, v)| > 1;
    }
  }

  /** `s` or `S` that does not end a `seconds` skips that spelling and is read by the
      one-letter time spelling. */
  lemma {:induction false} TimeLetterMatches(pre: string, c: char)
    requires LowerChar(c) == 's' && !EndsWith(Lower(pre + [c]), "seconds")
    ensures !Matches(Forms(Time)[0], pre + [c])
    ensures Matches(Forms(Time)[1], pre + [c])
    ensures IsBare(Forms(Time)[1], pre + [c]) <==> pre == []
  {
    var f := Forms(Time)[0];
    assert Folded(f, pre + [c]) == Lower(pre + [c]);
    assert !EndsWith(Folded(f, pre + [c]), f.suffixes[0]);
    assert f.suffixes[1..] == [];
    assert !EndsWithAny(Folded(f, pre + [c]), f.suffixes[1..]);
    LetterFormMatches(Forms(Time)[1], pre, c);
  }

  /** Bare `s` or `S` is kept as written, at magnitude 1. */
  lemma {:induction false} BareTimeLetter(s: UnitsSettings, c: char)
    requires LowerChar(c) == 's'
    ensures Set(s, Time, [c]) == Effect(Put(s, Time, EngineeringUnit([c], Pow(0))), None)
  {
    assert [] + [c] == [c];
    assert |Lower([c])| < |"seconds"|;
    TimeLetterMatches([], c);
    SetBySecondForm(s, Time, [c]);
    ApplyBare(s, Time, Forms(Time)[1], [c]);
  }

  /** `s` or `S` behind a prefix keeps the letter as written as the symbol. */
  lemma {:induction false} PrefixedTimeLetter(s: UnitsSettings, pre: string, c: char)
    requires pre != [] && LowerChar(c) == 's' && !EndsWith(Lower(pre + [c]), "seconds")
    ensures KnownPrefix(pre) ==>
      Set(s, Time, pre + [c]) == Effect(Put(s, Time, EngineeringUnit([c], Pow(PrefixExponent(pre[0]).value))), None)
    ensures !KnownPrefix(pre) ==>
      Set(s, Time, pre + [c]) == Effect(Put(s, Time, Get(s, Time).(symbol := [c])), Some(ValueError))
  {
    TimeLetterMatches(pre, c);
    SetBySecondForm(s, Time, pre + [c]);
    ApplyPrefixed(s, Time, Forms(Time)[1], pre, [c]);
  }

  /** Inputs ending in `s` or `S` but not in `seconds` (`s`, `ns`, `Ks`, `abs`, ...);
      the symbol is the letter as written. */
  lemma {:induction false} TimeLetterSpelling(s: UnitsSettings, pre: string, c: char)
    requires LowerChar(c) == 's' && !EndsWith(Lower(pre + [c]), "seconds")
    ensures pre == [] ==>
      Set(s, Time, [c]) == Effect(Put(s, Time, EngineeringUnit([c], Pow(0))), None)
    ensures KnownPrefix(pre) ==>
      Set(s, Time, pre + [c]) == Effect(Put(s, Time, EngineeringUnit([c], Pow(PrefixExponent(pre[0]).value))), None)
    ensures pre != [] && !KnownPrefix(pre) ==>
      Set(s, Time, pre + [c]) == Effect(Put(s, Time, Get(s, Time).(symbol := [c])), Some(ValueError))
  {
    if pre == [] {
      BareTimeLetter(s, c);
    } else {
      PrefixedTimeLetter(s, pre, c);
    }
  }

  /** Text ending in `Ω` (compared with regard to case) is read by the `Ω` spelling,
      bare exactly when nothing precedes the sign. */
  lemma {:induction false} OmegaMatches(pre: string)
    ensures Matches(Forms(Resistance)[0], pre + "Ω")
    ensures IsBare(Forms(Resistance)[0], pre + "Ω") <==> pre == []
  {
    var v := pre + "Ω";
    var f := Forms(Resistance)[0];
    EndsWithAppend(pre, "Ω");
    assert EndsWith(Folded(f, v), f.suffixes[0]);
    if pre != [] {
      assert |v| > 1;
    }
  }

  /** Bare `Ω` sets Ω at magnitude 1. */
  lemma BareOmega(s: UnitsSettings)
    ensures Set(s, Resistance, "Ω") == Effect(Put(s, Resistance, EngineeringUnit("Ω", Pow(0))), None)
  {
    OmegaMatches([]);
    assert [] + "Ω" == "Ω";
    SetByFirstForm(s, Resistance, "Ω");
    ApplyBare(s, Resistance, Forms(Resistance)[0], "Ω");
  }

  /** A prefixed `Ω` keeps `Ω` as the symbol. */
  lemma PrefixedOmega(s: UnitsSettings, pre: string)
    requires pre != []
    ensures KnownPrefix(pre) ==>
      Set(s, Resistance, pre + "Ω") == Effect(Put(s, Resistance, EngineeringUnit("Ω", Pow(PrefixExponent(pre[0]).value))), None)
    ensures !KnownPrefix(pre) ==>
      Set(s, Resistance, pre + "Ω") == Effect(Put(s, Resistance, Get(s, Resistance).(symbol := "Ω")), Some(ValueError))
  {
    OmegaMatches(pre);
    SetByFirstForm(s, Resistance, pre + "Ω");
    ApplyPrefixed(s, Resistance, Forms(Resistance)[0], pre, "Ω");
  }

  /** Inputs ending in `Ω`, which is compared with regard to case. */
  lemma {:induction false} OmegaSpelling(s: UnitsSettings, pre: string)
    ensures pre == [] ==>
      Set(s, Resistance, "Ω") == Effect(Put(s, Resistance, EngineeringUnit("Ω", Pow(0))), None)
    ensures KnownPrefix(pre) ==>
      Set(s, Resistance, pre + "Ω") == Effect(Put(s, Resistance, EngineeringUnit("Ω", Pow(PrefixExponent(pre[0]).value))), None)
    ensures pre != [] && !KnownPrefix(pre) ==>
      Set(s, Resistance, pre + "Ω") == Effect(Put(s, Resistance, Get(s, Resistance).(symbol := "Ω")), Some(ValueError))
  {
    if pre == [] {
      BareOmega(s);
    } else {
      PrefixedOmega(s, pre);
    }
  }

  /** What `str()` prints for a one-character symbol at 1000^k: the symbol behind
      nothing when k is 0, and otherwise behind the one letter that names k. */
  lemma RenderedSplit(symbol: string, k: int)
    requires |symbol| == 1 && -10 <= k <= 10
    ensures var r := Render(EngineeringUnit(symbol, Pow(k)));
      && r.Plain? && 1 <= |r.s| <= 2
      && r.s == r.s[..|r.s| - 1] + symbol
      && (k == 0 <==> |r.s| == 1)
      && (k != 0 ==> KnownPrefix(r.s[..1]) && PrefixExponent(r.s[0]) == Some(k))
  {
    var r := Render(EngineeringUnit(symbol, Pow(k)));
    assert r.s == r.s[..|r.s| - 1] + r.s[|r.s| - 1..];
  }

  /** The letter spelling of a letter-and-word quantity is its canonical symbol lower-cased. */
  lemma LetterIsLoweredSymbol(q: Quantity)
    requires LetterAndWord(q)
    ensures |CanonicalSymbol(q)| == 1
    ensures Forms(q)[0].suffixes == [[LowerChar(CanonicalSymbol(q)[0])]]
  {
  }

  lemma LetterRoundTrip(s: UnitsSettings, q: Quantity, k: int)
    requires LetterAndWord(q) && -10 <= k <= 10
    ensures Set(s, q, Render(EngineeringUnit(CanonicalSymbol(q), Pow(k))).s)
      == Effect(Put(s, q, EngineeringUnit(CanonicalSymbol(q), Pow(k))), None)
  {
    var symbol := CanonicalSymbol(q);
    LetterIsLoweredSymbol(q);
    RenderedSplit(symbol, k);
    var r := Render(EngineeringUnit(symbol, Pow(k))).s;
    assert symbol == [symbol[0]];
    LetterSpelling(s, q, r[..|r| - 1], symbol[0]);
  }

  lemma TimeRoundTrip(s: UnitsSettings, k: int)
    requires -10 <= k <= 10
    ensures Set(s, Time, Render(EngineeringUnit("s", Pow(k))).s)
      == Effect(Put(s, Time, EngineeringUnit("s", Pow(k))), None)
  {
    RenderedSplit("s", k);
    var r := Render(EngineeringUnit("s", Pow(k))).s;
    assert "s" == ['s'];
    assert |Lower(r[..|r| - 1] + ['s'])| < |"seconds"|;
    TimeLetterSpelling(s, r[..|r| - 1], 's');
  }

  lemma OmegaRoundTrip(s: UnitsSettings, k: int)
    requires -10 <= k <= 10
    ensures Set(s, Resistance, Render(EngineeringUnit("Ω", Pow(k))).s)
      == Effect(Put(s, Resistance, EngineeringUnit("Ω", Pow(k))), None)
  {
    RenderedSplit("Ω", k);
    var r := Render(EngineeringUnit("Ω", Pow(k))).s;
    OmegaSpelling(s, r[..|r| - 1]);
  }

  /** Round trip: for each quantity's canonical symbol and every magnitude `str()`
      prints as text, assigning the printed text back sets exactly that unit. */
  lemma {:induction false} RenderThenSetRoundTrip(s: UnitsSettings, q: Quantity, k: int)
    requires -10 <= k <= 10
    ensures Render(EngineeringUnit(CanonicalSymbol(q), Pow(k))).Plain?
    ensures Set(s, q, Render(EngineeringUnit(CanonicalSymbol(q), Pow(k))).s)
      == Effect(Put(s, q, EngineeringUnit(CanonicalSymbol(q), Pow(k))), None)
  {
    if LetterAndWord(q) {
      LetterRoundTrip(s, q, k);
    } else if q == Time {
      TimeRoundTrip(s, k);
    } else {
      OmegaRoundTrip(s, k);
    }
  }

  /** Each default unit carries its quantity's canonical symbol at a magnitude that
      prints as text. */
  lemma DefaultsAreCanonical(q: Quantity)
    ensures Get(Defaults(), q).magnitude.Pow?
    ensures -10 <= Get(Defaults(), q).magnitude.exp <= 10
    ensures Get(Defaults(), q) == EngineeringUnit(CanonicalSymbol(q), Pow(Get(Defaults(), q).magnitude.exp))
  {
    var u := Get(Defaults(), q);
    assert u.symbol == CanonicalSymbol(q) && u.magnitude.Pow?;
    assert u == EngineeringUnit(u.symbol, Pow(u.magnitude.exp));
  }

  /** Writing back what was read changes nothing. */
  lemma PutGet(s: UnitsSettings, q: Quantity)
    ensures Put(s, q, Get(s, q)) == s
  {
  }

  /** Assigning each default unit's printed name leaves the defaults as they are. */
  lemma DefaultsReparse(q: Quantity)
    ensures Render(Get(Defaults(), q)).Plain?
    ensures Set(Defaults(), q, Render(Get(Defaults(), q)).s) == Effect(Defaults(), None)
  {
    var d := Defaults();
    DefaultsAreCanonical(q);
    RenderThenSetRoundTrip(d, q, Get(d, q).magnitude.exp);
    PutGet(d, q);
  }
}
