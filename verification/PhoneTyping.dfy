/** Typing and pasting in the plain phone widget: exactly when they reach the same country and value. */
module PhoneTyping {
  import opened Wrappers
  import opened Text
  import opened Countries
  import opened Phone
  import opened PhoneTheorems

  /** Keys typed one by one at the end of the input, an input event after each. */
  function Typed(countries: seq<Country>, s: State, keys: string): State {
    if keys == "" then s
    else
      var t := Typed(countries, s, keys[..|keys| - 1]);
      Input(countries, t.country, t.value + [keys[|keys| - 1]])
  }

  predicate TypesAsPasted(countries: seq<Country>, current: string, digits: string) {
    Typed(countries, State(current, ""), "+" + digits) == Input(countries, current, "+" + digits)
  }

  // ---- Which code, and which of its countries --------------------------------------------------------

  /** The longest dial code that begins the digits, empty if none does. */
  function Longest(countries: seq<Country>, digits: string): string {
    var best := Best(countries, digits, "");
    if best.None? then "" else best.value.code
  }

  /** The first country of the table with this code. */
  function FirstWith(countries: seq<Country>, code: string): string {
    if countries == [] then "" else if countries[0].code == code then countries[0].iso else FirstWith(countries[1..], code)
  }

  /** The country shown for a code: the current one if it has it, else the first. */
  function Pick(countries: seq<Country>, current: string, code: string): string {
    if CodeOf(countries, current) == code then current else FirstWith(countries, code)
  }

  predicate HasBoth(c: Country, iso: string, code: string) { c.iso == iso && c.code == code }

  lemma {:induction false} FirstOfMore(countries: seq<Country>, c: Country, code: string)
    ensures FirstWith(countries + [c], code)
            == if exists k :: 0 <= k < |countries| && countries[k].code == code then FirstWith(countries, code)
               else if c.code == code then c.iso else ""
  {
    if countries == [] {
      assert countries + [c] == [c] && [c][1..] == [];
    } else {
      assert (countries + [c])[1..] == countries[1..] + [c];
      FirstOfMore(countries[1..], c, code);
      assert forall k :: 0 < k < |countries| ==> countries[k] == countries[1..][k - 1];
    }
  }

  /** Among the countries of the longest code the search ends at the current one or at the first. */
  lemma {:induction false} BestIs(countries: seq<Country>, digits: string, current: string)
    requires Best(countries, digits, current).Some?
    ensures var b := Best(countries, digits, current).value;
            if exists k :: 0 <= k < |countries| && HasBoth(countries[k], current, b.code) then b.iso == current
            else b.iso == FirstWith(countries, b.code)
  {
    var n := |countries| - 1;
    var before, c := Best(countries[..n], digits, current), countries[n];
    BestMatches(countries[..n], digits, current);
    assert countries == countries[..n] + [c];
    if before.Some? {
      BestIs(countries[..n], digits, current);
      FirstOfMore(countries[..n], c, before.value.code);
      assert exists k :: 0 <= k < n && countries[..n][k].code == before.value.code;
      if c.code <= digits && |c.code| == |before.value.code| { SameLengthSameCode(c.code, before.value.code, digits); }
    }
    FirstOfMore(countries[..n], c, c.code);
  }

  lemma {:induction false} CodeIsInTable(countries: seq<Country>, iso: string, code: string)
    requires TableOk(countries) && code != ""
    ensures CodeOf(countries, iso) == code <==> exists k :: 0 <= k < |countries| && HasBoth(countries[k], iso, code)
  {
    if Known(countries, iso) {
      KnownIsInTable(countries, iso);
      var c := ByIso(countries, iso).value;
      var k :| 0 <= k < |countries| && countries[k] == c;
      KnownHasIso(countries, iso);
      assert CodeOf(countries, iso) == code ==> HasBoth(countries[k], iso, code);
    }
    if k :| 0 <= k < |countries| && HasBoth(countries[k], iso, code) { CountryInTable(countries, countries[k]); }
  }

  lemma {:induction false} KnownHasIso(countries: seq<Country>, iso: string)
    requires Known(countries, iso)
    ensures ByIso(countries, iso).value.iso == iso
  {
    if countries[0].iso != iso { KnownHasIso(countries[1..], iso); }
  }

  lemma LongestIs(countries: seq<Country>, digits: string, current: string)
    requires TableOk(countries)
    ensures var best := Best(countries, digits, current);
            if best.None? then Longest(countries, digits) == ""
            else best.value.code == Longest(countries, digits) != "" && best.value in countries
  {
    var best := Best(countries, digits, current);
    BestMatches(countries, digits, current);
    BestMatches(countries, digits, "");
    if best.Some? {
      BestCode(countries, digits, current, "");
      var k :| 0 <= k < |countries| && countries[k] == best.value;
      assert Coded(countries, k);
    } else if Best(countries, digits, "").Some? {
      BestCode(countries, digits, "", current);
    }
  }

  /** The longest code begins the digits, and no code that begins them is longer. */
  lemma LongestMatches(countries: seq<Country>, digits: string)
    requires TableOk(countries)
    ensures Longest(countries, digits) <= digits
    ensures forall k :: 0 <= k < |countries| && countries[k].code <= digits ==>
              Longest(countries, digits) != "" && |countries[k].code| <= |Longest(countries, digits)|
    ensures Longest(countries, digits) != "" ==> exists k :: 0 <= k < |countries| && countries[k].code == Longest(countries, digits)
  {
    BestMatches(countries, digits, "");
    LongestIs(countries, digits, "");
  }

  /** The input event in terms of the longest code. */
  lemma InputIs(countries: seq<Country>, current: string, raw: string)
    requires TableOk(countries) && International(raw)
    ensures var code := Longest(countries, Digits(raw));
            Input(countries, current, raw)
            == if code != "" && code <= Digits(raw) then State(Pick(countries, current, code), Formatted(code, Digits(raw)))
               else State(current, raw)
  {
    var best := Best(countries, Digits(raw), current);
    LongestIs(countries, Digits(raw), current);
    LongestMatches(countries, Digits(raw));
    if best.Some? {
      BestMatches(countries, Digits(raw), current);
      BestIs(countries, Digits(raw), current);
      CodeIsInTable(countries, current, best.value.code);
    }
  }

  lemma {:induction false} FirstHasCode(countries: seq<Country>, code: string, k: nat) returns (j: nat)
    requires k < |countries| && countries[k].code == code
    ensures j < |countries| && countries[j].code == code && countries[j].iso == FirstWith(countries, code)
  {
    if countries[0].code == code {
      j := 0;
    } else {
      var i := FirstHasCode(countries[1..], code, k - 1);
      j := i + 1;
    }
  }

  lemma PickHasCode(countries: seq<Country>, current: string, code: string)
    requires TableOk(countries) && exists k :: 0 <= k < |countries| && countries[k].code == code
    ensures CodeOf(countries, Pick(countries, current, code)) == code
  {
    var k: nat :| k < |countries| && countries[k].code == code;
    var j := FirstHasCode(countries, code, k);
    CountryInTable(countries, countries[j]);
  }

  // ---- What typing shows --------------------------------------------------------------------------------

  /** The country after typing the digits one by one. */
  function TypedCountry(countries: seq<Country>, current: string, x: string): string {
    var before := if x == "" then current else TypedCountry(countries, current, x[..|x| - 1]);
    if Longest(countries, x) == "" then before else Pick(countries, before, Longest(countries, x))
  }

  function PastedCountry(countries: seq<Country>, current: string, x: string): string {
    if Longest(countries, x) == "" then current else Pick(countries, current, Longest(countries, x))
  }

  /** The value shown for a plus sign and digits, however they were entered. */
  function ShownFor(countries: seq<Country>, x: string): string {
    var code := Longest(countries, x);
    if code <= x && code != "" then Formatted(code, x) else "+" + x
  }

  lemma PastedIs(countries: seq<Country>, current: string, x: string)
    requires TableOk(countries) && AllDigits(x)
    ensures Input(countries, current, "+" + x) == State(PastedCountry(countries, current, x), ShownFor(countries, x))
  {
    PlusDigits(x);
    InputIs(countries, current, "+" + x);
    LongestMatches(countries, x);
  }

  lemma ShownHolds(countries: seq<Country>, x: string)
    requires AllDigits(x)
    ensures Digits(ShownFor(countries, x)) == x && ShownFor(countries, x) != "" && ShownFor(countries, x)[0] == '+'
  {
    PlusDigits(x);
    var code := Longest(countries, x);
    if code <= x && code != "" { FormattedKeepsDigits(code, x); }
  }

  /** One more key: the new value depends on the digits alone, the country on the one before. */
  lemma KeyIs(countries: seq<Country>, country: string, x: string, d: char)
    requires TableOk(countries) && AllDigits(x) && IsDigit(d)
    requires Longest(countries, x + [d]) == "" ==> Longest(countries, x) == ""
    ensures Input(countries, country, ShownFor(countries, x) + [d])
            == State(PastedCountry(countries, country, x + [d]), ShownFor(countries, x + [d]))
  {
    var raw := ShownFor(countries, x) + [d];
    ShownHolds(countries, x);
    DigitsAppend(ShownFor(countries, x), d);
    InternationalGrows(ShownFor(countries, x), d);
    InputIs(countries, country, raw);
    LongestMatches(countries, x + [d]);
    if Longest(countries, x + [d]) == "" { assert raw == "+" + (x + [d]); }
  }

  /** A code that matches goes on matching, and a longer one that takes over begins with it. */
  lemma LongestGrows(countries: seq<Country>, x: string, d: char)
    requires TableOk(countries) && Longest(countries, x) != ""
    ensures Longest(countries, x + [d]) != "" && Longest(countries, x) <= Longest(countries, x + [d])
  {
    LongestMatches(countries, x);
    LongestMatches(countries, x + [d]);
    var a, b := Longest(countries, x), Longest(countries, x + [d]);
    var k :| 0 <= k < |countries| && countries[k].code == a;
    assert a <= x + [d];
    PrefixesCompare(a, b, x + [d]);
  }

  lemma TypedMore(countries: seq<Country>, s: State, keys: string, key: char)
    ensures var t := Typed(countries, s, keys);
            Typed(countries, s, keys + [key]) == Input(countries, t.country, t.value + [key])
  {
    assert (keys + [key])[..|keys|] == keys;
  }

  lemma PlusIs(countries: seq<Country>, current: string)
    requires TableOk(countries)
    ensures TypedShows(countries, current, "")
  {
    TypedMore(countries, State(current, ""), "", '+');
    assert "" + ['+'] == "+" + "" == "+";
    PastedIs(countries, current, "");
  }

  lemma TypedOneMore(countries: seq<Country>, current: string, x: string, d: char)
    ensures var t := Typed(countries, State(current, ""), "+" + x);
            Typed(countries, State(current, ""), "+" + (x + [d])) == Input(countries, t.country, t.value + [d])
  {
    TypedMore(countries, State(current, ""), "+" + x, d);
    assert ("+" + x) + [d] == "+" + (x + [d]);
  }

  lemma CountryOneMore(countries: seq<Country>, current: string, x: string, d: char)
    ensures TypedCountry(countries, current, x + [d])
            == PastedCountry(countries, TypedCountry(countries, current, x), x + [d])
  {
    assert (x + [d])[..|x|] == x;
  }

  /** What typing has shown so far. */
  predicate TypedShows(countries: seq<Country>, current: string, x: string) {
    Typed(countries, State(current, ""), "+" + x) == State(TypedCountry(countries, current, x), ShownFor(countries, x))
  }

  lemma {:induction false} TypedStep(countries: seq<Country>, current: string, x: string, d: char)
    requires TableOk(countries) && AllDigits(x) && IsDigit(d) && TypedShows(countries, current, x)
    ensures TypedShows(countries, current, x + [d])
  {
    TypedOneMore(countries, current, x, d);
    CountryOneMore(countries, current, x, d);
    if Longest(countries, x) != "" { LongestGrows(countries, x, d); }
    KeyIs(countries, TypedCountry(countries, current, x), x, d);
  }

  /** Typing always shows the value that pasting shows; only the country depends on the way. */
  lemma {:induction false} TypedIs(countries: seq<Country>, current: string, x: string)
    requires TableOk(countries) && AllDigits(x)
    ensures TypedShows(countries, current, x)
  {
    if x == "" {
      PlusIs(countries, current);
    } else {
      var n := |x| - 1;
      TypedIs(countries, current, x[..n]);
      TypedStep(countries, current, x[..n], x[n]);
      assert x[..n] + [x[n]] == x;
    }
  }

  lemma SameCountryExactly(countries: seq<Country>, current: string, x: string)
    requires TableOk(countries) && AllDigits(x)
    ensures TypesAsPasted(countries, current, x) <==> TypedCountry(countries, current, x) == PastedCountry(countries, current, x)
  {
    TypedIs(countries, current, x);
    PastedIs(countries, current, x);
  }

  // ---- When the countries agree ------------------------------------------------------------------------------

  predicate Shares(countries: seq<Country>, j: nat, k: nat)
    requires j < |countries| && k < |countries|
  {
    j != k && countries[j].code == countries[k].code
  }

  /** No code shared by two countries begins with a shorter code of the table. */
  predicate SharedCodesAlone(countries: seq<Country>) {
    forall i: nat, j: nat, k: nat {:trigger Begins(countries, i, j), Shares(countries, j, k)} ::
      i < |countries| && j < |countries| && k < |countries| && Begins(countries, i, j) && Shares(countries, j, k)
      ==> countries[i].code == countries[j].code
  }

  lemma TypedHasCode(countries: seq<Country>, current: string, x: string)
    requires TableOk(countries) && Longest(countries, x) != ""
    ensures CodeOf(countries, TypedCountry(countries, current, x)) == Longest(countries, x)
  {
    LongestMatches(countries, x);
    PickHasCode(countries, if x == "" then current else TypedCountry(countries, current, x[..|x| - 1]), Longest(countries, x));
  }

  /** The current country has the longer code alone, so it is the first with it. */
  lemma AloneIsFirst(countries: seq<Country>, current: string, shorter: string, longer: string)
    requires TableOk(countries) && SharedCodesAlone(countries) && CodeOf(countries, current) == longer != ""
    requires shorter <= longer && shorter != longer && exists i :: 0 <= i < |countries| && countries[i].code == shorter
    ensures FirstWith(countries, longer) == current
  {
    CodeIsInTable(countries, current, longer);
    var k: nat :| k < |countries| && HasBoth(countries[k], current, longer);
    var j := FirstHasCode(countries, longer, k);
    var i: nat :| i < |countries| && countries[i].code == shorter;
    assert Begins(countries, i, j) && (j != k ==> Shares(countries, j, k));
  }

  lemma CountriesAgreeStep(countries: seq<Country>, current: string, x: string, d: char)
    requires TableOk(countries) && SharedCodesAlone(countries)
    requires TypedCountry(countries, current, x) == PastedCountry(countries, current, x)
    ensures TypedCountry(countries, current, x + [d]) == PastedCountry(countries, current, x + [d])
  {
    var a, b := Longest(countries, x), Longest(countries, x + [d]);
    assert (x + [d])[..|x|] == x;
    LongestMatches(countries, x);
    LongestMatches(countries, x + [d]);
    if a != "" {
      LongestGrows(countries, x, d);
      PickHasCode(countries, current, a);
      if a != b && CodeOf(countries, current) == b { AloneIsFirst(countries, current, a, b); }
    }
  }

  lemma EmptyMatchesNothing(countries: seq<Country>)
    requires TableOk(countries)
    ensures Longest(countries, "") == ""
  {
    LongestMatches(countries, "");
  }

  lemma {:induction false} CountriesAgree(countries: seq<Country>, current: string, x: string)
    requires TableOk(countries) && SharedCodesAlone(countries)
    ensures TypedCountry(countries, current, x) == PastedCountry(countries, current, x)
  {
    if x == "" {
      EmptyMatchesNothing(countries);
    } else {
      var n := |x| - 1;
      CountriesAgree(countries, current, x[..n]);
      CountriesAgreeStep(countries, current, x[..n], x[n]);
      assert x == x[..n] + [x[n]];
    }
  }

  lemma LongestOfCode(countries: seq<Country>, j: nat)
    requires TableOk(countries) && j < |countries|
    ensures Longest(countries, countries[j].code) == countries[j].code
  {
    assert Coded(countries, j);
    LongestMatches(countries, countries[j].code);
  }

  lemma ShorterMatches(countries: seq<Country>, i: nat, y: string)
    requires TableOk(countries) && i < |countries| && countries[i].code <= y
    ensures 0 < |Longest(countries, y)| <= |y|
  {
    LongestMatches(countries, y);
  }

  /** Typing a shared code with a shorter one in front ends at the code's first country, whatever the current one. */
  lemma {:induction false} ShorterCodeForgets(countries: seq<Country>, current: string, i: nat, j: nat)
    requires TableOk(countries) && i < |countries| && j < |countries| && Begins(countries, i, j)
    requires countries[i].code != countries[j].code
    ensures TypedCountry(countries, current, countries[j].code) == FirstWith(countries, countries[j].code)
    ensures PastedCountry(countries, current, countries[j].code) == Pick(countries, current, countries[j].code)
  {
    var b := countries[j].code;
    var y := b[..|b| - 1];
    LongestOfCode(countries, j);
    assert Coded(countries, j) && countries[i].code <= y;
    ShorterMatches(countries, i, y);
    TypedHasCode(countries, current, y);
  }

  lemma SharedCodeDiffers(countries: seq<Country>, i: nat, j: nat, k: nat) returns (current: string)
    requires TableOk(countries) && i < |countries| && j < |countries| && k < |countries|
    requires Begins(countries, i, j) && countries[i].code != countries[j].code && Shares(countries, j, k)
    ensures Known(countries, current) && AllDigits(countries[j].code) && !TypesAsPasted(countries, current, countries[j].code)
  {
    assert Coded(countries, j);
    DigitsAreDigits(countries[j].code);
    assert if j < k then IsoApart(countries, j, k) else IsoApart(countries, k, j);
    var m := if countries[j].iso != FirstWith(countries, countries[j].code) then j else k;
    current := countries[m].iso;
    CountryInTable(countries, countries[m]);
    ShorterCodeForgets(countries, current, i, j);
    SameCountryExactly(countries, current, countries[j].code);
  }

  /** Typing equals pasting from every country and for every number exactly if no code shared by two
      countries begins with a shorter code. */
  lemma TypingPastesExactly(countries: seq<Country>)
    requires TableOk(countries)
    ensures SharedCodesAlone(countries)
            <==> forall current, digits :: Known(countries, current) && AllDigits(digits) ==> TypesAsPasted(countries, current, digits)
  {
    if SharedCodesAlone(countries) {
      forall current, digits | Known(countries, current) && AllDigits(digits) ensures TypesAsPasted(countries, current, digits) {
        CountriesAgree(countries, current, digits);
        SameCountryExactly(countries, current, digits);
      }
    } else {
      var i: nat, j: nat, k: nat :| i < |countries| && j < |countries| && k < |countries| && Begins(countries, i, j)
                                    && Shares(countries, j, k) && countries[i].code != countries[j].code;
      var current := SharedCodeDiffers(countries, i, j, k);
    }
  }

  /** In a prefix-free table, entering "+" and digits key by key reaches the country and the value
      that entering them at once reaches. */
  lemma TypingIsPasting(countries: seq<Country>, current: string, digits: string)
    requires TableOk(countries) && PrefixFree(countries) && AllDigits(digits)
    ensures TypesAsPasted(countries, current, digits)
  {
    CountriesAgree(countries, current, digits);
    SameCountryExactly(countries, current, digits);
  }
}
