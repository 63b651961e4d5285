/** What the phone widgets keep: digits, idempotence, typing and pasting, and the server's view. */
module PhoneTheorems {
  import opened Wrappers
  import opened Text
  import opened Countries
  import opened Phone
  import Validation

  predicate AllDigits(s: string) { forall i :: 0 <= i < |s| ==> IsDigit(s[i]) }

  /** The dial code of one country begins that of another. */
  predicate Begins(countries: seq<Country>, i: nat, j: nat)
    requires i < |countries| && j < |countries|
  {
    countries[i].code <= countries[j].code
  }

  /** No dial code is a proper prefix of another. */
  predicate PrefixFree(countries: seq<Country>) {
    forall i: nat, j: nat {:trigger Begins(countries, i, j)} ::
      i < |countries| && j < |countries| && Begins(countries, i, j) ==> countries[i].code == countries[j].code
  }

  // ---- Stripping and digits ---------------------------------------------------------------------------

  lemma {:induction false} StripRightKeepsFirst(s: string)
    requires s != "" && !IsSpace(s[0])
    ensures StripRight(s) != "" && StripRight(s)[0] == s[0]
  {
    if IsSpace(s[|s| - 1]) { StripRightKeepsFirst(s[..|s| - 1]); }
  }

  lemma {:induction false} StripLeftKeepsDigits(s: string)
    ensures Digits(StripLeft(s)) == Digits(s)
  {
    if s != "" && IsSpace(s[0]) { StripLeftKeepsDigits(s[1..]); }
  }

  lemma {:induction false} StripRightKeepsDigits(s: string)
    ensures Digits(StripRight(s)) == Digits(s)
  {
    if s != "" && IsSpace(s[|s| - 1]) {
      var n := |s| - 1;
      StripRightKeepsDigits(s[..n]);
      DigitsConcat(s[..n], s[n..]);
      assert s == s[..n] + s[n..] && s[n..] == [s[n]];
    }
  }

  lemma StripKeepsDigits(s: string)
    ensures Digits(Strip(s)) == Digits(s)
  {
    StripLeftKeepsDigits(s);
    StripRightKeepsDigits(StripLeft(s));
  }

  /** A value that begins with a plus sign is international, however it goes on. */
  lemma PlusIsInternational(rest: string)
    ensures International("+" + rest)
  {
    var s := "+" + rest;
    assert s[0] == '+';
    StripRightKeepsFirst(s);
    assert "+" <= Strip(s);
  }

  lemma {:induction false} StripTwice(s: string)
    requires International(s)
    ensures International(Strip(s))
  {
    var t := Strip(s);
    assert t[0] == '+';
    PlusIsInternational(t[1..]);
    assert t == "+" + t[1..];
  }

  // ---- Formatting keeps every digit and is idempotent ---------------------------------------------------

  lemma SplitDigits(s: string, k: nat, separator: char)
    requires AllDigits(s) && k <= |s| && !IsDigit(separator)
    ensures Digits(s[..k] + [separator] + s[k..]) == s
  {
    DigitsOfDigits(s[..k]);
    DigitsOfDigits(s[k..]);
    DigitsAcross(s[..k], separator, s[k..]);
  }

  lemma PrettyKeepsDigits(code: string, national: string)
    requires AllDigits(national)
    ensures Digits(Pretty(code, national)) == national
  {
    DigitsOfDigits(national);
    if code == "1" && |national| > 6 {
      var a, rest := national[..3], national[3..];
      assert national[3..6] == rest[..3] && national[6..] == rest[3..];
      SplitDigits(rest, 3, '-');
      DigitsAcross(a, '-', rest[..3] + ['-'] + rest[3..]);
      DigitsOfDigits(a);
    } else if code == "1" && |national| > 3 {
      SplitDigits(national, 3, '-');
    } else if |national| > 4 {
      SplitDigits(national, |national| - 4, ' ');
    }
  }

  lemma FormattedKeepsDigits(code: string, digits: string)
    requires code <= digits && AllDigits(digits)
    ensures Digits(Formatted(code, digits)) == digits
    ensures International(Formatted(code, digits))
  {
    var national := digits[|code|..];
    var p := Pretty(code, national);
    assert AllDigits(code) by { forall i | 0 <= i < |code| ensures IsDigit(code[i]) { assert code[i] == digits[i]; } }
    PrettyKeepsDigits(code, national);
    DigitsOfDigits(code);
    DigitsAcross("", '+', code);
    DigitsAcross("+" + code, ' ', p);
    assert "" + ['+'] + code == "+" + code;
    assert Formatted(code, digits) == ("+" + code) + [' '] + p;
    assert Formatted(code, digits) == "+" + (code + " " + p);
    PlusIsInternational(code + " " + p);
  }

  lemma DigitsAreDigits(s: string)
    ensures AllDigits(Digits(s))
  {
  }

  /** Whatever is entered, formatting loses no digit and adds none. */
  lemma InputKeepsDigits(countries: seq<Country>, current: string, raw: string)
    ensures Digits(Input(countries, current, raw).value) == Digits(raw)
  {
    DigitsAreDigits(raw);
    var best := Best(countries, Digits(raw), current);
    BestMatches(countries, Digits(raw), current);
    if International(raw) && best.Some? { FormattedKeepsDigits(best.value.code, Digits(raw)); }
  }

  lemma TableTail(countries: seq<Country>)
    requires TableOk(countries) && countries != []
    ensures TableOk(countries[1..])
  {
    var rest := countries[1..];
    forall i: nat, j: nat | i < j < |rest| ensures IsoApart(rest, i, j) { assert IsoApart(countries, i + 1, j + 1); }
    forall i: nat | i < |rest| ensures Coded(rest, i) { assert Coded(countries, i + 1); }
  }

  lemma {:induction false} CountryInTable(countries: seq<Country>, c: Country)
    requires TableOk(countries) && c in countries
    ensures ByIso(countries, c.iso) == Some(c)
  {
    if countries[0] != c {
      var i :| 0 <= i < |countries| && countries[i] == c;
      assert IsoApart(countries, 0, i);
      assert countries[1..][i - 1] == c;
      TableTail(countries);
      CountryInTable(countries[1..], c);
    }
  }

  /** Two codes that begin the same digits and are equally long are the same code. */
  lemma SameLengthSameCode(a: string, b: string, digits: string)
    requires a <= digits && b <= digits && |a| == |b|
    ensures a == b
  {
  }

  lemma BestCode(countries: seq<Country>, digits: string, x: string, y: string)
    requires Best(countries, digits, x).Some?
    ensures Best(countries, digits, y).Some?
    ensures Best(countries, digits, x).value.code == Best(countries, digits, y).value.code
  {
    BestMatches(countries, digits, x);
    BestMatches(countries, digits, y);
    var a, b := Best(countries, digits, x).value, Best(countries, digits, y);
    var i :| 0 <= i < |countries| && countries[i] == a;
    var j :| 0 <= j < |countries| && countries[j] == b.value;
    SameLengthSameCode(a.code, b.value.code, digits);
  }

  lemma SelectedHasCode(countries: seq<Country>, current: string, c: Country)
    requires TableOk(countries) && c in countries
    ensures CodeOf(countries, Selected(countries, current, c)) == c.code
    ensures Known(countries, current) ==> Known(countries, Selected(countries, current, c))
  {
    CountryInTable(countries, c);
  }

  /** Formatting a formatted value changes nothing, neither the value nor the country. */
  lemma InputIsIdempotent(countries: seq<Country>, current: string, raw: string)
    requires TableOk(countries)
    ensures var s := Input(countries, current, raw); Input(countries, s.country, s.value) == s
  {
    var s, digits := Input(countries, current, raw), Digits(raw);
    var best := Best(countries, digits, current);
    BestMatches(countries, digits, current);
    if International(raw) && best.Some? {
      DigitsAreDigits(raw);
      FormattedKeepsDigits(best.value.code, digits);
      SelectedHasCode(countries, current, best.value);
      BestCode(countries, digits, current, s.country);
    }
  }

  // ---- The server agrees with the picker -------------------------------------------------------------------

  /** After an input event the server reports a country mismatch exactly if the number is international
      and begins with no dial code of the table: never for a value that `format` produced. */
  lemma MismatchExactly(countries: seq<Country>, current: string, raw: string)
    requires TableOk(countries) && Known(countries, current)
    ensures var s := Input(countries, current, raw);
            Validation.IntlPhoneError(Strip(s.value), s.country, countries) == Some(Validation.CountryMismatch)
            <==> International(raw) && Best(countries, Digits(raw), current).None?
  {
    var s, digits := Input(countries, current, raw), Digits(raw);
    var best := Best(countries, digits, current);
    InputKeepsDigits(countries, current, raw);
    StripKeepsDigits(s.value);
    BestMatches(countries, digits, current);
    if International(raw) && best.Some? {
      DigitsAreDigits(raw);
      FormattedKeepsDigits(best.value.code, digits);
      SelectedHasCode(countries, current, best.value);
    } else {
      KnownIsInTable(countries, current);
      StripStrip(raw);
    }
  }

  lemma {:induction false} KnownIsInTable(countries: seq<Country>, iso: string)
    requires Known(countries, iso)
    ensures ByIso(countries, iso).value in countries
  {
    if countries[0].iso != iso { KnownIsInTable(countries[1..], iso); }
  }

  lemma StripStrip(s: string)
    ensures International(Strip(s)) <==> International(s)
  {
    var t := Strip(s);
    if International(s) { StripTwice(s); }
    if t != "" { StripIdle(s); }
  }

  lemma StripIdle(s: string)
    ensures Strip(Strip(s)) == Strip(s)
  {
    StripLeftFirst(s);
    StripRightLast(StripLeft(s));
    var t := Strip(s);
    if t != "" {
      StripRightPrefix(StripLeft(s));
      assert StripLeft(t) == t;
    }
  }

  lemma {:induction false} StripLeftFirst(s: string)
    ensures StripLeft(s) == "" || !IsSpace(StripLeft(s)[0])
  {
    if s != "" && IsSpace(s[0]) { StripLeftFirst(s[1..]); }
  }

  lemma {:induction false} StripRightLast(s: string)
    ensures StripRight(s) == "" || !IsSpace(StripRight(s)[|StripRight(s)| - 1])
  {
    if s != "" && IsSpace(s[|s| - 1]) { StripRightLast(s[..|s| - 1]); }
  }

  lemma {:induction false} StripRightPrefix(s: string)
    ensures StripRight(s) <= s
  {
    if s != "" && IsSpace(s[|s| - 1]) { StripRightPrefix(s[..|s| - 1]); }
  }

  // ---- Typing and pasting ---------------------------------------------------------------------------------------

  /** Keys typed one by one at the end of the input, an input event after each. */
  function TypedSeparate(countries: seq<Country>, s: State, keys: string): State {
    if keys == "" then s
    else
      var t := TypedSeparate(countries, s, keys[..|keys| - 1]);
      InputSeparate(countries, t.country, t.value + [keys[|keys| - 1]])
  }

  lemma PlusDigits(x: string)
    requires AllDigits(x)
    ensures International("+" + x) && Digits("+" + x) == x
  {
    PlusIsInternational(x);
    DigitsAcross("", '+', x);
    assert "" + ['+'] + x == "+" + x;
    DigitsOfDigits(x);
  }

  lemma InternationalGrows(v: string, d: char)
    requires v != "" && v[0] == '+'
    ensures International(v + [d])
  {
    PlusIsInternational(v[1..] + [d]);
    assert v + [d] == "+" + (v[1..] + [d]);
  }

  /** The search depends on the digits only through which codes begin them. */
  lemma {:induction false} BestByCodes(countries: seq<Country>, x: string, y: string, current: string)
    requires forall i :: 0 <= i < |countries| ==> (countries[i].code <= x <==> countries[i].code <= y)
    ensures Best(countries, x, current) == Best(countries, y, current)
  {
    if countries != [] {
      var n := |countries| - 1;
      assert forall i :: 0 <= i < n ==> countries[..n][i] == countries[i];
      BestByCodes(countries[..n], x, y, current);
    }
  }

  lemma PrefixesCompare(a: string, b: string, s: string)
    requires a <= s && b <= s && |a| <= |b|
    ensures a <= b
  {
  }

  /** In a prefix-free table, digits typed after a matched code match no other code. */
  lemma MatchIsFinal(countries: seq<Country>, x: string, d: char, current: string)
    requires PrefixFree(countries) && Best(countries, x, current).Some?
    ensures Best(countries, x + [d], current) == Best(countries, x, current)
  {
    BestMatches(countries, x, current);
    var m := Best(countries, x, current).value;
    var k :| 0 <= k < |countries| && countries[k] == m;
    forall i | 0 <= i < |countries| ensures countries[i].code <= x <==> countries[i].code <= x + [d] {
      var c := countries[i].code;
      if c <= x + [d] {
        assert m.code <= x + [d];
        if |c| <= |m.code| { PrefixesCompare(c, m.code, x + [d]); } else { PrefixesCompare(m.code, c, x + [d]); }
        assert Begins(countries, i, k) || Begins(countries, k, i);
        assert c == m.code;
      }
    }
    BestByCodes(countries, x + [d], x, current);
  }

  // ---- The separate dial code -------------------------------------------------------------------------------------

  lemma NotInternational(v: string)
    requires AllDigits(v)
    ensures !International(v)
  {
  }

  /** What "+" and the digits typed so far have become: the digits with a plus sign while no code
      matches, then a code in the flag and the rest in the input. */
  predicate Apart(countries: seq<Country>, current: string, s: State, digits: string) {
    if Best(countries, digits, current).None? then s == State(current, "+" + digits)
    else CodeOf(countries, s.country) + s.value == digits
  }

  lemma TypedSeparateMore(countries: seq<Country>, s: State, keys: string, key: char)
    ensures var t := TypedSeparate(countries, s, keys);
            TypedSeparate(countries, s, keys + [key]) == InputSeparate(countries, t.country, t.value + [key])
  {
  }

  lemma NothingMatchesNothing(countries: seq<Country>, current: string)
    requires TableOk(countries)
    ensures Best(countries, "", current).None?
  {
    BestMatches(countries, "", current);
    forall i | 0 <= i < |countries| ensures !(countries[i].code <= "") { assert Coded(countries, i); }
  }

  lemma PlusAloneSeparate(countries: seq<Country>, current: string)
    requires TableOk(countries)
    ensures Apart(countries, current, TypedSeparate(countries, State(current, ""), "+"), "")
  {
    TypedSeparateMore(countries, State(current, ""), "", '+');
    assert "" + ['+'] == "+";
    PlusDigits("");
    assert "+" + "" == "+";
    BestMatches(countries, "", current);
    NothingMatchesNothing(countries, current);
  }

  lemma {:induction false} SeparateTypingStep(countries: seq<Country>, current: string, x: string, d: char, more: string)
    requires TableOk(countries) && AllDigits(x) && IsDigit(d) && more == x + [d]
    requires Apart(countries, current, TypedSeparate(countries, State(current, ""), "+" + x), x)
    ensures var s, t := TypedSeparate(countries, State(current, ""), "+" + x),
                        TypedSeparate(countries, State(current, ""), "+" + more);
            && Apart(countries, current, t, more)
            && (Best(countries, x, current).Some? ==> t.country == s.country)
  {
    TypedSeparateMore(countries, State(current, ""), "+" + x, d);
    SeparateStep(countries, current, TypedSeparate(countries, State(current, ""), "+" + x), x, d);
    assert "+" + more == ("+" + x) + [d];
  }

  /** The code shown apart and the national digits together are always what was typed. */
  lemma {:induction false} CodeAndNationalAreTyped(countries: seq<Country>, current: string, digits: string)
    requires TableOk(countries) && AllDigits(digits)
    ensures Apart(countries, current, TypedSeparate(countries, State(current, ""), "+" + digits), digits)
  {
    if digits == "" {
      PlusAloneSeparate(countries, current);
      assert "+" + digits == "+";
    } else {
      var n := |digits| - 1;
      CodeAndNationalAreTyped(countries, current, digits[..n]);
      SeparateTypingStep(countries, current, digits[..n], digits[n], digits);
    }
  }

  lemma SeparateStep(countries: seq<Country>, current: string, s: State, x: string, d: char)
    requires TableOk(countries) && AllDigits(x) && IsDigit(d) && Apart(countries, current, s, x)
    ensures var t := InputSeparate(countries, s.country, s.value + [d]);
            && Apart(countries, current, t, x + [d])
            && (Best(countries, x, current).Some? ==> t == State(s.country, s.value + [d]))
  {
    if Best(countries, x, current).None? {
      assert s.value + [d] == "+" + (x + [d]);
      PastedApart(countries, current, x + [d]);
    } else {
      MatchedStaysMatched(countries, current, x, d);
      NationalGrows(countries, s, x, d);
    }
  }

  lemma PastedApart(countries: seq<Country>, current: string, x: string)
    requires TableOk(countries) && AllDigits(x)
    ensures Apart(countries, current, InputSeparate(countries, current, "+" + x), x)
  {
    PlusDigits(x);
    BestMatches(countries, x, current);
    if Best(countries, x, current).Some? { SelectedHasCode(countries, current, Best(countries, x, current).value); }
  }

  lemma {:induction false} MatchedStaysMatched(countries: seq<Country>, current: string, x: string, d: char)
    requires Best(countries, x, current).Some?
    ensures Best(countries, x + [d], current).Some?
  {
    var n := |countries| - 1;
    if Best(countries[..n], x, current).Some? { MatchedStaysMatched(countries[..n], current, x, d); }
    assert countries[n].code <= x ==> countries[n].code <= x + [d];
  }

  /** Digits typed after the code go to the input as they are. */
  lemma NationalGrows(countries: seq<Country>, s: State, x: string, d: char)
    requires AllDigits(x) && IsDigit(d) && CodeOf(countries, s.country) + s.value == x
    ensures InputSeparate(countries, s.country, s.value + [d]) == State(s.country, s.value + [d])
    ensures CodeOf(countries, s.country) + (s.value + [d]) == x + [d]
  {
    var code := CodeOf(countries, s.country);
    forall i | 0 <= i < |s.value| ensures IsDigit(s.value[i]) { assert s.value[i] == x[|code| + i]; }
    NotInternational(s.value + [d]);
  }

  // ---- When typing equals pasting in the separate form ---------------------------------------------------------

  predicate TypingPastes(countries: seq<Country>, current: string, digits: string) {
    TypedSeparate(countries, State(current, ""), "+" + digits) == InputSeparate(countries, current, "+" + digits)
  }

  lemma UnmatchedGrows(countries: seq<Country>, current: string, x: string, d: char)
    requires AllDigits(x) && Best(countries, x, current).None?
    ensures InputSeparate(countries, current, "+" + x) == State(current, "+" + x)
    ensures "+" + x + [d] == "+" + (x + [d])
  {
    PlusDigits(x);
  }

  lemma SeparatePasteGrows(countries: seq<Country>, current: string, x: string, d: char)
    requires TableOk(countries) && PrefixFree(countries) && AllDigits(x) && IsDigit(d)
    ensures var s := InputSeparate(countries, current, "+" + x);
            InputSeparate(countries, s.country, s.value + [d]) == InputSeparate(countries, current, "+" + (x + [d]))
  {
    var s, best := InputSeparate(countries, current, "+" + x), Best(countries, x, current);
    if best.None? {
      UnmatchedGrows(countries, current, x, d);
    } else {
      BestMatches(countries, x, current);
      PastedApart(countries, current, x);
      NationalGrows(countries, s, x, d);
      MatchIsFinal(countries, x, d, current);
      PastedMatch(countries, current, x);
      PastedMatch(countries, current, x + [d]);
    }
  }

  lemma PastedMatch(countries: seq<Country>, current: string, x: string)
    requires AllDigits(x) && Best(countries, x, current).Some?
    ensures var b := Best(countries, x, current).value;
            b.code <= x && InputSeparate(countries, current, "+" + x) == State(Selected(countries, current, b), x[|b.code|..])
  {
    PlusDigits(x);
    BestMatches(countries, x, current);
  }

  lemma PastingPlus(countries: seq<Country>, current: string)
    ensures TypingPastes(countries, current, "")
  {
    TypedSeparateMore(countries, State(current, ""), "", '+');
    assert "" + ['+'] == "+" + "" == "+";
  }

  lemma SeparatePastingStep(countries: seq<Country>, current: string, x: string, d: char, more: string)
    requires TableOk(countries) && PrefixFree(countries) && AllDigits(x) && IsDigit(d) && more == x + [d]
    requires TypingPastes(countries, current, x)
    ensures TypingPastes(countries, current, more)
  {
    TypedSeparateMore(countries, State(current, ""), "+" + x, d);
    SeparatePasteGrows(countries, current, x, d);
    assert ("+" + x) + [d] == "+" + more;
  }

  lemma {:induction false} SeparateTypingIsPasting(countries: seq<Country>, current: string, digits: string)
    requires TableOk(countries) && PrefixFree(countries) && AllDigits(digits)
    ensures TypingPastes(countries, current, digits)
  {
    if digits == "" {
      PastingPlus(countries, current);
    } else {
      var n := |digits| - 1;
      SeparateTypingIsPasting(countries, current, digits[..n]);
      SeparatePastingStep(countries, current, digits[..n], digits[n], digits);
    }
  }

  lemma CountryStaysOnce(countries: seq<Country>, current: string, x: string, d: char)
    requires TableOk(countries) && AllDigits(x) && IsDigit(d) && Best(countries, x, current).Some?
    ensures Best(countries, x + [d], current).Some?
    ensures TypedSeparate(countries, State(current, ""), "+" + (x + [d])).country
            == TypedSeparate(countries, State(current, ""), "+" + x).country
  {
    MatchedStaysMatched(countries, current, x, d);
    CodeAndNationalAreTyped(countries, current, x);
    SeparateTypingStep(countries, current, x, d, x + [d]);
  }

  /** Once a code has matched, typing on never changes the country again. */
  lemma {:induction false} CountryStays(countries: seq<Country>, current: string, code: string, rest: string)
    requires TableOk(countries) && AllDigits(code) && AllDigits(rest) && Best(countries, code, current).Some?
    ensures Best(countries, code + rest, current).Some?
    ensures TypedSeparate(countries, State(current, ""), "+" + (code + rest)).country
            == TypedSeparate(countries, State(current, ""), "+" + code).country
  {
    if rest == "" {
      assert code + rest == code;
    } else {
      var n := |rest| - 1;
      var less, d := rest[..n], rest[n];
      var x := code + less;
      assert code + rest == x + [d];
      CountryStays(countries, current, code, less);
      CountryStaysOnce(countries, current, x, d);
    }
  }

  lemma TypedCodeIsShort(countries: seq<Country>, current: string, i: nat, longer: string)
    requires TableOk(countries) && i < |countries| && AllDigits(longer) && countries[i].code <= longer
    ensures |CodeOf(countries, TypedSeparate(countries, State(current, ""), "+" + longer).country)| <= |countries[i].code|
  {
    var code := countries[i].code;
    assert Coded(countries, i);
    DigitsAreDigits(code);
    BestMatches(countries, code, current);
    CodeAndNationalAreTyped(countries, current, code);
    assert longer == code + longer[|code|..];
    CountryStays(countries, current, code, longer[|code|..]);
  }

  lemma PastedCodeIsLong(countries: seq<Country>, current: string, j: nat)
    requires TableOk(countries) && j < |countries|
    ensures CodeOf(countries, InputSeparate(countries, current, "+" + countries[j].code).country) == countries[j].code
  {
    var code := countries[j].code;
    assert Coded(countries, j);
    DigitsAreDigits(code);
    BestMatches(countries, code, current);
    PlusDigits(code);
    SelectedHasCode(countries, current, Best(countries, code, current).value);
  }

  /** With a code that begins another one, typing the longer one stops at the shorter. */
  lemma PrefixStopsTyping(countries: seq<Country>, current: string, i: nat, j: nat)
    requires TableOk(countries) && i < |countries| && j < |countries|
    requires countries[i].code <= countries[j].code && countries[i].code != countries[j].code
    ensures !TypingPastes(countries, current, countries[j].code)
  {
    assert Coded(countries, j);
    DigitsAreDigits(countries[j].code);
    TypedCodeIsShort(countries, current, i, countries[j].code);
    PastedCodeIsLong(countries, current, j);
  }

  /** Typing equals pasting from every country and for every number exactly if no dial code begins another. */
  lemma TypingPastesExactly(countries: seq<Country>)
    requires TableOk(countries)
    ensures PrefixFree(countries)
            <==> forall current, digits :: Known(countries, current) && AllDigits(digits) ==> TypingPastes(countries, current, digits)
  {
    if PrefixFree(countries) {
      forall current, digits | Known(countries, current) && AllDigits(digits) ensures TypingPastes(countries, current, digits) {
        SeparateTypingIsPasting(countries, current, digits);
      }
    } else {
      var i: nat, j: nat :| i < |countries| && j < |countries| && Begins(countries, i, j)
                            && countries[i].code != countries[j].code;
      PrefixStopsTyping(countries, countries[0].iso, i, j);
      assert Coded(countries, j);
      DigitsAreDigits(countries[j].code);
      assert Known(countries, countries[0].iso);
    }
  }
}
