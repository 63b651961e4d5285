/** The phone widgets of `scripts/mock_ats.py`: `intlTel`, which reformats an international number
    on every input event, and `separateDialCode`, which moves its dial code out of the input. */
module Phone {
  import opened Wrappers
  import opened Text
  import opened Countries

  datatype State = State(country: string, value: string)

  function CodeOf(countries: seq<Country>, iso: string): string {
    match ByIso(countries, iso)
    case None => ""
    case Some(c) => c.code
  }

  predicate IsoApart(countries: seq<Country>, i: nat, j: nat)
    requires i < |countries| && j < |countries|
  {
    countries[i].iso != countries[j].iso
  }

  predicate Coded(countries: seq<Country>, i: nat)
    requires i < |countries|
  {
    countries[i].code != "" && Digits(countries[i].code) == countries[i].code
  }

  /** Distinct ISO codes, each with a nonempty dial code of digits. */
  predicate TableOk(countries: seq<Country>) {
    && (forall i: nat, j: nat {:trigger IsoApart(countries, i, j)} :: i < j < |countries| ==> IsoApart(countries, i, j))
    && (forall i: nat {:trigger Coded(countries, i)} :: i < |countries| ==> Coded(countries, i))
  }

  predicate Known(countries: seq<Country>, iso: string) {
    ByIso(countries, iso).Some?
  }

  // ---- Specification ---------------------------------------------------------------------------------

  /** One step of the search: a longer code wins, and among equals the current country. */
  function Better(best: Option<Country>, c: Country, digits: string, current: string): Option<Country> {
    if !(c.code <= digits) then best
    else if best.None? || |c.code| > |best.value.code| || (|c.code| == |best.value.code| && c.iso == current) then Some(c)
    else best
  }

  function Best(countries: seq<Country>, digits: string, current: string): Option<Country> {
    if countries == [] then None
    else
      var n := |countries| - 1;
      Better(Best(countries[..n], digits, current), countries[n], digits, current)
  }

  predicate International(raw: string) { "+" <= Strip(raw) }

  /** The country shown once the number matches `c`: unchanged if it has the same dial code. */
  function Selected(countries: seq<Country>, current: string, c: Country): string {
    if c.code == CodeOf(countries, current) then current else c.iso
  }

  function Pretty(code: string, national: string): string {
    if code == "1" && |national| > 3 then
      national[..3] + "-" + (if |national| > 6 then national[3..6] + "-" + national[6..] else national[3..])
    else if |national| > 4 then national[..|national| - 4] + " " + national[|national| - 4..]
    else national
  }

  function Formatted(code: string, digits: string): string
    requires code <= digits
  {
    "+" + code + " " + Pretty(code, digits[|code|..])
  }

  lemma {:induction false} BestMatches(countries: seq<Country>, digits: string, current: string)
    ensures var b := Best(countries, digits, current);
            && (b.None? <==> forall i :: 0 <= i < |countries| ==> !(countries[i].code <= digits))
            && (b.Some? ==> b.value in countries && b.value.code <= digits
                            && forall i :: 0 <= i < |countries| && countries[i].code <= digits ==> |countries[i].code| <= |b.value.code|)
  {
    if countries != [] {
      var n := |countries| - 1;
      BestMatches(countries[..n], digits, current);
      assert forall i :: 0 <= i < n ==> countries[..n][i] == countries[i];
    }
  }

  /** The input handler of `intlTel`. */
  function Input(countries: seq<Country>, current: string, raw: string): State {
    var best := Best(countries, Digits(raw), current);
    BestMatches(countries, Digits(raw), current);
    if !International(raw) || best.None? then State(current, raw)
    else State(Selected(countries, current, best.value), Formatted(best.value.code, Digits(raw)))
  }

  /** The input handler of `separateDialCode`. */
  function InputSeparate(countries: seq<Country>, current: string, raw: string): State {
    var best := Best(countries, Digits(raw), current);
    BestMatches(countries, Digits(raw), current);
    if !International(raw) || best.None? then State(current, raw)
    else State(Selected(countries, current, best.value), Digits(raw)[|best.value.code|..])
  }

  // ---- The widgets --------------------------------------------------------------------------------------

  class Widget {
    const countries: seq<Country>
    var country: string
    var value: string

    ghost function Shows(): State
      reads this
    {
      State(country, value)
    }

    constructor (countries: seq<Country>, initial: string)
      ensures this.countries == countries && Shows() == State(initial, "")
    {
      this.countries := countries;
      country, value := initial, "";
    }

    method LongestMatch(digits: string) returns (best: Option<Country>)
      ensures best == Best(countries, digits, country)
    {
      best := None;
      for k := 0 to |countries|
        invariant best == Best(countries[..k], digits, country)
      {
        assert countries[..k + 1][..k] == countries[..k];
        var c := countries[k];
        if c.code <= digits
           && (best.None? || |c.code| > |best.value.code| || (|c.code| == |best.value.code| && c.iso == country)) {
          best := Some(c);
        }
      }
      assert countries[..|countries|] == countries;
    }

    method Select(iso: string)
      modifies this`country
      ensures country == iso
    {
      country := iso;
    }

    /** `format`, run on every input event of the plain widget. */
    method Format()
      modifies this
      ensures Shows() == Input(countries, old(country), old(value))
    {
      if !International(value) { return; }
      var digits := Digits(value);
      var best := LongestMatch(digits);
      BestMatches(countries, digits, country);
      if best.None? { return; }
      var match_ := best.value;
      if match_.iso != country && match_.code != CodeOf(countries, country) { Select(match_.iso); }
      var national := digits[|match_.code|..];
      var pretty := national;
      if match_.code == "1" && |national| > 3 {
        pretty := national[..3] + "-" + (if |national| > 6 then national[3..6] + "-" + national[6..] else national[3..]);
      } else if |national| > 4 {
        pretty := national[..|national| - 4] + " " + national[|national| - 4..];
      }
      value := "+" + match_.code + " " + pretty;
    }

    /** The same event of the widget that shows its dial code apart. */
    method TakeDialCode()
      modifies this
      ensures Shows() == InputSeparate(countries, old(country), old(value))
    {
      if !International(value) { return; }
      var digits := Digits(value);
      var best := LongestMatch(digits);
      BestMatches(countries, digits, country);
      if best.None? { return; }
      if best.value.code != CodeOf(countries, country) { Select(best.value.iso); }
      value := digits[|best.value.code|..];
    }
  }

  // ---- How a number is set --------------------------------------------------------------------------

  /** A number of the code 1 is set in threes after which come the rest, any other one with its last four
      digits apart; a short one is set as it is. */
  ghost predicate IsSet(code: string, national: string, shown: string) {
    if code == "1" && |national| > 6 then
      exists area: string, exchange: string, line: string ::
        |area| == |exchange| == 3 && national == area + exchange + line && shown == area + "-" + exchange + "-" + line
    else if code == "1" && |national| > 3 then
      exists area: string, rest: string :: |area| == 3 && national == area + rest && shown == area + "-" + rest
    else if |national| > 4 then
      exists front: string, line: string :: |line| == 4 && national == front + line && shown == front + " " + line
    else shown == national
  }

  lemma {:induction false} PrettyIsSet(code: string, national: string)
    ensures IsSet(code, national, Pretty(code, national))
  {
    if code == "1" && |national| > 6 {
      var area, exchange, line := national[..3], national[3..6], national[6..];
      assert national == area + exchange + line;
      assert Pretty(code, national) == area + "-" + exchange + "-" + line;
    } else if code == "1" && |national| > 3 {
      assert national == national[..3] + national[3..];
      assert Pretty(code, national) == national[..3] + "-" + national[3..];
    } else if |national| > 4 {
      var n := |national| - 4;
      assert national == national[..n] + national[n..];
    }
  }

  predicate CodeBegins(countries: seq<Country>, raw: string, i: nat)
    requires i < |countries|
  {
    countries[i].code <= Digits(raw)
  }

  /** The entry's code begins the number's digits, and no longer code does. */
  predicate FitsBest(countries: seq<Country>, raw: string, i: nat) {
    && i < |countries| && CodeBegins(countries, raw, i)
    && forall j :: 0 <= j < |countries| && CodeBegins(countries, raw, j) ==> |countries[j].code| <= |countries[i].code|
  }

  /** What a number that begins with a plus sign leaves behind, with an entry whose code begins it: the
      digits after the code, and the entry's country unless the current one has that code. */
  predicate LeavesBehind(countries: seq<Country>, current: string, raw: string, i: nat, national: string, country: string) {
    && FitsBest(countries, raw, i) && Digits(raw) == countries[i].code + national
    && country == if CodeOf(countries, current) == countries[i].code then current else countries[i].iso
  }

  /** An international number is shown as a plus sign, the longest dial code that begins it, and its
      national digits, set apart; every other text is left as it is. */
  lemma {:induction false} InputIsSet(countries: seq<Country>, current: string, raw: string)
    ensures var t := Input(countries, current, raw);
            if "+" <= Strip(raw) && exists i: nat :: i < |countries| && CodeBegins(countries, raw, i) then
              exists i: nat, national, shown ::
                && LeavesBehind(countries, current, raw, i, national, t.country)
                && IsSet(countries[i].code, national, shown) && t.value == "+" + countries[i].code + " " + shown
            else t == State(current, raw)
  {
    FoundIfBegins(countries, current, raw);
    if "+" <= Strip(raw) && exists i: nat :: i < |countries| && CodeBegins(countries, raw, i) {
      var i, national := MatchLeaves(countries, current, raw);
      PrettyIsSet(countries[i].code, national);
      assert IsSet(countries[i].code, national, Pretty(countries[i].code, national));
    }
  }

  lemma {:induction false} FoundIfBegins(countries: seq<Country>, current: string, raw: string)
    ensures Best(countries, Digits(raw), current).Some? <==> exists i: nat :: i < |countries| && CodeBegins(countries, raw, i)
  {
    BestMatches(countries, Digits(raw), current);
    var best := Best(countries, Digits(raw), current);
    if best.Some? {
      var i :| 0 <= i < |countries| && countries[i] == best.value;
      assert CodeBegins(countries, raw, i);
    } else {
      forall i: nat | i < |countries| ensures !CodeBegins(countries, raw, i) { assert !(countries[i].code <= Digits(raw)); }
    }
  }

  lemma {:induction false} MatchLeaves(countries: seq<Country>, current: string, raw: string) returns (i: nat, national: string)
    requires exists i: nat :: i < |countries| && CodeBegins(countries, raw, i)
    ensures var best := Best(countries, Digits(raw), current);
            && best.Some? && LeavesBehind(countries, current, raw, i, national, Selected(countries, current, best.value))
            && countries[i] == best.value && best.value.code <= Digits(raw) && national == Digits(raw)[|best.value.code|..]
  {
    var digits := Digits(raw);
    BestMatches(countries, digits, current);
    var j: nat :| j < |countries| && CodeBegins(countries, raw, j);
    var best := Best(countries, digits, current).value;
    i :| 0 <= i < |countries| && countries[i] == best;
    national := digits[|best.code|..];
    assert CodeBegins(countries, raw, i);
  }

  /** The widget that shows its dial code apart keeps the national digits alone. */
  lemma {:induction false} SeparateIsCut(countries: seq<Country>, current: string, raw: string)
    ensures var t := InputSeparate(countries, current, raw);
            if "+" <= Strip(raw) && exists i: nat :: i < |countries| && CodeBegins(countries, raw, i) then
              exists i: nat :: LeavesBehind(countries, current, raw, i, t.value, t.country)
            else t == State(current, raw)
  {
    FoundIfBegins(countries, current, raw);
    if "+" <= Strip(raw) && exists i: nat :: i < |countries| && CodeBegins(countries, raw, i) {
      var i, national := MatchLeaves(countries, current, raw);
    }
  }
}
