/** The country table of the phone widgets satisfies what their theorems ask of it. */
module PhoneTable {
  import opened Countries
  import opened Phone
  import opened Text
  import PhoneTheorems

  /** How long the dial code is that begins these digits, told from the first two digits. */
  function DialLength(digits: string): nat {
    if digits == "" then 0
    else if digits[0] == '1' then 1
    else if |digits| > 1 && ((digits[0] == '3' && digits[1] == '5') || (digits[0] == '9' && digits[1] == '7')) then 3
    else 2
  }

  /** Where the table lists an ISO code. */
  function Position(iso: string): nat
    requires |iso| == 2
  {
    var c := iso[1];
    match iso[0]
    case 'a' => if c == 'f' then 0 else if c == 'r' then 1 else if c == 'u' then 2 else if c == 't' then 3 else 99
    case 'b' => if c == 'e' then 4 else if c == 'r' then 5 else 99
    case 'c' => if c == 'a' then 6 else if c == 'l' then 7 else if c == 'o' then 8 else if c == 'h' then 29 else 99
    case 'd' => if c == 'k' then 9 else if c == 'e' then 11 else 99
    case 'e' => if c == 's' then 27 else 99
    case 'f' => if c == 'r' then 10 else 99
    case 'g' => if c == 'b' then 30 else 99
    case 'i' => if c == 'n' then 12 else if c == 'e' then 13 else if c == 'l' then 14 else if c == 't' then 15 else 99
    case 'j' => if c == 'p' then 16 else 99
    case 'k' => if c == 'r' then 26 else 99
    case 'm' => if c == 'x' then 17 else 99
    case 'n' => if c == 'l' then 18 else if c == 'z' then 19 else if c == 'o' then 20 else 99
    case 'p' => if c == 'h' then 21 else if c == 'l' then 22 else if c == 't' then 23 else 99
    case 's' => if c == 'g' then 24 else if c == 'e' then 28 else 99
    case 'u' => if c == 's' then 31 else 99
    case 'z' => if c == 'a' then 25 else 99
    case _ => 99
  }

  predicate InPlace(c: Country, i: nat) {
    && |c.iso| == 2 && Position(c.iso) == i
    && 0 < |c.code| == DialLength(c.code)
    && IsDigit(c.code[0]) && (|c.code| > 1 ==> IsDigit(c.code[1])) && (|c.code| > 2 ==> IsDigit(c.code[2]))
  }

  lemma Rows0()
    ensures forall i :: 0 <= i < 4 ==> InPlace(ITI_COUNTRIES[i], i)
  {
  }

  lemma Rows4()
    ensures forall i :: 4 <= i < 8 ==> InPlace(ITI_COUNTRIES[i], i)
  {
  }

  lemma Rows8()
    ensures forall i :: 8 <= i < 12 ==> InPlace(ITI_COUNTRIES[i], i)
  {
  }

  lemma Rows12()
    ensures forall i :: 12 <= i < 16 ==> InPlace(ITI_COUNTRIES[i], i)
  {
  }

  lemma Rows16()
    ensures forall i :: 16 <= i < 20 ==> InPlace(ITI_COUNTRIES[i], i)
  {
  }

  lemma Rows20()
    ensures forall i :: 20 <= i < 24 ==> InPlace(ITI_COUNTRIES[i], i)
  {
  }

  lemma Rows24()
    ensures forall i :: 24 <= i < 28 ==> InPlace(ITI_COUNTRIES[i], i)
  {
  }

  lemma Rows28()
    ensures forall i :: 28 <= i < 32 ==> InPlace(ITI_COUNTRIES[i], i)
  {
  }

  lemma EveryRow()
    ensures forall i :: 0 <= i < |ITI_COUNTRIES| ==> InPlace(ITI_COUNTRIES[i], i)
  {
    Rows0();
    Rows4();
    Rows8();
    Rows12();
    Rows16();
    Rows20();
    Rows24();
    Rows28();
  }

  lemma LengthTellsCodesApart(a: string, b: string)
    requires a != "" && a <= b && |a| == DialLength(a) && |b| == DialLength(b)
    ensures a == b
  {
  }

  lemma InPlaceIsSound(countries: seq<Country>)
    requires forall i :: 0 <= i < |countries| ==> InPlace(countries[i], i)
    ensures TableOk(countries) && PhoneTheorems.PrefixFree(countries)
  {
    forall i: nat | i < |countries| ensures Coded(countries, i) {
      DigitsOfDigits(countries[i].code);
    }
    forall i: nat, j: nat | i < |countries| && j < |countries| && PhoneTheorems.Begins(countries, i, j)
      ensures countries[i].code == countries[j].code
    {
      LengthTellsCodesApart(countries[i].code, countries[j].code);
    }
    forall i: nat, j: nat | i < j < |countries| ensures IsoApart(countries, i, j) {
      assert InPlace(countries[i], i) && InPlace(countries[j], j);
    }
  }

  /** The shipped table: distinct countries, and no dial code begins another. */
  lemma TableIsSound()
    ensures TableOk(ITI_COUNTRIES) && PhoneTheorems.PrefixFree(ITI_COUNTRIES)
  {
    EveryRow();
    InPlaceIsSound(ITI_COUNTRIES);
  }
}
