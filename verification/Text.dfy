/** Strings as the sources use them: search, split, strip and digits. White space and digits are
    the ASCII ones. A byte string is a string of characters below 256. */
module Text {
  import opened Wrappers

  const CRLF := "\r\n"

  predicate OccursAt(s: string, d: string, i: nat) {
    i + |d| <= |s| && s[i..i + |d|] == d
  }

  predicate Contains(s: string, d: string) {
    exists i: nat :: i <= |s| && OccursAt(s, d, i)
  }

  /** The index of the first occurrence. */
  function Find(s: string, d: string): (r: Option<nat>)
    ensures r.Some? ==> OccursAt(s, d, r.value) && forall i: nat :: i < r.value ==> !OccursAt(s, d, i)
    ensures r.None? <==> !Contains(s, d)
  {
    FindFrom(s, d, 0)
  }

  function FindFrom(s: string, d: string, from: nat): (r: Option<nat>)
    requires from <= |s|
    ensures r.Some? ==> from <= r.value && OccursAt(s, d, r.value) && forall i: nat :: from <= i < r.value ==> !OccursAt(s, d, i)
    ensures r.None? ==> forall i: nat :: from <= i <= |s| ==> !OccursAt(s, d, i)
    decreases |s| - from
  {
    if OccursAt(s, d, from) then Some(from)
    else if from == |s| then None
    else FindFrom(s, d, from + 1)
  }

  function Join(pieces: seq<string>, d: string): string
    requires pieces != []
  {
    if |pieces| == 1 then pieces[0] else pieces[0] + d + Join(pieces[1..], d)
  }

  lemma JoinMore(piece: string, rest: seq<string>, d: string)
    requires rest != []
    ensures Join([piece] + rest, d) == piece + d + Join(rest, d)
  {
    assert ([piece] + rest)[1..] == rest;
  }

  lemma CutOnce(s: string, d: string, i: nat)
    requires OccursAt(s, d, i)
    ensures i + |d| <= |s| && s == s[..i] + d + s[i + |d|..]
  {
  }

  /** Python's `split`: cut at every occurrence, from the left and without overlap. */
  function Split(s: string, d: string): (pieces: seq<string>)
    requires d != ""
    ensures pieces != [] && Join(pieces, d) == s
  {
    match Find(s, d)
    case None => [s]
    case Some(i) =>
      CutOnce(s, d, i);
      var rest := Split(s[i + |d|..], d);
      JoinMore(s[..i], rest, d);
      [s[..i]] + rest
  }

  /** Python's `partition`: what precedes the first occurrence, whether there is one, what follows. */
  function Partition(s: string, d: string): (string, bool, string) {
    match Find(s, d)
    case None => (s, false, "")
    case Some(i) => (s[..i], true, s[i + |d|..])
  }

  /** The first character of the delimiter does not recur in it, so occurrences never overlap. */
  predicate LeadsUniquely(d: string) {
    d != "" && forall i :: 0 < i < |d| ==> d[i] != d[0]
  }

  /** An inserted delimiter is where the next cut falls, if what precedes it is free of it. */
  lemma FindInserted(c: string, d: string, rest: string)
    requires LeadsUniquely(d) && !Contains(c, d)
    ensures Find(c + d + rest, d) == Some(|c|)
  {
    var s := c + d + rest;
    assert s[|c|..|c| + |d|] == d;
    assert OccursAt(s, d, |c|);
    forall i: nat | i < |c| ensures !OccursAt(s, d, i) {
      if i + |d| <= |c| {
        assert !OccursAt(c, d, i);
        assert c[i..i + |d|] == s[i..i + |d|];
      } else {
        assert s[i..][|c| - i] == d[0];
        assert s[i + (|c| - i)] != d[|c| - i];
      }
    }
  }

  lemma SplitInserted(c: string, d: string, rest: string)
    requires LeadsUniquely(d) && !Contains(c, d)
    ensures Split(c + d + rest, d) == [c] + Split(rest, d)
  {
    FindInserted(c, d, rest);
    var s := c + d + rest;
    assert s[..|c|] == c && s[|c| + |d|..] == rest;
  }

  /** What precedes the first occurrence is free of the delimiter. */
  lemma PrefixIsFree(s: string, d: string, i: nat)
    requires d != "" && Find(s, d) == Some(i)
    ensures !Contains(s[..i], d)
  {
    forall j: nat | j <= i ensures !OccursAt(s[..i], d, j) {
      assert j < i ==> !OccursAt(s, d, j);
      assert j + |d| <= i ==> s[..i][j..j + |d|] == s[j..j + |d|];
    }
  }

  lemma {:induction false} PiecesAreFree(s: string, d: string)
    requires d != ""
    ensures forall p :: p in Split(s, d) ==> !Contains(p, d)
    decreases |s|
  {
    match Find(s, d)
    case None =>
    case Some(i) =>
      PiecesAreFree(s[i + |d|..], d);
      PrefixIsFree(s, d, i);
  }

  /** Splitting undoes joining exactly when no piece contains the delimiter. */
  lemma {:induction false} SplitJoin(pieces: seq<string>, d: string)
    requires pieces != [] && LeadsUniquely(d)
    ensures Split(Join(pieces, d), d) == pieces <==> forall p :: p in pieces ==> !Contains(p, d)
  {
    if forall p :: p in pieces ==> !Contains(p, d) {
      SplitOfJoin(pieces, d);
    } else {
      PiecesAreFree(Join(pieces, d), d);
    }
  }

  lemma {:induction false} SplitOfJoin(pieces: seq<string>, d: string)
    requires pieces != [] && LeadsUniquely(d) && forall p :: p in pieces ==> !Contains(p, d)
    ensures Split(Join(pieces, d), d) == pieces
  {
    if |pieces| > 1 {
      SplitOfJoin(pieces[1..], d);
      SplitInserted(pieces[0], d, Join(pieces[1..], d));
      assert pieces == [pieces[0]] + pieces[1..];
    }
  }

  // ---- Characters ------------------------------------------------------------------------------

  predicate IsSpace(c: char) { c == ' ' || '\t' <= c <= '\r' }
  predicate IsDigit(c: char) { '0' <= c <= '9' }

  function LowerChar(c: char): char {
    if 'A' <= c <= 'Z' then c - 'A' + 'a' else c
  }

  function Lower(s: string): string {
    seq(|s|, i requires 0 <= i < |s| => LowerChar(s[i]))
  }

  function StripLeft(s: string): string {
    if s != "" && IsSpace(s[0]) then StripLeft(s[1..]) else s
  }

  function StripRight(s: string): string {
    if s != "" && IsSpace(s[|s| - 1]) then StripRight(s[..|s| - 1]) else s
  }

  function Strip(s: string): string { StripRight(StripLeft(s)) }

  lemma {:induction false} StripRightKeeps(s: string)
    ensures s != "" && !IsSpace(s[0]) ==> StripRight(s) != "" && StripRight(s)[0] == s[0]
    ensures StripRight(s) != "" ==> !IsSpace(StripRight(s)[|StripRight(s)| - 1])
  {
    if s != "" && IsSpace(s[|s| - 1]) { StripRightKeeps(s[..|s| - 1]); }
  }

  lemma {:induction false} StripLeftStops(s: string)
    ensures StripLeft(s) != "" ==> !IsSpace(StripLeft(s)[0])
  {
    if s != "" && IsSpace(s[0]) { StripLeftStops(s[1..]); }
  }

  lemma StripIsIdempotent(s: string)
    ensures Strip(Strip(s)) == Strip(s)
  {
    StripLeftStops(s);
    StripRightKeeps(StripLeft(s));
  }

  /** `re.sub(r"\D", "", s)`. */
  function Digits(s: string): (r: string)
    ensures forall i :: 0 <= i < |r| ==> IsDigit(r[i])
  {
    if s == "" then "" else (if IsDigit(s[0]) then [s[0]] else "") + Digits(s[1..])
  }

  lemma {:induction false} DigitsConcat(a: string, b: string)
    ensures Digits(a + b) == Digits(a) + Digits(b)
  {
    if a == "" {
      assert a + b == b;
    } else {
      DigitsConcat(a[1..], b);
      assert (a + b)[0] == a[0] && (a + b)[1..] == a[1..] + b;
      var first := if IsDigit(a[0]) then [a[0]] else "";
      assert first + (Digits(a[1..]) + Digits(b)) == (first + Digits(a[1..])) + Digits(b);
    }
  }

  lemma DigitsOfOne(c: char)
    ensures Digits([c]) == if IsDigit(c) then [c] else ""
  {
  }

  lemma DigitsAppend(s: string, c: char)
    ensures Digits(s + [c]) == if IsDigit(c) then Digits(s) + [c] else Digits(s)
  {
    DigitsConcat(s, [c]);
    DigitsOfOne(c);
  }

  /** A character that is no digit separates without adding any. */
  lemma DigitsAcross(a: string, separator: char, b: string)
    requires !IsDigit(separator)
    ensures Digits(a + [separator] + b) == Digits(a) + Digits(b)
  {
    var left := a + [separator];
    DigitsAppend(a, separator);
    DigitsConcat(left, b);
  }

  lemma {:induction false} DigitsOfDigits(s: string)
    requires forall i :: 0 <= i < |s| ==> IsDigit(s[i])
    ensures Digits(s) == s
  {
    if s != "" {
      DigitsOfDigits(s[1..]);
    }
  }

  predicate OnlySpace(s: string) { forall i :: 0 <= i < |s| ==> IsSpace(s[i]) }

  /** The text between white space that neither begins nor ends with any. */
  ghost predicate IsStripped(s: string, r: string) {
    && (r != "" ==> !IsSpace(r[0]) && !IsSpace(r[|r| - 1]))
    && exists left: string, right: string :: OnlySpace(left) && OnlySpace(right) && s == left + r + right
  }

  lemma {:induction false} StripLeftIs(s: string) returns (left: string)
    ensures OnlySpace(left) && s == left + StripLeft(s) && (StripLeft(s) != "" ==> !IsSpace(StripLeft(s)[0]))
  {
    if s != "" && IsSpace(s[0]) {
      var more := StripLeftIs(s[1..]);
      left := [s[0]] + more;
    } else {
      left := "";
    }
  }

  lemma {:induction false} StripRightIs(s: string) returns (right: string)
    ensures OnlySpace(right) && s == StripRight(s) + right && (StripRight(s) != "" ==> !IsSpace(StripRight(s)[|StripRight(s)| - 1]))
  {
    if s != "" && IsSpace(s[|s| - 1]) {
      var more := StripRightIs(s[..|s| - 1]);
      right := more + [s[|s| - 1]];
    } else {
      right := "";
    }
  }

  lemma {:induction false} StripLeftOf(left: string, rest: string)
    requires OnlySpace(left) && (rest != "" ==> !IsSpace(rest[0]))
    ensures StripLeft(left + rest) == rest
  {
    if left == "" {
      assert left + rest == rest;
    } else {
      StripLeftOf(left[1..], rest);
      assert (left + rest)[1..] == left[1..] + rest;
    }
  }

  lemma {:induction false} StripRightOf(rest: string, right: string)
    requires OnlySpace(right) && (rest != "" ==> !IsSpace(rest[|rest| - 1]))
    ensures StripRight(rest + right) == rest
  {
    if right == "" {
      assert rest + right == rest;
    } else {
      var n := |right| - 1;
      StripRightOf(rest, right[..n]);
      assert (rest + right)[..|rest + right| - 1] == rest + right[..n];
    }
  }

  /** `strip` takes the white space at both ends, all of it and nothing else. */
  lemma {:induction false} StripIs(s: string, r: string)
    ensures r == Strip(s) <==> IsStripped(s, r)
  {
    var left := StripLeftIs(s);
    var right := StripRightIs(StripLeft(s));
    StripRightKeeps(StripLeft(s));
    assert s == left + Strip(s) + right;
    if IsStripped(s, r) {
      var a: string, b: string :| OnlySpace(a) && OnlySpace(b) && s == a + r + b;
      if r == "" {
        assert s == (a + b) + "";
        StripLeftOf(a + b, "");
      } else {
        assert s == a + (r + b);
        StripLeftOf(a, r + b);
        StripRightOf(r, b);
      }
    }
  }

  /** Upper and lower case of one ASCII letter. */
  predicate SameLetter(c: char, d: char) {
    || c == d
    || ('A' <= c <= 'Z' && d as int == c as int + 32)
    || ('A' <= d <= 'Z' && c as int == d as int + 32)
  }

  /** Lower case makes two texts equal exactly if they differ in nothing but the case of letters, and
      leaves a text without capitals as it is. */
  lemma {:induction false} LowerFolds(s: string, t: string)
    ensures Lower(s) == Lower(t) <==> |s| == |t| && forall i :: 0 <= i < |s| ==> SameLetter(s[i], t[i])
    ensures (forall i :: 0 <= i < |s| ==> !('A' <= s[i] <= 'Z')) <==> Lower(s) == s
  {
    if Lower(s) == Lower(t) {
      forall i | 0 <= i < |s| ensures SameLetter(s[i], t[i]) { assert Lower(s)[i] == Lower(t)[i]; }
    }
    if Lower(s) == s {
      forall i | 0 <= i < |s| ensures !('A' <= s[i] <= 'Z') { assert Lower(s)[i] == LowerChar(s[i]); }
    }
  }
}
