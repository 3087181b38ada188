/** Values shared by the whole model: the failure-compatible wrappers, the single error
    type of the application, the clock values that callers pass in, and the few PHP
    built-ins the core relies on (decimal formatting, `trim`, truncating integer
    division, collection filtering). */
module Base {

  datatype Option<+T> = None | Some(value: T)

  datatype Result<+T> = Ok(value: T) | Err(error: Failure)

  /** The outcome of an operation that returns nothing but may raise. */
  datatype Outcome = Done | Fail(error: Failure)

  /** The core raises a single exception type, \InvalidArgumentException; each
      constructor stands for the message that distinguishes one raise site. */
  datatype Failure =
    | NotIdeTest
    | NoAnswers
    | PrescriptionNotStartable
    | PassationAlreadyActive
    | CannotResume
    | NotInProgress
    | FinishedCannotBeAbandoned
    | AlreadyFinished
    | InvalidAnswer
    | InvalidAnswerFor(itemId: string)
    | PassationNotFinished
    | NotOwner
    | BilanLocked
    | BilanNotValidated
    | PatientNotOwned
    | AgeIncompatible
    | PrescriptionValidated
    | PrescriptionNotValidatable
    | DifferentPatients

  /** A point in time, in seconds. The application reads the wall clock with
      `new \DateTime()`; here every operation receives it as a parameter. */
  type Instant = int

  const SecondsPerHour: int := 3600

  /** A calendar date, as a birth date is stored. */
  datatype Date = Date(year: int, month: int, day: int)

  /** The calendar difference between two dates as `DateTime::diff` reports it:
      whole years, months, days, hours and minutes. The caller supplies it. */
  datatype Interval = Interval(y: nat, m: nat, d: nat, h: nat, i: nat)

  /** What `DateTime::diff` always produces: every field below its carry limit. */
  predicate IsNormalized(iv: Interval) {
    iv.m < 12 && iv.d < 31 && iv.h < 24 && iv.i < 60
  }

  // ---------------------------------------------------------------------------
  // PHP integer arithmetic: `intval($a / $b)` truncates toward zero and `$a % $b`
  // takes the sign of the dividend, unlike Dafny's Euclidean operators.

  /** `intval($a / $b)`: the quotient rounded toward zero. */
  function TDiv(a: int, b: int): (q: int)
    requires b > 0
    ensures a >= 0 ==> q >= 0
    ensures a < 0 ==> q <= 0
  {
    if a >= 0 then a / b else -((-a) / b)
  }

  /** `$a % $b`: the remainder that goes with `TDiv`, with the sign of `a`. */
  function TMod(a: int, b: int): (r: int)
    requires b > 0
    ensures TDiv(a, b) * b + r == a
    ensures a >= 0 ==> 0 <= r < b
    ensures a < 0 ==> -b < r <= 0
  {
    if a >= 0 then a % b else -((-a) % b)
  }

  // ---------------------------------------------------------------------------
  // Decimal rendering, as `%d` and `%02d` in sprintf, with its inverse.

  predicate IsDigit(c: char) { '0' <= c <= '9' }

  function DigitChar(d: nat): (c: char)
    requires d < 10
    ensures IsDigit(c) && (c as int) - ('0' as int) == d
  {
    (('0' as int) + d) as char
  }

  function DigitValue(c: char): nat
    requires IsDigit(c)
  {
    (c as int) - ('0' as int)
  }

  /** A non-empty run of decimal digits. */
  predicate IsNumeral(s: string) {
    |s| >= 1 && forall k :: 0 <= k < |s| ==> IsDigit(s[k])
  }

  /** `%d` of a natural number: its decimal digits, most significant first. */
  function NatToString(n: nat): (s: string)
    ensures |s| >= 1 && IsDigit(s[0])
    ensures n < 10 <==> |s| == 1
    decreases n
  {
    if n < 10 then [DigitChar(n)] else NatToString(n / 10) + [DigitChar(n % 10)]
  }

  /** Reads back a non-empty run of decimal digits. */
  function ParseNat(s: string): nat
    requires IsNumeral(s)
  {
    if |s| == 1 then DigitValue(s[0])
    else ParseNat(s[..|s| - 1]) * 10 + DigitValue(s[|s| - 1])
  }

  lemma {:induction false} ParseNatToString(n: nat)
    ensures IsNumeral(NatToString(n))
    ensures ParseNat(NatToString(n)) == n
    decreases n
  {
    if n >= 10 {
      var s := NatToString(n);
      assert s[..|s| - 1] == NatToString(n / 10);
      ParseNatToString(n / 10);
    }
  }

  /** `%d` of any integer: a minus sign before the digits of a negative one. */
  function IntToString(n: int): (s: string)
    ensures |s| >= 1
    ensures s[0] == '-' <==> n < 0
  {
    if n < 0 then "-" + NatToString(-n) else NatToString(n)
  }

  /** Reads back the rendering of an integer; None when `s` is not one. */
  function ParseInt(s: string): Option<int> {
    if |s| >= 2 && s[0] == '-' && IsNumeral(s[1..]) then
      var magnitude: int := ParseNat(s[1..]);
      Some(-magnitude)
    else if IsNumeral(s) then
      Some(ParseNat(s))
    else
      None
  }

  lemma ParseIntToString(n: int)
    ensures ParseInt(IntToString(n)) == Some(n)
  {
    var t := NatToString(if n < 0 then -n else n);
    ParseNatToString(if n < 0 then -n else n);
    if n < 0 {
      var s := "-" + t;
      assert s == IntToString(n) && s[1..] == t;
    }
  }

  /** `%02d`: at least two characters, left-padded with a zero. */
  function Pad2(n: int): (s: string)
    ensures 0 <= n < 10 ==> s == ['0', DigitChar(n)]
    ensures n >= 10 || n < 0 ==> s == IntToString(n)
  {
    var t := IntToString(n);
    if |t| < 2 then "0" + t else t
  }

  // ---------------------------------------------------------------------------
  // PHP `trim`: strips " \t\n\r\0\x0B" from both ends.

  predicate IsTrimmed(c: char) {
    c == ' ' || c == '\t' || c == '\n' || c == '\r' || c == '\0' || c == '\U{0B}'
  }

  /** Index of the first character that `trim` keeps, or |s|. */
  function TrimStart(s: string): (i: nat)
    ensures i <= |s|
    ensures forall k :: 0 <= k < i ==> IsTrimmed(s[k])
    ensures i < |s| ==> !IsTrimmed(s[i])
  {
    if s == [] || !IsTrimmed(s[0]) then 0 else 1 + TrimStart(s[1..])
  }

  /** One past the last character that `trim` keeps, or 0. */
  function TrimEnd(s: string): (j: nat)
    ensures j <= |s|
    ensures forall k :: j <= k < |s| ==> IsTrimmed(s[k])
    ensures j > 0 ==> !IsTrimmed(s[j - 1])
  {
    if s == [] || !IsTrimmed(s[|s| - 1]) then |s| else TrimEnd(s[..|s| - 1])
  }

  function Trim(s: string): (r: string)
    ensures r == [] || (!IsTrimmed(r[0]) && !IsTrimmed(r[|r| - 1]))
    ensures exists i, j :: 0 <= i <= j <= |s| && r == s[i..j]
                           && (forall k :: 0 <= k < i ==> IsTrimmed(s[k]))
                           && (forall k :: j <= k < |s| ==> IsTrimmed(s[k]))
  {
    var i, j := TrimStart(s), TrimEnd(s);
    if i < j then s[i..j]
    else
      assert forall k :: 0 <= k < |s| ==> IsTrimmed(s[k]);
      assert s[|s|..|s|] == [];
      []
  }

  // ---------------------------------------------------------------------------
  // Collection filtering, as Doctrine's `Collection::filter` and `array_filter`,
  // defined on the last element so that a loop appending left to right follows it.

  function Filter<T>(s: seq<T>, f: T -> bool): (r: seq<T>)
    ensures |r| <= |s|
    ensures forall k :: 0 <= k < |r| ==> r[k] in s && f(r[k])
    ensures forall k :: 0 <= k < |s| && f(s[k]) ==> s[k] in r
  {
    if s == [] then []
    else Filter(s[..|s| - 1], f) + (if f(s[|s| - 1]) then [s[|s| - 1]] else [])
  }

  function Count<T>(s: seq<T>, f: T -> bool): nat {
    if s == [] then 0 else Count(s[..|s| - 1], f) + (if f(s[|s| - 1]) then 1 else 0)
  }

  lemma CountLast<T>(s: seq<T>, f: T -> bool)
    requires s != []
    ensures Count(s, f) == Count(s[..|s| - 1], f) + (if f(s[|s| - 1]) then 1 else 0)
  {
  }

  lemma {:induction false} CountIsFilterLength<T>(s: seq<T>, f: T -> bool)
    ensures Count(s, f) == |Filter(s, f)|
  {
    if s != [] {
      CountIsFilterLength(s[..|s| - 1], f);
    }
  }

  /** Counting is monotone in the predicate. */
  lemma {:induction false} CountMonotone<T>(s: seq<T>, f: T -> bool, g: T -> bool)
    requires forall k :: 0 <= k < |s| && f(s[k]) ==> g(s[k])
    ensures Count(s, f) <= Count(s, g)
  {
    if s != [] {
      CountMonotone(s[..|s| - 1], f, g);
    }
  }

  /** Predicates that agree on every element give the same count. */
  lemma {:induction false} CountCongruent<T>(s: seq<T>, f: T -> bool, g: T -> bool)
    requires forall k :: 0 <= k < |s| ==> (f(s[k]) <==> g(s[k]))
    ensures Count(s, f) == Count(s, g)
  {
    if s != [] {
      CountCongruent(s[..|s| - 1], f, g);
    }
  }

  /** The images of the elements that pass a test, in order, as a loop that skips
      or appends one image per element builds them. */
  function FilterMap<T, U>(s: seq<T>, keep: T -> bool, f: T -> U): (r: seq<U>)
    ensures |r| == Count(s, keep)
  {
    if s == [] then []
    else FilterMap(s[..|s| - 1], keep, f) + (if keep(s[|s| - 1]) then [f(s[|s| - 1])] else [])
  }

  /** Every kept element has its image in the result, and every image in the result
      comes from a kept element. */
  lemma {:induction false} FilterMapExact<T, U>(s: seq<T>, keep: T -> bool, f: T -> U)
    ensures forall j :: 0 <= j < |s| && keep(s[j]) ==> f(s[j]) in FilterMap(s, keep, f)
    ensures forall y :: y in FilterMap(s, keep, f) ==> exists j :: 0 <= j < |s| && keep(s[j]) && y == f(s[j])
  {
    if s != [] {
      var n := |s|;
      var init := s[..n - 1];
      FilterMapExact(init, keep, f);
      var r0, r := FilterMap(init, keep, f), FilterMap(s, keep, f);
      forall j | 0 <= j < n && keep(s[j])
        ensures f(s[j]) in r
      {
        if j < n - 1 {
          assert init[j] == s[j];
        }
      }
      forall y | y in r
        ensures exists j :: 0 <= j < n && keep(s[j]) && y == f(s[j])
      {
        if y in r0 {
          var j :| 0 <= j < n - 1 && keep(init[j]) && y == f(init[j]);
          assert init[j] == s[j];
        }
      }
    }
  }

  /** When every element passes, the result is the image of the whole sequence. */
  lemma {:induction false} FilterMapKeepsAll<T, U>(s: seq<T>, keep: T -> bool, f: T -> U)
    requires forall j :: 0 <= j < |s| ==> keep(s[j])
    ensures FilterMap(s, keep, f) == seq(|s|, k requires 0 <= k < |s| => f(s[k]))
  {
    if s != [] {
      var init := s[..|s| - 1];
      FilterMapKeepsAll(init, keep, f);
    }
  }

  /** Two images of the same filter line up: their k-th elements are the two
      images of one kept element. */
  lemma {:induction false} FilterMapPaired<T, U, V>(s: seq<T>, keep: T -> bool, f: T -> U, g: T -> V)
    ensures |FilterMap(s, keep, f)| == |FilterMap(s, keep, g)|
    ensures forall k :: 0 <= k < |FilterMap(s, keep, f)| ==>
              exists j :: 0 <= j < |s| && keep(s[j]) && FilterMap(s, keep, f)[k] == f(s[j]) && FilterMap(s, keep, g)[k] == g(s[j])
  {
    if s != [] {
      var n := |s|;
      var init := s[..n - 1];
      FilterMapPaired(init, keep, f, g);
      var a0, b0 := FilterMap(init, keep, f), FilterMap(init, keep, g);
      var a, b := FilterMap(s, keep, f), FilterMap(s, keep, g);
      assert a == a0 + (if keep(s[n - 1]) then [f(s[n - 1])] else []);
      assert b == b0 + (if keep(s[n - 1]) then [g(s[n - 1])] else []);
      forall k | 0 <= k < |a|
        ensures exists j :: 0 <= j < n && keep(s[j]) && a[k] == f(s[j]) && b[k] == g(s[j])
      {
        if k < |a0| {
          assert a[k] == a0[k] && b[k] == b0[k];
          var j :| 0 <= j < n - 1 && keep(init[j]) && a0[k] == f(init[j]) && b0[k] == g(init[j]);
          assert init[j] == s[j];
        } else {
          assert a[k] == f(s[n - 1]) && b[k] == g(s[n - 1]);
        }
      }
    }
  }

  lemma FilterMapSnoc<T, U>(s: seq<T>, keep: T -> bool, f: T -> U, k: nat)
    requires k < |s|
    ensures FilterMap(s[..k + 1], keep, f) == FilterMap(s[..k], keep, f) + (if keep(s[k]) then [f(s[k])] else [])
  {
    assert s[..k + 1][..k] == s[..k];
  }

  /** Position of the first occurrence, as PHP's `array_search` with strict
      comparison; None when absent. */
  function IndexOf<T(==)>(s: seq<T>, x: T): (r: Option<nat>)
    ensures r.None? <==> x !in s
    ensures r.Some? ==> r.value < |s| && s[r.value] == x && x !in s[..r.value]
  {
    if s == [] then None
    else if s[0] == x then Some(0)
    else match IndexOf(s[1..], x)
      case None => None
      case Some(k) =>
        assert s[1..][..k] == s[1..k + 1];
        Some(k + 1)
  }

  /** `Collection::removeElement`: drops the first occurrence, if any. */
  function RemoveFirst<T(==)>(s: seq<T>, x: T): (r: seq<T>)
    ensures x !in s ==> r == s
    ensures x in s ==> |r| == |s| - 1 && multiset(r) == multiset(s) - multiset{x}
  {
    match IndexOf(s, x)
    case None => s
    case Some(k) =>
      assert s == s[..k] + [s[k]] + s[k + 1..];
      s[..k] + s[k + 1..]
  }
}
