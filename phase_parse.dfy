/**
  The Monitor page's phase text (src/pages/Monitor.tsx:51-63): the label
  `Phase ${n}` for a numeric phase, and the regular expression `/Phase (\d+)/`
  with parseInt for a textual one.
 */
module PhaseParse {
  import opened Common

  /** The literal part of the pattern. */
  const PREFIX := "Phase "

  /** `\d`: an ASCII digit. */
  predicate IsDigit(c: char) {
    '0' <= c <= '9'
  }

  /** The value of one digit. */
  function DigitValue(c: char): nat
    requires IsDigit(c)
  {
    (c as int - '0' as int) as nat
  }

  /** All characters are digits. */
  predicate AllDigits(s: string) {
    forall i :: 0 <= i < |s| ==> IsDigit(s[i])
  }

  /** The length of the run of digits that starts at index i: what the greedy `\d+` takes. */
  function DigitRun(s: string, i: nat): (r: nat)
    requires i <= |s|
    ensures i + r <= |s|
    ensures forall k :: i <= k < i + r ==> IsDigit(s[k])
    ensures i + r == |s| || !IsDigit(s[i + r])
    decreases |s| - i
  {
    if i < |s| && IsDigit(s[i]) then 1 + DigitRun(s, i + 1) else 0
  }

  /** The pattern matches starting at index i: the prefix followed by at least one digit. */
  predicate MatchAt(s: string, i: int) {
    0 <= i && i + |PREFIX| < |s| && s[i..i + |PREFIX|] == PREFIX && IsDigit(s[i + |PREFIX|])
  }

  /** The leftmost index from `from` on at which the pattern matches. */
  function FirstMatch(s: string, from: nat): (r: Option<nat>)
    ensures r.Some? ==> from <= r.value && MatchAt(s, r.value)
    ensures r.Some? ==> forall j :: from <= j < r.value ==> !MatchAt(s, j)
    ensures r.None? ==> forall j :: from <= j ==> !MatchAt(s, j)
    decreases |s| - from
  {
    if from + |PREFIX| >= |s| then None
    else if MatchAt(s, from) then Some(from)
    else FirstMatch(s, from + 1)
  }

  /** parseInt on a run of decimal digits, most significant first. */
  function DecimalValue(ds: string): nat
    requires AllDigits(ds)
  {
    if ds == [] then 0 else 10 * DecimalValue(ds[..|ds| - 1]) + DigitValue(ds[|ds| - 1])
  }

  /**
    `phase.match(/Phase (\d+)/)` followed by `parseInt(phaseMatch[1])`: the
    value of the digits after the leftmost "Phase ", or None without a match.
   */
  function PhaseNumber(s: string): (r: Option<nat>)
    ensures r.None? <==> forall j :: !MatchAt(s, j)
  {
    match FirstMatch(s, 0)
    case None => None
    case Some(j) =>
      var start := j + |PREFIX|;
      Some(DecimalValue(s[start..start + DigitRun(s, start)]))
  }

  /** The decimal digits of n, without leading zeros. */
  function NatToString(n: nat): (r: string)
    ensures |r| > 0 && AllDigits(r)
    decreases n
  {
    var last := ['0' + (n % 10) as char];
    if n < 10 then last else NatToString(n / 10) + last
  }

  /** `${n}` for an integer n. */
  function IntToString(n: int): (r: string)
    ensures |r| > 0
  {
    if n < 0 then "-" + NatToString(-n) else NatToString(n)
  }

  /** The text `Phase ${n}` the page shows for a numeric phase. */
  function PhaseLabel(n: int): string {
    PREFIX + IntToString(n)
  }

  /** Decimal digits read back as the number they were written from. */
  lemma {:induction false} NatToStringValue(n: nat)
    ensures DecimalValue(NatToString(n)) == n
    decreases n
  {
    var r := NatToString(n);
    if n >= 10 {
      NatToStringValue(n / 10);
      assert r[..|r| - 1] == NatToString(n / 10);
    }
  }

  /** The digit run over a block of digits stops where the block does. */
  lemma {:induction false} DigitRunBlock(s: string, i: nat, end: nat)
    requires i <= end <= |s| && forall k :: i <= k < end ==> IsDigit(s[k])
    requires end == |s| || !IsDigit(s[end])
    ensures DigitRun(s, i) == end - i
    decreases end - i
  {
    if i < end {
      DigitRunBlock(s, i + 1, end);
    }
  }

  /**
    The label of a phase number, followed by any text that does not go on
    with a digit, reads back as that number.
   */
  lemma PhaseLabelRoundTrip(n: int, rest: string)
    requires n >= 0
    requires rest == [] || !IsDigit(rest[0])
    ensures PhaseNumber(PhaseLabel(n) + rest) == Some(n)
  {
    var s := PhaseLabel(n) + rest;
    var digits := NatToString(n);
    var end := |PREFIX| + |digits|;
    assert s == PREFIX + digits + rest;
    assert s[0..|PREFIX|] == PREFIX;
    assert MatchAt(s, 0);
    assert forall k :: |PREFIX| <= k < end ==> s[k] == digits[k - |PREFIX|];
    assert end < |s| ==> s[end] == rest[0];
    DigitRunBlock(s, |PREFIX|, end);
    assert s[|PREFIX|..end] == digits;
    NatToStringValue(n);
  }

  /** The label of a negative number does not match: its only "Phase " is followed by the minus sign. */
  lemma NegativeLabelUnread(n: int)
    requires n < 0
    ensures PhaseNumber(PhaseLabel(n)) == None
  {
    var t := PhaseLabel(n);
    var digits := NatToString(-n);
    assert t == PREFIX + "-" + digits;
    assert t[|PREFIX|] == '-';
    assert forall k :: 0 < k < |t| ==> t[k] != 'P' by {
      forall k | 0 < k < |t|
        ensures t[k] != 'P'
      {
        if k > |PREFIX| {
          assert t[k] == digits[k - |PREFIX| - 1];
        }
      }
    }
    forall j
      ensures !MatchAt(t, j)
    {
      if 0 <= j && j + |PREFIX| < |t| && t[j..j + |PREFIX|] == PREFIX {
        assert t[j..j + |PREFIX|][0] == t[j];
        assert j == 0;
      }
    }
  }
}
