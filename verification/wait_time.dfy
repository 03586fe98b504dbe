/**
 The wait-time parser. The throttle message is searched for the regular
 expression `Try again in ([0-9]{1,}) seconds`; the leftmost match yields
 its captured number plus a two-second margin, and a message without a
 match yields a fixed fifteen seconds.
 */
module WaitTime {
  import opened Wrappers
  import Decimal

  const TryAgainIn: string := "Try again in "
  const Seconds: string := " seconds"
  /** Added to the server's figure before sleeping. */
  const Margin: nat := 2
  /** Used when the message carries no figure. */
  const Fallback: nat := 15

  /** The pattern matches `msg` starting at offset `i`, capturing the digits `d`. */
  predicate MatchAt(msg: string, i: nat, d: string) {
    && |d| >= 1
    && Decimal.IsDigits(d)
    && i <= |msg|
    && TryAgainIn + d + Seconds <= msg[i..]
  }

  /** No match starts before offset `i`. */
  ghost predicate NoMatchBefore(msg: string, i: nat) {
    forall j: nat, d: string :: j < i ==> !MatchAt(msg, j, d)
  }

  /** The pattern does not occur anywhere in `msg`. */
  ghost predicate NoMatch(msg: string) {
    forall j: nat, d: string :: !MatchAt(msg, j, d)
  }

  /** The match the regular-expression engine reports: the one starting leftmost. */
  ghost predicate LeftmostMatch(msg: string, i: nat, d: string) {
    MatchAt(msg, i, d) && NoMatchBefore(msg, i)
  }

  /** The end of the maximal run of digits starting at `j`. */
  function DigitRunEnd(msg: string, j: nat): (e: nat)
    requires j <= |msg|
    ensures j <= e <= |msg|
    ensures forall k :: j <= k < e ==> Decimal.IsDigit(msg[k])
    ensures e == |msg| || !Decimal.IsDigit(msg[e])
    decreases |msg| - j
  {
    if j < |msg| && Decimal.IsDigit(msg[j]) then DigitRunEnd(msg, j + 1) else j
  }

  /** A run of `k` digits at `j` that is not followed by a digit is the maximal run. */
  lemma {:induction false} DigitRunEndExact(msg: string, j: nat, k: nat)
    requires j + k <= |msg|
    requires forall m :: j <= m < j + k ==> Decimal.IsDigit(msg[m])
    requires j + k == |msg| || !Decimal.IsDigit(msg[j + k])
    ensures DigitRunEnd(msg, j) == j + k
    decreases k
  {
    if k > 0 {
      DigitRunEndExact(msg, j + 1, k - 1);
    }
  }

  /**
   The capture of a match starting at `i`, if there is one. The digit group
   is greedy and must be followed by " seconds", so a match at a given
   offset is unique: it captures the maximal digit run.
   */
  function CaptureAt(msg: string, i: nat): (r: Option<string>)
    requires i <= |msg|
    ensures r.Some? ==> MatchAt(msg, i, r.value)
  {
    var j := i + |TryAgainIn|;
    if j <= |msg| && msg[i..j] == TryAgainIn then
      var e := DigitRunEnd(msg, j);
      if j < e && Seconds <= msg[e..] then
        assert msg[i..] == msg[i..j] + msg[j..e] + msg[e..];
        Some(msg[j..e])
      else
        None
    else
      None
  }

  /** Any match at `i` is the one `CaptureAt` finds. */
  lemma CaptureAtFindsMatch(msg: string, i: nat, d: string)
    requires MatchAt(msg, i, d)
    ensures CaptureAt(msg, i) == Some(d)
  {
    var p := TryAgainIn + d + Seconds;
    var j := i + |TryAgainIn|;
    var tail := msg[i..];
    assert p <= tail;
    assert msg[i..j] == TryAgainIn by {
      assert msg[i..j] == tail[..|TryAgainIn|] == p[..|TryAgainIn|];
    }
    forall m | j <= m < j + |d|
      ensures Decimal.IsDigit(msg[m])
    {
      assert msg[m] == tail[m - i] == p[m - i] == d[m - j];
    }
    assert msg[j + |d|] == ' ' by {
      assert msg[j + |d|] == tail[|TryAgainIn| + |d|] == p[|TryAgainIn| + |d|];
    }
    DigitRunEndExact(msg, j, |d|);
    var e := j + |d|;
    assert Seconds <= msg[e..] by {
      forall m | 0 <= m < |Seconds|
        ensures msg[e..][m] == Seconds[m]
      {
        assert msg[e..][m] == tail[|TryAgainIn| + |d| + m] == p[|TryAgainIn| + |d| + m];
      }
    }
    assert msg[j..e] == d by {
      forall m | 0 <= m < |d|
        ensures msg[j..e][m] == d[m]
      {
        assert msg[j..e][m] == tail[|TryAgainIn| + m] == p[|TryAgainIn| + m];
      }
    }
  }

  /** When `CaptureAt` finds nothing, no match starts at `i`. */
  lemma CaptureAtComplete(msg: string, i: nat)
    requires i <= |msg|
    ensures CaptureAt(msg, i).None? ==> forall d :: !MatchAt(msg, i, d)
  {
    forall d | MatchAt(msg, i, d)
      ensures CaptureAt(msg, i).Some?
    {
      CaptureAtFindsMatch(msg, i, d);
    }
  }

  /** The leftmost match at or after offset `from`, scanning left to right. */
  function FindMatch(msg: string, from: nat): (r: Option<(nat, string)>)
    ensures r.Some? ==> from <= r.value.0 && MatchAt(msg, r.value.0, r.value.1)
    ensures r.Some? ==> forall j: nat, d: string :: from <= j < r.value.0 ==> !MatchAt(msg, j, d)
    ensures r.None? ==> forall j: nat, d: string :: from <= j ==> !MatchAt(msg, j, d)
    decreases |msg| - from
  {
    if from > |msg| then
      None
    else
      CaptureAtComplete(msg, from);
      match CaptureAt(msg, from)
      case Some(d) => Some((from, d))
      case None => FindMatch(msg, from + 1)
  }

  /** `getWaitTime`: the seconds to sleep before resending a throttled request. */
  function WaitTime(msg: string): (w: nat)
    ensures w >= Margin
  {
    match FindMatch(msg, 0)
    case Some((_, d)) => Decimal.Value(d) + Margin
    case None => Fallback
  }

  /** The wait is the leftmost match's number plus the margin. */
  lemma WaitTimeOfLeftmostMatch(msg: string, i: nat, d: string)
    requires LeftmostMatch(msg, i, d)
    ensures WaitTime(msg) == Decimal.Value(d) + Margin
  {
    var r := FindMatch(msg, 0);
    assert r.Some?;
    var (i', d') := r.value;
    assert i' == i;
    CaptureAtFindsMatch(msg, i, d);
    CaptureAtFindsMatch(msg, i, d');
  }

  /** A message without the pattern waits the fallback. */
  lemma WaitTimeWithoutMatch(msg: string)
    requires NoMatch(msg)
    ensures WaitTime(msg) == Fallback
  {
  }

  /**
   Every computed wait is explained: either the message has no match and
   the wait is the fallback, or a leftmost match exists and the wait is its
   number plus the margin.
   */
  lemma WaitTimeExplained(msg: string)
    ensures NoMatch(msg) ==> WaitTime(msg) == Fallback
    ensures !NoMatch(msg) ==>
      exists i: nat, d: string :: LeftmostMatch(msg, i, d) && WaitTime(msg) == Decimal.Value(d) + Margin
  {
    var r := FindMatch(msg, 0);
    if r.Some? {
      assert LeftmostMatch(msg, r.value.0, r.value.1);
    }
  }

  /** The pattern needs an upper-case T, so a message without one never matches. */
  lemma NoMatchWithoutUpperT(msg: string)
    requires 'T' !in msg
    ensures NoMatch(msg)
  {
    forall j: nat, d: string
      ensures !MatchAt(msg, j, d)
    {
      if j < |msg| {
        assert msg[j..][0] == msg[j];
      }
    }
  }

  /** A message that opens with the pattern for a rendered number `n` waits `n` plus the margin. */
  lemma WaitTimeOfRenderedNumber(n: nat, rest: string)
    ensures WaitTime(TryAgainIn + Decimal.FromNat(n) + Seconds + rest) == n + Margin
  {
    var d := Decimal.FromNat(n);
    var msg := TryAgainIn + d + Seconds + rest;
    assert msg[0..] == msg;
    assert MatchAt(msg, 0, d);
    WaitTimeOfLeftmostMatch(msg, 0, d);
    Decimal.ValueOfFromNat(n);
  }

  /** A match can only start at an upper-case T. */
  lemma NoMatchAtWithoutUpperT(msg: string, j: nat, d: string)
    requires j >= |msg| || msg[j] != 'T'
    ensures !MatchAt(msg, j, d)
  {
    if j < |msg| {
      assert msg[j..][0] == msg[j];
    }
  }

  /** The wait for "Try again in 7 seconds" is nine seconds. */
  lemma ExampleSevenSeconds()
    ensures WaitTime("Try again in 7 seconds") == 9
  {
    assert Decimal.FromNat(7) == "7";
    assert TryAgainIn + "7" + Seconds + "" == "Try again in 7 seconds";
    WaitTimeOfRenderedNumber(7, "");
  }

  /** Leading zeros are read as part of the number: "007" waits nine seconds. */
  lemma ExampleLeadingZeros()
    ensures WaitTime("Try again in 007 seconds") == 9
  {
    var msg := "Try again in 007 seconds";
    assert msg[0..] == TryAgainIn + "007" + Seconds;
    assert MatchAt(msg, 0, "007");
    assert Decimal.Value("007") == 7 by {
      Decimal.ValueIgnoresLeadingZero("7");
      Decimal.ValueIgnoresLeadingZero("07");
      assert "0" + "7" == "07" && "0" + "07" == "007";
    }
    WaitTimeOfLeftmostMatch(msg, 0, "007");
  }

  /** Without digits between the words there is no match, so the fallback applies. */
  lemma ExampleNoNumber()
    ensures WaitTime("Try again in a few seconds") == Fallback
  {
    var msg := "Try again in a few seconds";
    forall j: nat, d: string
      ensures !MatchAt(msg, j, d)
    {
      if j == 0 {
        assert DigitRunEnd(msg, 13) == 13;
        CaptureAtComplete(msg, 0);
      } else {
        assert forall k :: 0 < k < |msg| ==> msg[k] != 'T';
        NoMatchAtWithoutUpperT(msg, j, d);
      }
    }
    WaitTimeWithoutMatch(msg);
  }

  /** "Try again in 3 minutes. " stops short of the pattern at every offset. */
  lemma NoMatchInMinutesPrefix(msg: string)
    requires |msg| >= 24 && msg[..24] == "Try again in 3 minutes. "
    ensures NoMatchBefore(msg, 24)
  {
    var head := msg[..24];
    forall j: nat, d: string | j < 24
      ensures !MatchAt(msg, j, d)
    {
      if j == 0 {
        assert msg[13] == head[13] == '3';
        assert msg[14] == head[14] == ' ';
        DigitRunEndExact(msg, 13, 1);
        assert msg[15] == head[15] == 'm';
        assert !(Seconds <= msg[14..]);
        CaptureAtComplete(msg, 0);
      } else {
        assert msg[j] == head[j];
        assert forall k :: 0 < k < 24 ==> head[k] != 'T';
        NoMatchAtWithoutUpperT(msg, j, d);
      }
    }
  }

  /** An earlier "Try again in" that does not complete the pattern is skipped. */
  lemma ExampleLaterOccurrence()
    ensures WaitTime("Try again in 3 minutes. Try again in 12 seconds") == 14
  {
    var first := "Try again in 3 minutes. ";
    var second := TryAgainIn + "12" + Seconds;
    var msg := first + second;
    assert msg == "Try again in 3 minutes. Try again in 12 seconds";
    assert msg[..24] == first;
    NoMatchInMinutesPrefix(msg);
    assert msg[24..] == second;
    assert MatchAt(msg, 24, "12");
    WaitTimeOfLeftmostMatch(msg, 24, "12");
    assert Decimal.Value("12") == 12 by {
      assert "12"[..1] == "1";
    }
  }
}
