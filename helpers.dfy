/** The overs helpers: cricket overs notation "N.B" means N complete overs
    and B further balls, six balls to the over. */
module Helpers {
  import opened Wrappers
  import opened Text

  /** `parseOvers(oversString)`: `None` stands for null or undefined, which,
      like the empty string, give 0. Only the text before the first '.' and
      between the first and second '.' is read; an unparseable part counts
      as 0. */
  function ParseOvers(oversString: Option<string>): (r: real)
    ensures oversString.None? || oversString.value == [] ==> r == 0.0
  {
    if oversString.None? || oversString.value == [] then 0.0
    else
      var parts := Split(oversString.value, '.');
      var fullOvers := ParseIntOrZero(parts[0]);
      var balls := if |parts| > 1 then ParseIntOrZero(parts[1]) else 0;
      fullOvers as real + balls as real / 6.0
  }

  /** `calculateRunRate(runs, overs)`: 0 when `overs` is falsy (0, or `None`
      for null, undefined and NaN), otherwise the exact quotient. */
  function CalculateRunRate(runs: real, overs: Option<real>): (r: real)
    ensures overs.None? || overs.value == 0.0 ==> r == 0.0
    ensures overs.Some? && overs.value != 0.0 ==> r * overs.value == runs
  {
    if overs.None? || overs.value == 0.0 then 0.0 else runs / overs.value
  }

  /** A whole number of overs "N" reads as N. */
  lemma {:induction false} ParseOversWhole(n: nat)
    ensures ParseOvers(Some(NatToString(n))) == n as real
  {
    NatToStringNoSeparator(n, '.');
    SplitNone(NatToString(n), '.');
    ParseIntOfNatAlone(n);
  }

  /** "N.B" reads as N + B/6, so six times the result is the ball count. */
  lemma {:induction false} ParseOversOfNotation(n: nat, b: nat)
    ensures ParseOvers(Some(NatToString(n) + "." + NatToString(b))) == n as real + b as real / 6.0
    ensures 6.0 * ParseOvers(Some(NatToString(n) + "." + NatToString(b))) == (6 * n + b) as real
  {
    var s := NatToString(n) + "." + NatToString(b);
    NatToStringNoSeparator(n, '.');
    NatToStringNoSeparator(b, '.');
    SplitAt(NatToString(n), '.', NatToString(b));
    SplitNone(NatToString(b), '.');
    ParseIntOfNatAlone(n);
    ParseIntOfNatAlone(b);
    assert s != [];
  }

  /** An unparseable whole part counts as 0 overs. */
  lemma {:induction false} ParseOversUnparseableWhole(w: string, b: nat)
    requires '.' !in w && ParseInt(w).None?
    ensures ParseOvers(Some(w + "." + NatToString(b))) == b as real / 6.0
  {
    NatToStringNoSeparator(b, '.');
    SplitAt(w, '.', NatToString(b));
    SplitNone(NatToString(b), '.');
    ParseIntOfNatAlone(b);
    assert w + "." + NatToString(b) != [];
  }

  /** An unparseable ball part counts as 0 balls. */
  lemma {:induction false} ParseOversUnparseableBalls(n: nat, x: string)
    requires '.' !in x && ParseInt(x).None?
    ensures ParseOvers(Some(NatToString(n) + "." + x)) == n as real
  {
    NatToStringNoSeparator(n, '.');
    SplitAt(NatToString(n), '.', x);
    SplitNone(x, '.');
    ParseIntOfNatAlone(n);
    assert NatToString(n) + "." + x != [];
  }

  /** The ball part is not range-checked: "34.7" reads past 35 overs. */
  lemma {:induction false} ParseOversBallsUnchecked()
    ensures ParseOvers(Some("34.7")) == 34.0 + 7.0 / 6.0
    ensures ParseOvers(Some("34.7")) > 35.0
  {
    assert NatToString(34) == "34";
    assert NatToString(7) == "7";
    ParseOversOfNotation(34, 7);
    assert NatToString(34) + "." + NatToString(7) == "34.7";
  }

  /** Over `balls` balls, that is `balls / 6` overs (the value that
      `ParseOversOfNotation` gives for "N.B" with 6N + B = balls), the run
      rate is runs per six balls. */
  lemma {:induction false} RunRateOverBalls(runs: real, balls: real)
    requires balls > 0.0
    ensures CalculateRunRate(runs, Some(balls / 6.0)) == 6.0 * runs / balls
  {
    var r := CalculateRunRate(runs, Some(balls / 6.0));
    assert r * (balls / 6.0) == runs;
    assert r * balls == 6.0 * runs;
  }
}
