/** Screening signing keys for repetition and for long runs such as `abcdef` or `987654`. */
module SigningKeys {
  import opened Options
  import opened Basics

  function MinimumRun(): nat { 12 }

  /** `signingKeyCharacterRank`: digits, then letters in either case. */
  function Rank(b: byte): Option<int> {
    if '0' as int <= b as int <= '9' as int then Some(b as int - '0' as int)
    else if 'a' as int <= b as int <= 'z' as int then Some(b as int - 'a' as int + 10)
    else if 'A' as int <= b as int <= 'Z' as int then Some(b as int - 'A' as int + 10)
    else None
  }

  /** Position `i` and the one before it step by `d` in rank. */
  predicate Steps(value: seq<byte>, i: nat, d: int)
    requires 1 <= i < |value|
  {
    Rank(value[i - 1]).Some? && Rank(value[i]).Some? && Rank(value[i]).value - Rank(value[i - 1]).value == d
  }

  /** The `length` characters before position `end` step by `d` throughout. */
  predicate Runs(value: seq<byte>, end: nat, length: nat, d: int) {
    length <= end <= |value| && forall i | end - length < i < end :: Steps(value, i, d)
  }

  /** Some twelve consecutive characters step by one, all upward or all downward. */
  predicate HasRun(value: seq<byte>) {
    exists end | 0 <= end <= |value| :: Runs(value, end, MinimumRun(), 1) || Runs(value, end, MinimumRun(), -1)
  }

  /** Ranks in bytes: 0 to 9 for the digits, 10 to 35 for the letters of either case. */
  lemma RankOfByte(b: byte)
    ensures 48 <= b <= 57 ==> Rank(b) == Some(b as int - 48)
    ensures 65 <= b <= 90 ==> Rank(b) == Some(b as int - 55)
    ensures 97 <= b <= 122 ==> Rank(b) == Some(b as int - 87)
    ensures b < 48 || 57 < b < 65 || 90 < b < 97 || 122 < b ==> Rank(b) == None
  {
  }

  /** Twelve bytes from `start` on, each one rank after the one before, or each one before it. */
  predicate TwelveFrom(value: seq<byte>, start: nat, d: int) {
    && start + 12 <= |value|
    && forall j | start <= j < start + 12 :: Rank(value[j]) == Some(LastRank(value[start]) + d * (j - start))
  }

  function LastRank(b: byte): int {
    if Rank(b).Some? then Rank(b).value else 0
  }

  lemma {:induction false} RunCounts(value: seq<byte>, start: nat, j: nat, d: int)
    requires start <= j < start + 12 <= |value| && Runs(value, start + 12, 12, d)
    ensures Rank(value[j]) == Some(LastRank(value[start]) + d * (j - start))
  {
    assert Steps(value, start + 1, d);
    if j > start {
      assert Steps(value, j, d);
      RunCounts(value, start, j - 1, d);
      assert d * (j - start) == d * (j - 1 - start) + d;
    }
  }

  /** What is looked for, counted from its first byte. */
  lemma RunOfTwelve(value: seq<byte>)
    ensures HasRun(value) <==> exists start: nat :: TwelveFrom(value, start, 1) || TwelveFrom(value, start, -1)
  {
    forall start: nat, d | start + 12 <= |value| && (d == 1 || d == -1)
      ensures TwelveFrom(value, start, d) <==> Runs(value, start + 12, MinimumRun(), d)
    {
      if Runs(value, start + 12, MinimumRun(), d) {
        forall j: nat | start <= j < start + 12 ensures Rank(value[j]) == Some(LastRank(value[start]) + d * (j - start)) {
          RunCounts(value, start, j, d);
        }
      }
      if TwelveFrom(value, start, d) {
        forall i: nat | start < i < start + 12 ensures Steps(value, i, d) {
          assert Rank(value[i - 1]) == Some(LastRank(value[start]) + d * (i - 1 - start));
        }
      }
    }
    if HasRun(value) {
      var end :| 0 <= end <= |value| && (Runs(value, end, MinimumRun(), 1) || Runs(value, end, MinimumRun(), -1));
      assert Runs(value, (end - 12) + 12, MinimumRun(), 1) || Runs(value, (end - 12) + 12, MinimumRun(), -1);
      assert TwelveFrom(value, end - 12, 1) || TwelveFrom(value, end - 12, -1);
    }
    if start: nat :| TwelveFrom(value, start, 1) || TwelveFrom(value, start, -1) {
      assert Runs(value, start + 12, MinimumRun(), 1) || Runs(value, start + 12, MinimumRun(), -1);
    }
  }

  /** What the loop knows after position `i`: the current run, and that it cannot be extended
      backwards nor turned around. */
  predicate Tracked(value: seq<byte>, i: nat, direction: int, runLength: nat)
    requires 1 <= i <= |value|
  {
    && 1 <= runLength <= i && -1 <= direction <= 1
    && (direction == 0 ==> runLength == 1)
    && (direction != 0 ==> runLength >= 2 && Runs(value, i, runLength, direction))
    && (direction != 0 && runLength < i ==> !Steps(value, i - runLength, direction))
    && (direction == 0 && 1 < i ==> !Steps(value, i - 1, 1) && !Steps(value, i - 1, -1))
  }

  /** A run that ends at `i` is the tracked one. */
  lemma TrackedIsLongest(value: seq<byte>, i: nat, direction: int, runLength: nat, d: int)
    requires 1 <= i <= |value| && Tracked(value, i, direction, runLength)
    requires (d == 1 || d == -1) && Runs(value, i, MinimumRun(), d)
    ensures runLength >= MinimumRun()
  {
    assert Steps(value, i - 1, d);
    assert direction != 0 ==> Steps(value, i - 1, direction);
    assert runLength < MinimumRun() ==> Steps(value, i - runLength, d);
  }

  /** `hasLongSequentialSigningKeyRun`; the caller rejects short keys before. */
  method HasLongSequentialRun(value: seq<byte>) returns (found: bool)
    requires |value| > 0
    ensures found <==> HasRun(value)
  {
    var previous := Rank(value[0]);
    var direction, runLength := 0, 1;
    for i := 1 to |value|
      invariant previous == Rank(value[i - 1]) && Tracked(value, i, direction, runLength) && runLength < MinimumRun()
      invariant forall end | 0 <= end <= i :: !Runs(value, end, MinimumRun(), 1) && !Runs(value, end, MinimumRun(), -1)
    {
      var rank := Rank(value[i]);
      if previous.None? || rank.None? {
        previous := rank;
        direction, runLength := 0, 1;
        NoRunEnds(value, i + 1, direction, runLength);
        continue;
      }
      var delta := rank.value - previous.value;
      if delta == 1 || delta == -1 {
        assert Steps(value, i, delta) && !Steps(value, i, -delta);
        if direction == delta {
          runLength := runLength + 1;
        } else {
          assert direction == -delta ==> Steps(value, i - 1, direction);
          direction := delta;
          runLength := 2;
        }
        assert Tracked(value, i + 1, direction, runLength);
        if runLength >= MinimumRun() {
          assert Runs(value, i + 1, MinimumRun(), delta);
          return true;
        }
      } else {
        direction, runLength := 0, 1;
      }
      NoRunEnds(value, i + 1, direction, runLength);
      previous := rank;
    }
    return false;
  }

  lemma NoRunEnds(value: seq<byte>, i: nat, direction: int, runLength: nat)
    requires 1 <= i <= |value| && Tracked(value, i, direction, runLength) && runLength < MinimumRun()
    ensures !Runs(value, i, MinimumRun(), 1) && !Runs(value, i, MinimumRun(), -1)
  {
    if Runs(value, i, MinimumRun(), 1) { TrackedIsLongest(value, i, direction, runLength, 1); }
    if Runs(value, i, MinimumRun(), -1) { TrackedIsLongest(value, i, direction, runLength, -1); }
  }

  // ----- repetition -----

  /** The value repeats with period `p`: every byte equals the one `p` places before. */
  predicate Repeats(value: seq<byte>, p: nat) {
    1 <= p && forall i | p <= i < |value| :: value[i] == value[i - p]
  }

  predicate HasPeriod(value: seq<byte>) {
    exists p | 1 <= p <= 16 && 2 * p <= |value| :: Repeats(value, p)
  }

  /** Comparing with the first period is comparing with the period before. */
  lemma {:induction false} FirstPeriod(value: seq<byte>, p: nat, i: nat)
    requires 1 <= p && i < |value|
    requires forall j | p <= j < i :: value[j] == value[j - p]
    ensures i >= p ==> value[(i - p) % p] == value[i - p] && (i - p) % p == i % p
  {
    if i >= p {
      ModMinus(i, p);
      if i - p >= p { FirstPeriod(value, p, i - p); }
    }
  }

  lemma ModMinus(i: nat, p: nat)
    requires 1 <= p <= i
    ensures (i - p) % p == i % p && (i - p < p ==> (i - p) % p == i - p)
  {
    var q, r := (i - p) / p, (i - p) % p;
    assert i == (q + 1) * p + r;
    DivUnique(i, p, q + 1, r);
    if i - p < p { DivUnique(i - p, p, 0, i - p); }
  }

  lemma DivUnique(i: int, p: int, q: int, r: int)
    requires p > 0 && i == q * p + r && 0 <= r < p
    ensures i % p == r
  {
    var d := i / p - q;
    assert d * p == r - i % p;
    if d >= 1 { Scale(1, d, p); }
    if d <= -1 { Scale(d, -1, p); }
  }

  /** `hasRepeatedSigningKeyPattern`. */
  method HasRepeatedPattern(value: seq<byte>) returns (found: bool)
    ensures found <==> HasPeriod(value)
  {
    var period := 1;
    while period <= 16 && period * 2 <= |value|
      invariant 1 <= period <= 17
      invariant forall p | 1 <= p < period && 2 * p <= |value| :: !Repeats(value, p)
    {
      var repeated := true;
      var i := period;
      while i < |value|
        invariant period <= i <= |value|
        invariant repeated ==> forall j | period <= j < i :: value[j] == value[j - period]
        invariant !repeated ==> !Repeats(value, period)
        decreases |value| - i, repeated
      {
        FirstPeriod(value, period, i);
        if value[i] != value[i % period] {
          repeated := false;
          break;
        }
        i := i + 1;
      }
      if repeated {
        assert Repeats(value, period);
        return true;
      }
      period := period + 1;
    }
    return false;
  }
}
