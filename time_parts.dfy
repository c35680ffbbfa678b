/** Breaking a non-negative millisecond distance into days, hours, minutes
    and seconds, as both the tournament countdown and the session timers
    do with `Math.floor` and `%` on a non-negative value (where JavaScript's
    truncating operators agree with Dafny's Euclidean ones). */
module TimeParts {
  import opened JsValues

  const MsPerSecond := 1000
  const MsPerMinute := 60 * MsPerSecond
  const MsPerHour := 60 * MsPerMinute
  const MsPerDay := 24 * MsPerHour

  datatype Parts = Parts(days: nat, hours: nat, minutes: nat, seconds: nat)

  function Decompose(ms: nat): (p: Parts)
    ensures p.hours < 24 && p.minutes < 60 && p.seconds < 60
  {
    Parts(ms / MsPerDay, (ms % MsPerDay) / MsPerHour,
          (ms % MsPerHour) / MsPerMinute, (ms % MsPerMinute) / MsPerSecond)
  }

  /** The whole milliseconds of the parts add up to the distance, short of
      less than one second. */
  function PartsMs(p: Parts): nat {
    p.days * MsPerDay + p.hours * MsPerHour + p.minutes * MsPerMinute + p.seconds * MsPerSecond
  }

  lemma DivModStep(x: nat, big: nat, small: nat)
    requires small > 0 && big > 0 && big % small == 0
    ensures x % big == ((x % big) / small) * small + x % small
  {
    var k := big / small;
    assert big == k * small;
    var q, r := x / big, x % big;
    MulAssoc(q, k, small);
    assert x == (q * k) * small + r;
    LemmaModMultiple(q * k, small, r);
  }

  lemma MulAssoc(a: int, b: int, c: int)
    ensures a * (b * c) == (a * b) * c
  {
  }

  lemma LemmaModMultiple(m: nat, small: nat, r: nat)
    requires small > 0
    ensures (m * small + r) % small == r % small
  {
    var x := m * small + r;
    assert x == (m + r / small) * small + r % small;
    ModUnique(x, small, m + r / small, r % small);
  }

  /** Euclidean division has a unique quotient and remainder. */
  lemma ModUnique(x: int, d: int, q: int, rr: int)
    requires d > 0 && 0 <= rr < d && x == q * d + rr
    ensures x % d == rr
  {
    var q', r' := x / d, x % d;
    assert x == q' * d + r';
    var k := q - q';
    Distribute(q, q', d);
    assert k * d == r' - rr;
    if k > 0 {
      AtLeastOneMultiple(k, d);
    } else if k < 0 {
      Distribute(q', q, d);
      AtLeastOneMultiple(-k, d);
    }
  }

  lemma Distribute(a: int, b: int, d: int)
    ensures (a - b) * d == a * d - b * d
  {
  }

  lemma AtLeastOneMultiple(k: int, d: int)
    requires k >= 1 && d > 0
    ensures k * d >= d
  {
  }

  lemma RecomposeDecompose(ms: nat)
    ensures PartsMs(Decompose(ms)) <= ms < PartsMs(Decompose(ms)) + MsPerSecond
  {
    DivModStep(ms, MsPerDay, MsPerHour);
    DivModStep(ms, MsPerHour, MsPerMinute);
    DivModStep(ms, MsPerMinute, MsPerSecond);
  }

  /** The `MM:SS` text the session timers show for a remaining time. */
  function ClockText(remainingMs: nat): (r: string)
    ensures |r| == 5 && r[2] == ':'
  {
    var p := Decompose(remainingMs);
    PadTwo(p.minutes) + ":" + PadTwo(p.seconds)
  }

  /** The `MM:SS` text reads back as the minutes and seconds remaining
      within the current hour. */
  lemma ClockTextReadsBack(remainingMs: nat)
    ensures DecimalValue(ClockText(remainingMs)[..2]) == (remainingMs % MsPerHour) / MsPerMinute
    ensures DecimalValue(ClockText(remainingMs)[3..]) == (remainingMs % MsPerMinute) / MsPerSecond
  {
    var p := Decompose(remainingMs);
    var t := ClockText(remainingMs);
    assert t[..2] == PadTwo(p.minutes);
    assert t[3..] == PadTwo(p.seconds);
    PadTwoRoundTrip(p.minutes);
    PadTwoRoundTrip(p.seconds);
  }
}
