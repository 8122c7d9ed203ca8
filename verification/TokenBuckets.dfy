/** The rate limiter in front of the homeserver. Times are in seconds. */
module TokenBuckets {

  datatype Bucket = Bucket(rate: real, burst: real, tokens: real, last: real)

  predicate InRange(b: Bucket) {
    b.rate >= 0.0 && 0.0 <= b.tokens <= b.burst
  }

  function RMin(x: real, y: real): real {
    if x < y then x else y
  }

  /** The tokens that accrue in a while. */
  function Gain(seconds: real, rate: real): real {
    seconds * rate
  }

  function Refill(b: Bucket, now: real): Bucket {
    var elapsed := now - b.last;
    if elapsed > 0.0 then
      b.(tokens := RMin(b.burst, b.tokens + Gain(elapsed, b.rate)), last := now)
    else b
  }

  function Allow(b: Bucket, now: real): (bool, Bucket) {
    var b' := Refill(b, now);
    if b'.tokens >= 1.0 then (true, b'.(tokens := b'.tokens - 1.0)) else (false, b')
  }

  class TokenBucket {
    const rate: real
    const burst: real
    var tokens: real
    var last: real

    function State(): Bucket
      reads this
    {
      Bucket(rate, burst, tokens, last)
    }

    constructor (ratePerSecond: real, burst: int, now: real)
      ensures State() == Bucket(ratePerSecond, burst as real, burst as real, now)
    {
      rate, this.burst, tokens, last := ratePerSecond, burst as real, burst as real, now;
    }

    method TryAllow(now: real) returns (ok: bool)
      modifies this
      ensures (ok, State()) == Allow(old(State()), now)
    {
      var elapsed := now - last;
      if elapsed > 0.0 {
        tokens := RMin(burst, tokens + Gain(elapsed, rate));
        last := now;
      }
      assert State() == Refill(old(State()), now);
      if tokens >= 1.0 {
        tokens := tokens - 1.0;
        return true;
      }
      return false;
    }
  }

  function Grants(b: Bucket, times: seq<real>): seq<bool>
    decreases |times|
  {
    if times == [] then [] else [Allow(b, times[0]).0] + Grants(Allow(b, times[0]).1, times[1..])
  }

  function After(b: Bucket, times: seq<real>): Bucket
    decreases |times|
  {
    if times == [] then b else After(Allow(b, times[0]).1, times[1..])
  }

  function Count(oks: seq<bool>): nat {
    if oks == [] then 0 else (if oks[0] then 1 else 0) + Count(oks[1..])
  }

  predicate NonDecreasing(times: seq<real>) {
    forall i, j :: 0 <= i < j < |times| ==> times[i] <= times[j]
  }

  /** Tokens stay within 0..burst. */
  lemma {:induction false} StaysInRange(b: Bucket, times: seq<real>)
    requires InRange(b)
    ensures InRange(After(b, times)) && After(b, times).burst == b.burst && After(b, times).rate == b.rate
    decreases |times|
  {
    if times != [] {
      AllowInRange(b, times[0]);
      StaysInRange(Allow(b, times[0]).1, times[1..]);
    }
  }

  lemma GainNonNegative(seconds: real, rate: real)
    requires seconds >= 0.0 && rate >= 0.0
    ensures Gain(seconds, rate) >= 0.0
  {
  }

  lemma GainSplits(start: real, mid: real, end: real, rate: real)
    ensures Gain(end - start, rate) == Gain(mid - start, rate) + Gain(end - mid, rate)
  {
  }

  lemma AllowInRange(b: Bucket, now: real)
    requires InRange(b)
    ensures var (ok, b') := Allow(b, now);
            && InRange(b') && b'.burst == b.burst && b'.rate == b.rate
            && b'.last == (if now > b.last then now else b.last)
            && b'.tokens + (if ok then 1.0 else 0.0) <= b.tokens + Gain(b'.last - b.last, b.rate)
  {
    if now > b.last {
      GainNonNegative(now - b.last, b.rate);
    } else {
      assert Gain(0.0, b.rate) == 0.0;
    }
  }

  /** What was granted was paid for by the tokens at the start and the refill since. */
  lemma {:induction false} GrantsArePaid(b: Bucket, times: seq<real>, end: real)
    requires InRange(b) && NonDecreasing(times) && b.last <= end
    requires forall i :: 0 <= i < |times| ==> b.last <= times[i] <= end
    ensures Count(Grants(b, times)) as real <= b.tokens + Gain(end - b.last, b.rate)
    decreases |times|
  {
    if times == [] {
      GainNonNegative(end - b.last, b.rate);
    } else {
      var (ok, b') := Allow(b, times[0]);
      AllowInRange(b, times[0]);
      GrantsArePaid(b', times[1..], end);
      GainSplits(b.last, times[0], end, b.rate);
      assert Grants(b, times)[1..] == Grants(b', times[1..]);
    }
  }

  lemma {:induction false} GrantsSplit(b: Bucket, times: seq<real>, i: nat)
    requires i <= |times|
    ensures |Grants(b, times)| == |times|
    ensures Grants(b, times)[i..] == Grants(After(b, times[..i]), times[i..])
    decreases |times|
  {
    if times == [] {
    } else if i == 0 {
      assert times[..0] == [] && times[0..] == times;
      GrantsSplit(Allow(b, times[0]).1, times[1..], 0);
    } else {
      var b' := Allow(b, times[0]).1;
      GrantsSplit(b', times[1..], i - 1);
      assert times[..i][1..] == times[1..][..i - 1] && times[1..][i - 1..] == times[i..];
      assert Grants(b, times)[i..] == Grants(b', times[1..])[i - 1..];
    }
  }

  lemma {:induction false} GrantsPrefix(b: Bucket, times: seq<real>, n: nat)
    requires n <= |times|
    ensures |Grants(b, times)| == |times| && Grants(b, times)[..n] == Grants(b, times[..n])
    decreases |times|
  {
    if times != [] {
      var b' := Allow(b, times[0]).1;
      GrantsPrefix(b', times[1..], if n == 0 then 0 else n - 1);
      if n > 0 {
        assert times[..n][1..] == times[1..][..n - 1];
      }
    }
  }

  lemma {:induction false} AfterLast(b: Bucket, times: seq<real>, bound: real)
    requires b.last <= bound && forall i :: 0 <= i < |times| ==> times[i] <= bound
    ensures After(b, times).last <= bound
    decreases |times|
  {
    if times != [] {
      AfterLast(Allow(b, times[0]).1, times[1..], bound);
    }
  }

  lemma FullRefill(b: Bucket, times: seq<real>)
    requires InRange(b) && times != [] && b.last <= times[0]
    ensures var full := Refill(b, times[0]);
            InRange(full) && full.burst == b.burst && full.rate == b.rate && full.last == times[0]
            && Grants(full, times) == Grants(b, times)
  {
    if times[0] > b.last {
      GainNonNegative(times[0] - b.last, b.rate);
    }
  }

  lemma LaterWindowPaid(b: Bucket, earlier: seq<real>, window: seq<real>, granted: seq<bool>)
    requires InRange(b) && NonDecreasing(window) && window != [] && b.last <= window[0]
    requires forall k :: 0 <= k < |earlier| ==> earlier[k] <= window[0]
    requires granted == Grants(After(b, earlier), window)
    ensures Count(granted) as real <= b.burst + Gain(window[|window| - 1] - window[0], b.rate)
  {
    StaysInRange(b, earlier);
    AfterLast(b, earlier, window[0]);
    WindowPaid(After(b, earlier), window);
  }

  lemma WindowShape(times: seq<real>, i: nat, j: nat)
    requires NonDecreasing(times) && i < j <= |times|
    ensures var window := times[i..j];
            window != [] && NonDecreasing(window) && window[0] == times[i] && window[|window| - 1] == times[j - 1]
    ensures forall k :: 0 <= k < |times[..i]| ==> times[..i][k] <= times[i]
    ensures times[0] <= times[i]
  {
  }

  /** A request is granted once the bucket had time for a token, if it holds one at all. */
  lemma GrantedAfterWait(b: Bucket, now: real)
    requires InRange(b) && now >= b.last
    ensures Allow(b, now).0 <==> b.burst >= 1.0 && b.tokens + (now - b.last) * b.rate >= 1.0
  {
    GainNonNegative(now - b.last, b.rate);
    if now == b.last {
      assert (now - b.last) * b.rate == 0.0 * b.rate == 0.0;
    } else {
      assert Refill(b, now).tokens == RMin(b.burst, b.tokens + (now - b.last) * b.rate);
    }
  }

  lemma {:induction false} BurstNow(b: Bucket, times: seq<real>, now: real)
    requires InRange(b) && b.last <= now && Refill(b, now).tokens >= |times| as real
    requires forall i :: 0 <= i < |times| ==> times[i] == now
    ensures forall i :: 0 <= i < |Grants(b, times)| ==> Grants(b, times)[i]
    decreases |times|
  {
    if times != [] {
      var b' := Allow(b, now).1;
      AllowInRange(b, now);
      BurstNow(b', times[1..], now);
      assert Grants(b, times) == [true] + Grants(b', times[1..]);
    }
  }

  /** After a pause long enough to fill up, a whole burst of requests is granted at once. */
  lemma BurstAfterPause(b: Bucket, times: seq<real>, now: real)
    requires InRange(b) && now >= b.last && b.tokens + (now - b.last) * b.rate >= |times| as real && |times| as real <= b.burst
    requires forall i :: 0 <= i < |times| ==> times[i] == now
    ensures forall i :: 0 <= i < |Grants(b, times)| ==> Grants(b, times)[i]
  {
    GainNonNegative(now - b.last, b.rate);
    if now == b.last {
      assert (now - b.last) * b.rate == 0.0 * b.rate == 0.0;
    } else {
      assert Refill(b, now).tokens == RMin(b.burst, b.tokens + (now - b.last) * b.rate);
    }
    BurstNow(b, times, now);
  }

  /** In any window of calls on a non-decreasing clock, at most burst + rate * window length are allowed. */
  lemma WindowBound(b: Bucket, times: seq<real>, i: nat, j: nat)
    requires InRange(b) && NonDecreasing(times) && i < j <= |times| && b.last <= times[0]
    ensures |Grants(b, times)| == |times|
    ensures Count(Grants(b, times)[i..j]) as real <= b.burst + Gain(times[j - 1] - times[i], b.rate)
  {
    GrantsOfWindow(b, times, i, j);
    WindowShape(times, i, j);
    LaterWindowPaid(b, times[..i], times[i..j], Grants(b, times)[i..j]);
  }

  /** What is granted in a window is what the bucket at its start grants. */
  lemma GrantsOfWindow(b: Bucket, times: seq<real>, i: nat, j: nat)
    requires i <= j <= |times|
    ensures |Grants(b, times)| == |times|
    ensures Grants(b, times)[i..j] == Grants(After(b, times[..i]), times[i..j])
  {
    GrantsPrefix(b, times, j);
    GrantsSplit(b, times[..j], i);
    assert times[..j][..i] == times[..i] && times[..j][i..] == times[i..j];
    assert Grants(b, times)[i..j] == Grants(b, times)[..j][i..];
  }

  lemma WindowPaid(b: Bucket, window: seq<real>)
    requires InRange(b) && NonDecreasing(window) && window != [] && b.last <= window[0]
    ensures Count(Grants(b, window)) as real <= b.burst + Gain(window[|window| - 1] - window[0], b.rate)
  {
    FullRefill(b, window);
    GrantsArePaid(Refill(b, window[0]), window, window[|window| - 1]);
  }
}
