/** The token bucket that bounds the scans webhooks may queue; rounding is not modelled. */
module WebhookBucket {
  const BURST: nat := 30
  const SECOND := 1_000_000_000
  const REFILL := 20 * SECOND

  datatype Bucket = Bucket(tokens: real, last: int)

  function MinReal(a: real, b: real): real {
    if a <= b then a else b
  }

  /** The tokens that `elapsed` nanoseconds are worth. */
  function Worth(elapsed: int): real {
    elapsed as real / REFILL as real
  }

  function Refilled(b: Bucket, now: int): real {
    if now - b.last > 0 then MinReal(BURST as real, b.tokens + Worth(now - b.last)) else b.tokens
  }

  function Allow(b: Bucket, now: int): (Bucket, bool) {
    var t := Refilled(b, now);
    if t < 1.0 then (Bucket(t, now), false) else (Bucket(t - 1.0, now), true)
  }

  class Limiter {
    var tokens: real
    var last: int

    function State(): Bucket
      reads this
    {
      Bucket(tokens, last)
    }

    constructor (now: int)
      ensures State() == Bucket(BURST as real, now)
    {
      tokens, last := BURST as real, now;
    }

    method AllowScan(now: int) returns (ok: bool)
      modifies this
      ensures (State(), ok) == Allow(old(State()), now)
    {
      var elapsed := now - last;
      if elapsed > 0 {
        tokens := MinReal(BURST as real, tokens + elapsed as real / REFILL as real);
      }
      last := now;
      if tokens < 1.0 {
        return false;
      }
      tokens := tokens - 1.0;
      ok := true;
    }
  }

  // ----- Runs -----

  function After(b: Bucket, times: seq<int>): Bucket
    decreases |times|
  {
    if times == [] then b else After(Allow(b, times[0]).0, times[1..])
  }

  function Scans(b: Bucket, times: seq<int>): nat
    decreases |times|
  {
    if times == [] then 0
    else (if Allow(b, times[0]).1 then 1 else 0) + Scans(Allow(b, times[0]).0, times[1..])
  }

  /** How far the clock went forward, not counting what it went back. */
  function Forward(from: int, times: seq<int>): nat
    decreases |times|
  {
    if times == [] then 0
    else (if times[0] > from then times[0] - from else 0) + Forward(times[0], times[1..])
  }

  predicate Full(b: Bucket) {
    0.0 <= b.tokens <= BURST as real
  }

  lemma WorthAdds(a: int, b: int)
    ensures Worth(a + b) == Worth(a) + Worth(b)
    ensures a >= 0 ==> Worth(a) >= 0.0
  {
  }

  lemma AllowKeeps(b: Bucket, now: int)
    requires Full(b)
    ensures
      var (c, ok) := Allow(b, now);
      && Full(c) && c.last == now
      && c.tokens + (if ok then 1.0 else 0.0) <= b.tokens + Worth(if now > b.last then now - b.last else 0)
  {
    WorthAdds(if now > b.last then now - b.last else 0, 0);
  }

  /** What a run takes out of the bucket was in it or came with the time that passed, whatever the clock
      does. */
  lemma {:induction false} ScansArePaid(b: Bucket, times: seq<int>)
    requires Full(b)
    ensures Full(After(b, times))
    ensures Scans(b, times) as real + After(b, times).tokens <= b.tokens + Worth(Forward(b.last, times))
    decreases |times|
  {
    if times != [] {
      var c := Allow(b, times[0]).0;
      AllowKeeps(b, times[0]);
      ScansArePaid(c, times[1..]);
      WorthAdds(if times[0] > b.last then times[0] - b.last else 0, Forward(times[0], times[1..]));
    }
  }

  predicate Monotone(times: seq<int>) {
    forall i, j | 0 <= i < j < |times| :: times[i] <= times[j]
  }

  lemma {:induction false} ForwardIsSpan(from: int, times: seq<int>)
    requires Monotone(times) && times != [] && from <= times[0]
    ensures Forward(from, times) == times[|times| - 1] - from
    decreases |times|
  {
    if |times| > 1 {
      ForwardIsSpan(times[0], times[1..]);
    }
  }

  lemma {:induction false} Split(b: Bucket, times: seq<int>, i: nat)
    requires i <= |times|
    ensures After(b, times) == After(After(b, times[..i]), times[i..])
    ensures Scans(b, times) == Scans(b, times[..i]) + Scans(After(b, times[..i]), times[i..])
    decreases |times|
  {
    if i == 0 {
      assert times[..0] == [] && times[0..] == times;
    } else {
      Split(Allow(b, times[0]).0, times[1..], i - 1);
      assert times[..i][1..] == times[1..][..i - 1] && times[1..][i - 1..] == times[i..];
    }
  }

  /** In any window of a run, on a clock that does not go back: at most the burst, and one scan more
      for every refill the window lasts. */
  lemma WindowIsBounded(b: Bucket, times: seq<int>, i: nat, j: nat)
    requires Full(b) && Monotone(times) && i < j <= |times|
    ensures Scans(After(b, times[..i]), times[i..j]) as real <= BURST as real + Worth(times[j - 1] - times[i])
  {
    var c := After(b, times[..i]);
    var w := times[i..j];
    ScansArePaid(b, times[..i]);
    var d := Allow(c, w[0]).0;
    AllowKeeps(c, w[0]);
    ScansArePaid(d, w[1..]);
    if |w| > 1 {
      ForwardIsSpan(w[0], w[1..]);
    } else {
      assert w[1..] == [];
    }
    assert w[|w| - 1] == times[j - 1] && w[0] == times[i];
  }

  /** A clock that jumps back and forth pays twice for the same time. */
  lemma JumpsPayTwice(b: Bucket)
    requires b == Bucket(0.0, 0)
    ensures Scans(b, [REFILL, 0, REFILL]) == 2
  {
    var c := Allow(b, REFILL).0;
    assert Allow(b, REFILL) == (Bucket(0.0, REFILL), true);
    var d := Allow(c, 0).0;
    assert Allow(c, 0) == (Bucket(0.0, 0), false);
    assert Allow(d, REFILL).1;
    assert [REFILL, 0, REFILL][1..] == [0, REFILL] && [0, REFILL][1..] == [REFILL] && [REFILL][1..] == [];
    assert Scans(d, [REFILL]) == 1 + Scans(Allow(d, REFILL).0, []);
  }

  /** One refill after any call a scan is allowed again. */
  lemma RefillIsEnough(b: Bucket, now: int)
    requires Full(b) && now - b.last >= REFILL
    ensures Allow(b, now).1
  {
    WorthAdds(now - b.last - REFILL, REFILL);
    assert Worth(REFILL) == 1.0;
  }
}
