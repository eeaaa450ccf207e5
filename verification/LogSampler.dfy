/** Sampling warnings anybody can trigger: a few per kind and window, the rest counted and reported. */
module LogSampler {
  const SECOND := 1_000_000_000
  const WINDOW := 60 * SECOND
  const LIMIT := 10

  type Kind = string

  datatype Sampler = Sampler(window: int, counts: map<Kind, nat>, suppressed: map<Kind, nat>)

  function Of(m: map<Kind, nat>, kind: Kind): nat {
    if kind in m then m[kind] else 0
  }

  /** Is `now` outside the current window? A clock that went back opens a new one. */
  predicate Opens(s: Sampler, now: int) {
    now - s.window >= WINDOW || now < s.window
  }

  /** One line: may it be logged, and how many were suppressed since the last that was. */
  function Allow(s: Sampler, kind: Kind, now: int): (Sampler, bool, nat) {
    var t := if Opens(s, now) then s.(window := now, counts := map[]) else s;
    if Of(t.counts, kind) >= LIMIT
    then (t.(suppressed := t.suppressed[kind := Of(t.suppressed, kind) + 1]), false, 0)
    else
      (t.(counts := t.counts[kind := Of(t.counts, kind) + 1], suppressed := t.suppressed - {kind}),
       true, Of(t.suppressed, kind))
  }

  class Counter {
    var window: int
    var counts: map<Kind, nat>
    var suppressed: map<Kind, nat>

    function State(): Sampler
      reads this
    {
      Sampler(window, counts, suppressed)
    }

    /** The first window is long past. */
    constructor ()
      ensures State() == Sampler(0, map[], map[])
    {
      window, counts, suppressed := 0, map[], map[];
    }

    method AllowLine(kind: Kind, now: int) returns (ok: bool, reported: nat)
      modifies this
      ensures (State(), ok, reported) == Allow(old(State()), kind, now)
    {
      if now - window >= WINDOW || now < window {
        window := now;
        counts := map[];
      }
      if Of(counts, kind) >= LIMIT {
        suppressed := suppressed[kind := Of(suppressed, kind) + 1];
        return false, 0;
      }
      counts := counts[kind := Of(counts, kind) + 1];
      reported := Of(suppressed, kind);
      suppressed := suppressed - {kind};
      ok := true;
    }
  }

  datatype Line = Line(kind: Kind, now: int)

  function After(s: Sampler, lines: seq<Line>): Sampler
    decreases |lines|
  {
    if lines == [] then s else After(Allow(s, lines[0].kind, lines[0].now).0, lines[1..])
  }

  /** Of one kind: lines asked for, logged, and reported as suppressed. */
  function Asked(lines: seq<Line>, kind: Kind): nat {
    if lines == [] then 0 else (if lines[0].kind == kind then 1 else 0) + Asked(lines[1..], kind)
  }

  function Logged(s: Sampler, lines: seq<Line>, kind: Kind): nat
    decreases |lines|
  {
    if lines == [] then 0
    else
      var (t, ok, _) := Allow(s, lines[0].kind, lines[0].now);
      (if lines[0].kind == kind && ok then 1 else 0) + Logged(t, lines[1..], kind)
  }

  function Reported(s: Sampler, lines: seq<Line>, kind: Kind): nat
    decreases |lines|
  {
    if lines == [] then 0
    else
      var (t, _, n) := Allow(s, lines[0].kind, lines[0].now);
      (if lines[0].kind == kind then n else 0) + Reported(t, lines[1..], kind)
  }

  /** No line is lost: each was logged, reported as suppressed, or is still counted to be. */
  lemma {:induction false} NothingIsLost(s: Sampler, lines: seq<Line>, kind: Kind)
    ensures Of(s.suppressed, kind) + Asked(lines, kind)
            == Logged(s, lines, kind) + Reported(s, lines, kind) + Of(After(s, lines).suppressed, kind)
    decreases |lines|
  {
    if lines != [] {
      NothingIsLost(Allow(s, lines[0].kind, lines[0].now).0, lines[1..], kind);
    }
  }

  /** What becomes of one line. A minute after the window began, or when the clock has gone back behind it, a
      new window begins, so no kind is silenced for good; a line is logged while its kind has had fewer than
      the limit in the window, and then tells how many were suppressed. No other kind is touched. */
  lemma AllowAnswers(s: Sampler, kind: Kind, now: int)
    ensures
      var (t, ok, reported) := Allow(s, kind, now);
      var renewed := now >= s.window + WINDOW || now < s.window;
      && t.window == (if renewed then now else s.window)
      && (ok <==> renewed || Of(s.counts, kind) < LIMIT)
      && reported == (if ok then Of(s.suppressed, kind) else 0)
      && (forall k :: Of(t.counts, k) == (if renewed then 0 else Of(s.counts, k)) + (if ok && k == kind then 1 else 0))
      && (forall k :: Of(t.suppressed, k) == if k != kind then Of(s.suppressed, k) else if ok then 0 else Of(s.suppressed, k) + 1)
  {
  }

  predicate Within(lines: seq<Line>, from: int) {
    forall l <- lines :: from <= l.now < from + WINDOW
  }

  /** What is logged in the rest of the window that is open. */
  lemma {:induction false} WindowIsCapped(s: Sampler, lines: seq<Line>, kind: Kind)
    requires Within(lines, s.window) && Of(s.counts, kind) <= LIMIT
    ensures Of(s.counts, kind) + Logged(s, lines, kind) <= LIMIT
    decreases |lines|
  {
    if lines != [] {
      assert lines[0] in lines;
      assert forall l <- lines[1..] :: l in lines;
      WindowIsCapped(Allow(s, lines[0].kind, lines[0].now).0, lines[1..], kind);
    }
  }

  predicate Monotone(lines: seq<Line>) {
    forall i, j | 0 <= i < j < |lines| :: lines[i].now <= lines[j].now
  }

  /** In any stretch no longer than a window, on a clock that does not go back: at most twice the limit of
      each kind. */
  lemma {:induction false} StretchIsCapped(s: Sampler, lines: seq<Line>, kind: Kind, from: int)
    requires Monotone(lines) && Within(lines, from) && s.window <= from && Of(s.counts, kind) <= LIMIT
    ensures Of(s.counts, kind) + Logged(s, lines, kind) <= 2 * LIMIT
    decreases |lines|
  {
    if lines != [] {
      var l := lines[0];
      var t := Allow(s, l.kind, l.now).0;
      assert l in lines && forall m <- lines[1..] :: m in lines;
      if Opens(s, l.now) {
        assert forall i | 0 <= i < |lines[1..]| :: lines[1..][i] == lines[i + 1];
        WindowIsCapped(t, lines[1..], kind);
      } else {
        StretchIsCapped(t, lines[1..], kind, from);
      }
    }
  }
}
