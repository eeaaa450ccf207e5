/** Login throttling: attempts are counted per key, and after some free ones each further attempt must
    wait twice as long as the one before. */
module Limiter {
  import opened Wrappers

  /** Times are nanoseconds. */
  const SECOND: nat := 1_000_000_000
  const MINUTE := 60 * SECOND
  const FORGET_AFTER := 60 * MINUTE
  const MAX_KEYS: nat := 10_000

  datatype Policy = Policy(free: nat, base: nat, max: nat)

  const ADDRESS := Policy(5, SECOND, 15 * MINUTE)
  const USER := Policy(10, SECOND, 5 * MINUTE)

  const MAX_INT64 := 0x7FFF_FFFF_FFFF_FFFF

  function Pow2(n: nat): nat {
    if n == 0 then 1 else 2 * Pow2(n - 1)
  }

  function Min(a: int, b: int): int {
    if a <= b then a else b
  }

  /** A 64-bit shift to the left. */
  function Shift(x: nat, bits: nat): int {
    var v := x * Pow2(bits) % (2 * MAX_INT64 + 2);
    if v <= MAX_INT64 then v else v - 2 * MAX_INT64 - 2
  }

  function Delay(p: Policy, n: int): int {
    if n < p.free then 0
    else if n - p.free >= 20 then p.max
    else Min(Shift(p.base, n - p.free), p.max)
  }

  // ----- The schedule -----

  /** What makes the shortcut for long shifts and the 64 bits harmless. */
  predicate Sane(p: Policy) {
    p.max <= p.base * Pow2(20) && p.base * Pow2(19) <= MAX_INT64 && p.max <= FORGET_AFTER
  }

  lemma {:induction false} Pow2Grows(a: nat, b: nat)
    requires a <= b
    ensures 1 <= Pow2(a) <= Pow2(b)
    decreases b
  {
    if a < b {
      Pow2Grows(a, b - 1);
    } else if a > 0 {
      Pow2Grows(a - 1, a - 1);
    }
  }

  lemma PoliciesAreSane()
    ensures Sane(ADDRESS) && Sane(USER)
  {
    assert Pow2(4) == 16 && Pow2(8) == 256 && Pow2(12) == 4096 && Pow2(16) == 65536 && Pow2(20) == 1048576;
  }

  /** The delay is the doubled base, capped, over unbounded numbers: nothing overflows. */
  lemma DelayIsCappedDoubling(p: Policy, n: int)
    requires Sane(p) && n >= p.free
    ensures Delay(p, n) == Min(p.base * Pow2(n - p.free), p.max)
  {
    var k := n - p.free;
    Pow2Grows(if k < 20 then k else 20, if k < 20 then 19 else k);
    hide Pow2, Shift;
    if k >= 20 {
      Multiply(p.base, Pow2(20), Pow2(k));
    } else {
      Multiply(p.base, Pow2(k), Pow2(19));
      ShiftFits(p.base, k);
    }
  }

  lemma ShiftFits(x: nat, bits: nat)
    requires x * Pow2(bits) <= MAX_INT64
    ensures Shift(x, bits) == x * Pow2(bits)
  {
    hide Pow2;
    var v := x * Pow2(bits);
    Multiply(x, 0, Pow2(bits));
    assert 0 <= v < 2 * MAX_INT64 + 2;
  }

  lemma Multiply(x: nat, a: nat, b: nat)
    requires a <= b
    ensures 0 <= x * a <= x * b
  {
  }

  /** More failures never mean a shorter wait, and no wait outlasts the cap. */
  lemma DelayGrows(p: Policy, m: int, n: int)
    requires Sane(p) && m <= n
    ensures 0 <= Delay(p, m) <= Delay(p, n) <= p.max
  {
    if m >= p.free {
      DelayIsCappedDoubling(p, m);
      Pow2Grows(m - p.free, n - p.free);
      Multiply(p.base, Pow2(m - p.free), Pow2(n - p.free));
    }
    if n >= p.free {
      DelayIsCappedDoubling(p, n);
      Pow2Grows(0, n - p.free);
      Multiply(p.base, 0, Pow2(n - p.free));
    }
  }

  // ----- The table -----

  type Key = string

  datatype Entry = Entry(failures: int, last: int)

  function Until(p: Policy, e: Entry): int {
    e.last + Delay(p, e.failures)
  }

  predicate Forgotten(e: Entry, now: int) {
    now - e.last > FORGET_AFTER
  }

  function DropForgotten(entries: map<Key, Entry>, now: int): map<Key, Entry> {
    map k | k in entries && !Forgotten(entries[k], now) :: entries[k]
  }

  predicate Stalest(entries: map<Key, Entry>, victim: Key) {
    victim in entries && forall k <- entries :: entries[victim].last <= entries[k].last
  }

  /** Expired keys go; if that frees no place, so does the stalest key. Of equally stale ones any may. */
  function Evict(entries: map<Key, Entry>, now: int, victim: Key): map<Key, Entry> {
    var kept := DropForgotten(entries, now);
    if |kept| >= MAX_KEYS then kept - {victim} else kept
  }

  predicate MayEvict(entries: map<Key, Entry>, now: int, victim: Key) {
    var kept := DropForgotten(entries, now);
    |kept| >= MAX_KEYS ==> Stalest(kept, victim)
  }

  /** The key's entry, unless it is forgotten by now. */
  function Fresh(entries: map<Key, Entry>, key: Key, now: int): map<Key, Entry> {
    if key in entries && Forgotten(entries[key], now) then entries - {key} else entries
  }

  predicate Waits(p: Policy, entries: map<Key, Entry>, key: Key, now: int) {
    var t := Fresh(entries, key, now);
    key in t && now < Until(p, t[key])
  }

  /** The attempt is counted. */
  function Counted(entries: map<Key, Entry>, key: Key, now: int, victim: Key): map<Key, Entry> {
    var t := Fresh(entries, key, now);
    if key in t then t[key := Entry(t[key].failures + 1, now)]
    else
      var u := if |t| >= MAX_KEYS then Evict(t, now, victim) else t;
      u[key := Entry(1, now)]
  }

  /** The table after an attempt and the wait that is left, 0 when it may be made. */
  function Begin(p: Policy, entries: map<Key, Entry>, key: Key, now: int, victim: Key): (map<Key, Entry>, int) {
    if Waits(p, entries, key, now) then (entries, Until(p, entries[key]) - now)
    else (Counted(entries, key, now, victim), 0)
  }

  function Abort(entries: map<Key, Entry>, key: Key): map<Key, Entry> {
    if key !in entries then entries
    else if entries[key].failures - 1 <= 0 then entries - {key}
    else entries[key := entries[key].(failures := entries[key].failures - 1)]
  }

  class Table {
    const policy: Policy
    var entries: map<Key, Entry>

    constructor (policy: Policy)
      ensures this.policy == policy && entries == map[]
    {
      this.policy, entries := policy, map[];
    }

    method EvictLocked(now: int) returns (ghost victim: Key)
      requires "" !in entries
      modifies this
      ensures entries == Evict(old(entries), now, victim) && MayEvict(old(entries), now, victim)
    {
      ghost var before := entries;
      var oldestKey: Key, oldest := "", 0;
      var left := entries.Keys;
      while left != {}
        invariant left <= before.Keys
        invariant forall k :: k in entries <==> k in before && (k in left || !Forgotten(before[k], now))
        invariant forall k <- entries :: entries[k] == before[k]
        invariant oldestKey == "" ==> entries.Keys <= left
        invariant oldestKey != "" ==> oldestKey in entries && oldestKey !in left && oldest == entries[oldestKey].last
        invariant oldestKey != "" ==> forall k <- entries | k !in left :: oldest <= entries[k].last
        decreases |left|
      {
        var k :| k in left;
        if Forgotten(entries[k], now) {
          entries := entries - {k};
        } else if oldestKey == "" || entries[k].last < oldest {
          oldestKey, oldest := k, entries[k].last;
        }
        left := left - {k};
      }
      assert entries == DropForgotten(before, now);
      victim := oldestKey;
      if |entries| >= MAX_KEYS && oldestKey != "" {
        entries := entries - {oldestKey};
      } else if oldestKey == "" {
        assert entries.Keys == {};
      }
    }

    method BeginAttempt(key: Key, now: int) returns (wait: int, ghost victim: Key)
      requires "" !in entries && key != ""
      modifies this
      ensures (entries, wait) == Begin(policy, old(entries), key, now, victim)
      ensures var t := Fresh(old(entries), key, now);
              wait == 0 && key !in t && |t| >= MAX_KEYS ==> MayEvict(t, now, victim)
    {
      victim := "";
      ghost var before := entries;
      var found := key in entries;
      if found && now - entries[key].last > FORGET_AFTER {
        entries := entries - {key};
        found := false;
      }
      assert entries == Fresh(before, key, now);
      if found {
        var until := Until(policy, entries[key]);
        if now < until {
          return until - now, victim;
        }
      } else {
        if |entries| >= MAX_KEYS {
          victim := EvictLocked(now);
        }
        entries := entries[key := Entry(0, now)];
      }
      entries := entries[key := Entry(entries[key].failures + 1, now)];
      assert entries == Counted(before, key, now, victim);
      wait := 0;
    }

    method AbortAttempt(key: Key)
      modifies this
      ensures entries == Abort(old(entries), key)
    {
      if key in entries {
        entries := entries[key := entries[key].(failures := entries[key].failures - 1)];
        if entries[key].failures <= 0 {
          entries := entries - {key};
        }
      }
    }
  }

  // ----- Runs -----

  /** `logs` holds, for every key in the table, the times of the attempts counted since it was last
      forgotten; an aborted attempt does not count. */
  datatype State = State(entries: map<Key, Entry>, logs: map<Key, seq<int>>)

  const EMPTY := State(map[], map[])

  datatype Event =
    | Attempt(key: Key, now: int, victim: Key)
    | Undo(key: Key)
    | Succeed(key: Key)

  function Restrict(logs: map<Key, seq<int>>, entries: map<Key, Entry>): map<Key, seq<int>> {
    map k | k in logs && k in entries :: logs[k]
  }

  function LogOf(logs: map<Key, seq<int>>, key: Key): seq<int> {
    if key in logs then logs[key] else []
  }

  /** None: an eviction would have to pick another victim. */
  function Next(p: Policy, s: State, e: Event): Option<State> {
    match e
    case Attempt(key, now, victim) =>
      var t := Fresh(s.entries, key, now);
      if Waits(p, s.entries, key, now) then Some(s)
      else if key !in t && |t| >= MAX_KEYS && !MayEvict(t, now, victim) then None
      else
        var entries := Counted(s.entries, key, now, victim);
        var log := LogOf(Restrict(s.logs, t), key) + [now];
        Some(State(entries, Restrict(s.logs, entries)[key := log]))
    case Undo(key) =>
      var entries := Abort(s.entries, key);
      var log := LogOf(s.logs, key);
      Some(State(entries, if key in entries && log != [] then s.logs[key := log[..|log| - 1]] else s.logs - {key}))
    case Succeed(key) => Some(State(s.entries - {key}, s.logs - {key}))
  }

  function Run(p: Policy, s: State, es: seq<Event>): Option<State>
    decreases |es|
  {
    if es == [] then Some(s)
    else
      match Next(p, s, es[0])
      case None => None
      case Some(t) => Run(p, t, es[1..])
  }

  /** Attempt k + 1 comes no sooner after attempt k than the delay after k failures. */
  predicate Spaced(p: Policy, log: seq<int>) {
    forall i | 1 <= i < |log| :: log[i] >= log[i - 1] + Delay(p, i)
  }

  predicate KeyOk(p: Policy, e: Entry, log: seq<int>) {
    && log != [] && |log| == e.failures && e.last >= log[|log| - 1]
    && Spaced(p, log)
  }

  ghost predicate Inv(p: Policy, s: State) {
    && s.entries.Keys == s.logs.Keys && |s.entries| <= MAX_KEYS
    && forall k <- s.entries :: KeyOk(p, s.entries[k], s.logs[k])
  }

  lemma SmallerTable(a: map<Key, Entry>, b: map<Key, Entry>)
    requires a.Keys <= b.Keys
    ensures |a| <= |b|
  {
    SubsetSize(a.Keys, b.Keys);
    assert |a.Keys| == |a| && |b.Keys| == |b|;
  }

  /** An eviction leaves room for one more. */
  lemma EvictMakesRoom(entries: map<Key, Entry>, now: int, victim: Key)
    requires |entries| <= MAX_KEYS && MayEvict(entries, now, victim)
    ensures |Evict(entries, now, victim)| < MAX_KEYS
    ensures forall k <- Evict(entries, now, victim) :: k in entries && entries[k] == Evict(entries, now, victim)[k]
  {
    var kept := DropForgotten(entries, now);
    SmallerTable(kept, entries);
    if |kept| >= MAX_KEYS {
      assert (kept - {victim}).Keys == kept.Keys - {victim};
      assert |kept.Keys - {victim}| == |kept.Keys| - 1;
      assert |kept.Keys| == |kept| && |(kept - {victim}).Keys| == |kept - {victim}|;
    }
  }

  /** A counted attempt changes its own key, may drop others, and never overfills the table. */
  lemma CountedTable(entries: map<Key, Entry>, key: Key, now: int, victim: Key)
    requires |entries| <= MAX_KEYS
    requires
      var t := Fresh(entries, key, now);
      key !in t && |t| >= MAX_KEYS ==> MayEvict(t, now, victim)
    ensures
      var u := Counted(entries, key, now, victim);
      && |u| <= MAX_KEYS && key in u
      && (forall k <- u | k != key :: k in entries && u[k] == entries[k])
      && u[key] == if key in Fresh(entries, key, now) then Entry(entries[key].failures + 1, now) else Entry(1, now)
  {
    var t := Fresh(entries, key, now);
    SmallerTable(t, entries);
    var u := Counted(entries, key, now, victim);
    if key in t {
      assert u.Keys == t.Keys;
      SmallerTable(u, t);
    } else {
      var rest := if |t| >= MAX_KEYS then Evict(t, now, victim) else t;
      if |t| >= MAX_KEYS {
        EvictMakesRoom(t, now, victim);
      }
      assert u.Keys == rest.Keys + {key};
      assert |u.Keys| == |u| && |rest.Keys| == |rest|;
    }
  }

  lemma CountedLog(p: Policy, e: Entry, log: seq<int>, now: int)
    requires KeyOk(p, e, log) && now >= Until(p, e)
    ensures KeyOk(p, Entry(e.failures + 1, now), log + [now])
  {
    assert (log + [now])[|log| - 1] == log[|log| - 1];
    forall i | 1 <= i < |log + [now]| ensures (log + [now])[i] >= (log + [now])[i - 1] + Delay(p, i) {
      assert (log + [now])[i - 1] == log[i - 1];
    }
  }

  /** The log of the key that is counted. */
  lemma AttemptLog(p: Policy, s: State, key: Key, now: int)
    requires Inv(p, s) && !Waits(p, s.entries, key, now)
    ensures
      var t := Fresh(s.entries, key, now);
      KeyOk(p, if key in t then Entry(s.entries[key].failures + 1, now) else Entry(1, now),
            LogOf(Restrict(s.logs, t), key) + [now])
  {
    var t := Fresh(s.entries, key, now);
    if key in t {
      CountedLog(p, s.entries[key], s.logs[key], now);
    } else {
      FirstLog(p, now);
    }
    hide KeyOk;
  }

  lemma AttemptIs(p: Policy, s: State, key: Key, now: int, victim: Key)
    requires !Waits(p, s.entries, key, now) && Next(p, s, Attempt(key, now, victim)).Some?
    ensures
      var u := Next(p, s, Attempt(key, now, victim)).value;
      && u.entries == Counted(s.entries, key, now, victim)
      && u.logs == Restrict(s.logs, u.entries)[key := LogOf(Restrict(s.logs, Fresh(s.entries, key, now)), key) + [now]]
      && (key !in Fresh(s.entries, key, now) && |Fresh(s.entries, key, now)| >= MAX_KEYS ==>
            MayEvict(Fresh(s.entries, key, now), now, victim))
  {
    hide Counted, Restrict, Fresh, MayEvict;
  }

  /** The keys that stay keep their entries and logs. */
  lemma OthersKeep(p: Policy, s: State, u: State, key: Key)
    requires Inv(p, s) && key in u.entries && key in u.logs && KeyOk(p, u.entries[key], u.logs[key])
    requires forall k <- u.entries | k != key :: k in s.entries && u.entries[k] == s.entries[k]
    requires u.logs == Restrict(s.logs, u.entries)[key := u.logs[key]] && |u.entries| <= MAX_KEYS
    ensures Inv(p, u)
  {
    hide KeyOk;
    assert u.logs.Keys == u.entries.Keys;
    forall k | k in u.entries ensures KeyOk(p, u.entries[k], u.logs[k]) {
      if k != key {
        assert u.logs[k] == s.logs[k];
        assert KeyOk(p, s.entries[k], s.logs[k]);
      }
    }
  }

  lemma AttemptKeeps(p: Policy, s: State, key: Key, now: int, victim: Key)
    requires Inv(p, s) && Next(p, s, Attempt(key, now, victim)).Some?
    ensures Inv(p, Next(p, s, Attempt(key, now, victim)).value)
  {
    if !Waits(p, s.entries, key, now) {
      hide Inv, Counted, MayEvict, KeyOk, Fresh, LogOf, Restrict, Waits;
      AttemptIs(p, s, key, now, victim);
      InvBound(p, s);
      CountedTable(s.entries, key, now, victim);
      AttemptLog(p, s, key, now);
      var u := Next(p, s, Attempt(key, now, victim)).value;
      hide Next;
      OthersKeep(p, s, u, key);
    }
  }

  lemma InvBound(p: Policy, s: State)
    requires Inv(p, s)
    ensures |s.entries| <= MAX_KEYS
  {
  }

  lemma FirstLog(p: Policy, now: int)
    ensures KeyOk(p, Entry(1, now), [] + [now])
  {
  }

  lemma UndoneLog(p: Policy, e: Entry, log: seq<int>)
    requires Sane(p) && KeyOk(p, e, log) && e.failures > 1
    ensures KeyOk(p, e.(failures := e.failures - 1), log[..|log| - 1])
  {
    DelayGrows(p, |log| - 1, |log| - 1);
    assert log[|log| - 1] >= log[|log| - 2] + Delay(p, |log| - 1);
  }

  /** An aborted attempt is not counted, but it keeps the time of the last one. */
  lemma UndoKeeps(p: Policy, s: State, key: Key)
    requires Inv(p, s) && Sane(p)
    ensures Inv(p, Next(p, s, Undo(key)).value)
  {
    if key !in s.entries {
      assert s.logs - {key} == s.logs;
    } else {
      assert KeyOk(p, s.entries[key], s.logs[key]);
      if s.entries[key].failures > 1 {
        UndoneLog(p, s.entries[key], s.logs[key]);
        assert s.entries.Keys == Abort(s.entries, key).Keys;
        SmallerTable(Abort(s.entries, key), s.entries);
      } else {
        SmallerTable(s.entries - {key}, s.entries);
      }
    }
    hide KeyOk, Spaced;
  }

  lemma NextKeeps(p: Policy, s: State, e: Event)
    requires Inv(p, s) && Sane(p) && Next(p, s, e).Some?
    ensures Inv(p, Next(p, s, e).value)
  {
    match e
    case Attempt(key, now, victim) => AttemptKeeps(p, s, key, now, victim);
    case Undo(key) => UndoKeeps(p, s, key);
    case Succeed(key) => SmallerTable(s.entries - {key}, s.entries);
  }

  lemma {:induction false} RunKeeps(p: Policy, s: State, es: seq<Event>)
    requires Inv(p, s) && Sane(p) && Run(p, s, es).Some?
    ensures Inv(p, Run(p, s, es).value)
    decreases |es|
  {
    if es != [] {
      NextKeeps(p, s, es[0]);
      RunKeeps(p, Next(p, s, es[0]).value, es[1..]);
    }
  }

  // ----- Main results -----

  /** The delays of attempts 2 to n together. */
  function WaitSum(p: Policy, n: nat): int {
    if n <= 1 then 0 else WaitSum(p, n - 1) + Delay(p, n - 1)
  }

  lemma {:induction false} SpacedTakes(p: Policy, log: seq<int>, n: nat)
    requires Spaced(p, log) && 1 <= n <= |log|
    ensures log[n - 1] >= log[0] + WaitSum(p, n)
  {
    if n > 1 {
      SpacedTakes(p, log, n - 1);
    }
  }

  /** The n-th counted attempt on a key comes at least the sum of all earlier delays after the first,
      whatever the clock does and whatever happens on other keys; and the table never overfills. */
  lemma GuessingIsSlow(p: Policy, es: seq<Event>, key: Key, n: nat)
    requires Sane(p) && Run(p, EMPTY, es).Some?
    requires key in Run(p, EMPTY, es).value.logs && 1 <= n <= |Run(p, EMPTY, es).value.logs[key]|
    ensures
      var s := Run(p, EMPTY, es).value;
      && s.logs[key][n - 1] >= s.logs[key][0] + WaitSum(p, n)
      && |s.entries| <= MAX_KEYS
  {
    RunKeeps(p, EMPTY, es);
    var s := Run(p, EMPTY, es).value;
    assert KeyOk(p, s.entries[key], s.logs[key]);
    SpacedTakes(p, s.logs[key], n);
  }

  /** Once the delays have reached the cap, every further attempt costs the cap. */
  lemma {:induction false} CapPerAttempt(p: Policy, k: nat, n: nat)
    requires Sane(p) && p.max <= p.base * Pow2(k) && 1 <= p.free + k <= n
    ensures WaitSum(p, n) >= (n - p.free - k) * p.max
    decreases n
  {
    if n == p.free + k {
      WaitSumNonnegative(p, n);
    } else {
      CapPerAttempt(p, k, n - 1);
      DelayIsCappedDoubling(p, n - 1);
      Pow2Grows(k, n - 1 - p.free);
      Multiply(p.base, Pow2(k), Pow2(n - 1 - p.free));
      assert (n - p.free - k) * p.max == (n - 1 - p.free - k) * p.max + p.max;
    }
  }

  lemma {:induction false} WaitSumNonnegative(p: Policy, n: nat)
    requires Sane(p)
    ensures WaitSum(p, n) >= 0
  {
    if n > 1 {
      WaitSumNonnegative(p, n - 1);
      DelayGrows(p, 0, n - 1);
    }
  }

  /** Forgetting a key never cuts its backoff short: by then the wait is over. */
  lemma ForgettingIsHarmless(p: Policy, entries: map<Key, Entry>, key: Key, now: int)
    requires Sane(p) && key in entries && Forgotten(entries[key], now)
    ensures now >= Until(p, entries[key])
  {
    DelayGrows(p, entries[key].failures, entries[key].failures);
  }

  /** A key that is waiting leaves the table early only when the table is full of keys that are no
      staler. */
  lemma OnlyTheStalestGoesEarly(p: Policy, entries: map<Key, Entry>, key: Key, now: int, victim: Key, k: Key)
    requires Sane(p) && !Waits(p, entries, key, now) && k in entries && k != key && now < Until(p, entries[k])
    requires
      var t := Fresh(entries, key, now);
      key !in t && |t| >= MAX_KEYS ==> MayEvict(t, now, victim)
    requires k !in Counted(entries, key, now, victim)
    ensures
      var kept := DropForgotten(Fresh(entries, key, now), now);
      k == victim && |kept| >= MAX_KEYS && forall o <- kept :: entries[k].last <= entries[o].last
  {
    if Forgotten(entries[k], now) {
      ForgettingIsHarmless(p, entries, k, now);
    }
  }

  // ----- What an attempt is answered -----

  /** An attempt has to wait if and only if its key was tried within the last hour and the delay after its
      failures is not over; it is told exactly what is left of that, and changes nothing. One that may be
      made is counted, from one again after an hour; the only other keys that are touched leave a full
      table: those not tried for an hour, and the victim. */
  lemma AttemptAnswers(p: Policy, entries: map<Key, Entry>, key: Key, now: int, victim: Key)
    ensures
      var (t, wait) := Begin(p, entries, key, now, victim);
      var known := key in entries && now - entries[key].last <= 60 * MINUTE;
      && (wait != 0 <==> known && now < entries[key].last + Delay(p, entries[key].failures))
      && (wait != 0 ==> t == entries && wait == entries[key].last + Delay(p, entries[key].failures) - now)
      && (wait == 0 ==>
            && key in t && t[key] == Entry(if known then entries[key].failures + 1 else 1, now)
            && (forall k <- t | k != key :: k in entries && t[k] == entries[k])
            && (forall k <- entries | k != key && k !in t ::
                  !known && |entries| >= MAX_KEYS && (k == victim || now - entries[k].last > 60 * MINUTE)))
  {
    var u := Fresh(entries, key, now);
    FreshIsSmaller(entries, key, now);
    hide Delay, Fresh;
  }

  lemma FreshIsSmaller(entries: map<Key, Entry>, key: Key, now: int)
    ensures
      var u := Fresh(entries, key, now);
      && |u| <= |entries|
      && (key in u <==> key in entries && now - entries[key].last <= 60 * MINUTE)
      && (forall k :: k in u <==> k in entries && (k != key || key in u))
      && (forall k <- u :: u[k] == entries[k])
  {
    SmallerTable(Fresh(entries, key, now), entries);
  }

  /** Taking an attempt back undoes its counting: the failures are what they were, none if the key was new. */
  lemma AbortUndoes(p: Policy, entries: map<Key, Entry>, key: Key, now: int, victim: Key)
    requires Begin(p, entries, key, now, victim).1 == 0 && (key in entries ==> entries[key].failures > 0)
    ensures
      var t := Abort(Begin(p, entries, key, now, victim).0, key);
      if key in entries && now - entries[key].last <= 60 * MINUTE then key in t && t[key].failures == entries[key].failures
      else key !in t
  {
    AttemptAnswers(p, entries, key, now, victim);
    hide Begin, Delay;
  }

}
