/** The scheduler: when a task runs next, and what of it is saved. */
module Scheduler {
  import opened Wrappers

  /** Times are nanoseconds, intervals minutes. */
  const MINUTE := 60_000_000_000
  const MAX_INT64 := 0x7FFF_FFFF_FFFF_FFFF

  /** A 64-bit duration: past 292 years it wraps. */
  function Span(interval: int): int {
    var r := interval * MINUTE % (2 * MAX_INT64 + 2);
    if r <= MAX_INT64 then r else r - 2 * MAX_INT64 - 2
  }

  predicate Fits(interval: int) {
    0 < interval * MINUTE <= MAX_INT64
  }

  /** The scheduling part of a task's row: its last run and its next, or the anchor of its first. */
  datatype Task = Task(interval: int, last: Option<int>, next: Option<int>)

  /** The state after computing the next run at `now`, and whether it changed. */
  function NextExecution(st: Task, interval: int, now: int): (Task, bool) {
    if interval <= 0 then
      if st.next.Some? then (st.(next := None), true) else (st, false)
    else
      var iv := Span(interval);
      var reset := st.last.Some? && st.last.value > now;
      var last := if reset then Some(now) else st.last;
      var next :=
        if last.Some? then last.value + iv
        else if st.next.Some? then (if now + iv < st.next.value then now + iv else st.next.value)
        else now + iv;
      (st.(last := last, next := Some(next)), reset || st.next != Some(next))
  }

  /** The startup grace: nothing runs before `bootUntil`. */
  function EffectiveNext(next: Option<int>, bootUntil: int): Option<int> {
    if next.Some? && next.value < bootUntil then Some(bootUntil) else next
  }

  /** One task in one check: its new state, whether that is to be saved, whether it is queued. */
  function Check(st: Task, interval: int, now: int, bootUntil: int): (Task, bool, bool) {
    var i := if interval < 0 then 0 else interval;
    var (t, anchored) := NextExecution(st.(interval := i), i, now);
    var next := EffectiveNext(t.next, bootUntil);
    (t, st.interval != i || anchored, next.Some? && next.value <= now)
  }

  /** A finished run that stands for a scheduled task. */
  function Record(st: Task, interval: int, ended: int, now: int): Task {
    var i := if interval < 0 then 0 else interval;
    NextExecution(st.(interval := i, last := Some(ended)), i, now).0
  }

  class TaskState {
    var interval: int
    var last: Option<int>
    var next: Option<int>

    function State(): Task
      reads this
    {
      Task(interval, last, next)
    }

    constructor ()
      ensures State() == Task(0, None, None)
    {
      interval, last, next := 0, None, None;
    }

    method ComputeNext(minutes: int, now: int) returns (run: Option<int>, changed: bool)
      modifies this`last, this`next
      ensures (State(), changed) == NextExecution(old(State()), minutes, now)
      ensures run == next
    {
      if minutes <= 0 {
        if next.Some? {
          next := None;
          return None, true;
        }
        return None, false;
      }
      var iv := Span(minutes);
      var at: int;
      var clockReset := false;
      if last.Some? {
        var l := last.value;
        if l > now {
          l := now;
          last := Some(l);
          clockReset := true;
        }
        at := l + iv;
      } else if next.Some? {
        at := next.value;
        var limit := now + iv;
        if limit < at {
          at := limit;
        }
      } else {
        at := now + iv;
      }
      changed := clockReset || next.None? || next.value != at;
      next := Some(at);
      run := next;
    }

    method CheckTask(minutes: int, now: int, bootUntil: int) returns (save: bool, queue: bool)
      modifies this
      ensures (State(), save, queue) == Check(old(State()), minutes, now, bootUntil)
    {
      var i := if minutes < 0 then 0 else minutes;
      save := interval != i;
      interval := i;
      var run, anchored := ComputeNext(i, now);
      save := save || anchored;
      if run.Some? && run.value < bootUntil {
        run := Some(bootUntil);
      }
      queue := run.Some? && run.value <= now;
    }

    method RecordRun(minutes: int, ended: int, now: int)
      modifies this
      ensures State() == Record(old(State()), minutes, ended, now)
    {
      interval := if minutes < 0 then 0 else minutes;
      last := Some(ended);
      var run, changed := ComputeNext(interval, now);
    }
  }

  // ----- One computation -----

  /** An interval is never taken for longer than it is, and for less exactly when it does not fit. */
  lemma SpanFits(interval: int)
    requires interval > 0
    ensures Span(interval) <= interval * MINUTE
    ensures Span(interval) == interval * MINUTE <==> Fits(interval)
  {
    var p, m := interval * MINUTE, 2 * MAX_INT64 + 2;
    assert p == p / m * m + p % m && p / m >= 0;
  }

  /** It is the 64-bit number that differs from the interval by a multiple of 2^64. */
  lemma SpanWraps(interval: int)
    ensures -MAX_INT64 - 1 <= Span(interval) <= MAX_INT64
    ensures exists k :: Span(interval) == interval * MINUTE + Times64(k)
  {
    var p, m := interval * MINUTE, 2 * MAX_INT64 + 2;
    assert p == p / m * m + p % m;
    assert Span(interval) == p + Times64(-(p / m)) || Span(interval) == p + Times64(-(p / m) - 1);
  }

  function Times64(k: int): int {
    k * 0x1_0000_0000_0000_0000
  }

  /** Computing again changes nothing, and a change is reported exactly when there is one. */
  lemma NextExecutionSettles(st: Task, interval: int, now: int)
    ensures
      var (t, changed) := NextExecution(st, interval, now);
      && NextExecution(t, interval, now) == (t, false)
      && (changed <==> t != st)
  {
  }

  /** Whatever the interval, the clock and the stored state: the next run is at most an interval away, and
      a task that ran runs next when its span after the last run is over. */
  lemma NextExecutionIsNear(st: Task, interval: int, now: int)
    requires interval > 0
    ensures
      var t := NextExecution(st, interval, now).0;
      && t.next.Some? && t.next.value <= now + interval * MINUTE
      && (t.last.Some? ==> t.next.value == t.last.value + Span(interval) && t.last.value <= now)
      && (t.last.Some? <==> st.last.Some?)
  {
    SpanFits(interval);
  }

  /** Past 64 bits the interval wraps around, and a task that never ran may be due at once. */
  lemma HugeIntervalWraps(now: int)
    ensures !Fits(153_722_868) && Span(153_722_868) < 0
    ensures NextExecution(Task(0, None, None), 153_722_868, now).0.next.value < now
  {
  }

  // ----- Runs -----

  datatype Event =
    | Tick(interval: int, now: int)
    | Finished(interval: int, ended: int, now: int)

  function Step(st: Task, e: Event, bootUntil: int): Task {
    match e
    case Tick(interval, now) => Check(st, interval, now, bootUntil).0
    case Finished(interval, ended, now) => Record(st, interval, ended, now)
  }

  function Run(st: Task, es: seq<Event>, bootUntil: int): Task
    decreases |es|
  {
    if es == [] then st else Run(Step(st, es[0], bootUntil), es[1..], bootUntil)
  }

  predicate Queued(st: Task, interval: int, now: int, bootUntil: int) {
    Check(st, interval, now, bootUntil).2
  }

  /** A check queues a task exactly when the grace is over and its time has come: a span after its last
      run, or its anchor if it never ran. A span that wrapped around to nothing is over at once. */
  lemma QueuedExactlyWhenDue(st: Task, interval: int, now: int, bootUntil: int)
    requires interval > 0
    ensures Queued(st, interval, now, bootUntil) <==>
            && now >= bootUntil
            && (|| Span(interval) <= 0
                || (if st.last.Some? then now >= st.last.value + Span(interval)
                    else st.next.Some? && now >= st.next.value))
  {
  }

  /** A task whose interval is zero or less is never queued, whatever ran and was checked before: its next
      run is cleared. */
  lemma DisabledIsNeverQueued(st: Task, es: seq<Event>, interval: int, now: int, bootUntil: int)
    requires interval <= 0
    ensures
      var t := Run(st, es, bootUntil);
      && !Queued(t, interval, now, bootUntil)
      && Check(t, interval, now, bootUntil).0 == Task(0, t.last, None)
  {
  }

  /** A check stores the interval it is given, and is saved exactly when it changed something. */
  lemma CheckSavesChanges(st: Task, interval: int, now: int, bootUntil: int)
    ensures
      var (t, save, _) := Check(st, interval, now, bootUntil);
      && (save <==> t != st)
      && t.interval == (if interval < 0 then 0 else interval)
      && t.last == (if interval > 0 && st.last.Some? && st.last.value > now then Some(now) else st.last)
  {
    var i := if interval < 0 then 0 else interval;
    NextExecutionSettles(st.(interval := i), i, now);
  }

  /** A recorded run is the last one, but never later than the clock says, and the next follows from it. */
  lemma RecordTells(st: Task, interval: int, ended: int, now: int)
    ensures
      var t := Record(st, interval, ended, now);
      if interval <= 0 then t == Task(0, Some(ended), None)
      else
        var last := if ended > now then now else ended;
        t == Task(interval, Some(last), Some(last + Span(interval)))
  {
  }

  predicate TicksOnly(es: seq<Event>, interval: int) {
    forall e <- es :: e.Tick? && e.interval == interval
  }

  /** While nothing finishes and the interval stays, the next run never moves later, whatever the clock
      does; for a task that never ran that holds also while the interval changes. */
  lemma {:induction false} NextRunNeverMovesLater(st: Task, es: seq<Event>, interval: int, bootUntil: int)
    requires interval > 0 && TicksOnly(es, interval) && st.next.Some?
    requires st.last.Some? ==> st.next.value == st.last.value + Span(interval)
    ensures
      var t := Run(st, es, bootUntil);
      && t.next.Some? && t.next.value <= st.next.value
      && (t.last.Some? <==> st.last.Some?)
      && (t.last.Some? ==> t.next.value == t.last.value + Span(interval))
    decreases |es|
  {
    if es != [] {
      assert es[0] in es;
      NextRunNeverMovesLater(Step(st, es[0], bootUntil), es[1..], interval, bootUntil);
    }
  }

  lemma {:induction false} AnchorNeverMovesLater(st: Task, es: seq<Event>, bootUntil: int)
    requires st.last.None? && st.next.Some?
    requires forall e <- es :: e.Tick? && e.interval > 0
    ensures
      var t := Run(st, es, bootUntil);
      t.last.None? && t.next.Some? && t.next.value <= st.next.value
    decreases |es|
  {
    if es != [] {
      assert es[0] in es;
      AnchorNeverMovesLater(Step(st, es[0], bootUntil), es[1..], bootUntil);
    }
  }

  /** No task starves: once checked at `now`, it is queued by any check an interval later, after the
      grace, whatever checks come between and whatever the clock reads at them. */
  lemma NoTaskStarves(st: Task, interval: int, now: int, es: seq<Event>, later: int, bootUntil: int)
    requires interval > 0 && TicksOnly(es, interval)
    requires later >= now + interval * MINUTE && later >= bootUntil
    ensures Queued(Run(Step(st, Tick(interval, now), bootUntil), es, bootUntil), interval, later, bootUntil)
  {
    var t := Step(st, Tick(interval, now), bootUntil);
    NextExecutionIsNear(st.(interval := interval), interval, now);
    NextRunNeverMovesLater(t, es, interval, bootUntil);
    QueuedExactlyWhenDue(Run(t, es, bootUntil), interval, later, bootUntil);
  }

  /** After a recorded run its task rests until its span is over, by any clock that has not gone back
      behind the end of the run. */
  lemma {:induction false} RestsAfterRun(st: Task, es: seq<Event>, interval: int, ended: int, now: int, bootUntil: int)
    requires interval > 0 && Span(interval) > 0 && TicksOnly(es, interval)
    requires st.last == Some(ended) && forall e <- es :: e.now >= ended
    requires now < ended + Span(interval)
    ensures !Queued(Run(st, es, bootUntil), interval, now, bootUntil)
    decreases |es|
  {
    if es == [] {
      QueuedExactlyWhenDue(st, interval, now, bootUntil);
    } else {
      assert es[0] in es;
      RestsAfterRun(Step(st, es[0], bootUntil), es[1..], interval, ended, now, bootUntil);
    }
  }

  /** It rests for the whole interval if and only if the interval fits into 64 bits. */
  lemma RestsForIntervalExactly(st: Task, interval: int, ended: int, bootUntil: int)
    requires interval > 0 && bootUntil <= ended && st.last == Some(ended)
    ensures (forall now | ended <= now < ended + interval * MINUTE :: !Queued(st, interval, now, bootUntil))
            <==> Fits(interval)
  {
    SpanFits(interval);
    if Fits(interval) {
      forall now | ended <= now < ended + interval * MINUTE ensures !Queued(st, interval, now, bootUntil) {
        QueuedExactlyWhenDue(st, interval, now, bootUntil);
      }
    } else {
      var now := if Span(interval) <= 0 then ended else ended + Span(interval);
      QueuedExactlyWhenDue(st, interval, now, bootUntil);
      assert Queued(st, interval, now, bootUntil);
    }
  }

  // ----- Saving -----

  /** The task in memory and in the store. A change owes a save; saves are one at a time, and each takes
      what is in memory then. `writes` are the versions written, in order. */
  datatype Saver = Saver(
    task: Task, version: nat, owed: nat, saving: Option<(Task, nat)>, stored: Task, writes: seq<nat>)

  datatype SaverEvent =
    | CheckIt(interval: int, now: int, bootUntil: int)
    | RecordIt(interval: int, ended: int, now: int)
    | BeginSave
    | EndSave

  function SaverNext(s: Saver, e: SaverEvent): Option<Saver> {
    match e
    case CheckIt(interval, now, bootUntil) =>
      var (t, changed, _) := Check(s.task, interval, now, bootUntil);
      Some(if changed then s.(task := t, version := s.version + 1, owed := s.owed + 1) else s.(task := t))
    case RecordIt(interval, ended, now) =>
      Some(s.(task := Record(s.task, interval, ended, now), version := s.version + 1, owed := s.owed + 1))
    case BeginSave =>
      if s.owed == 0 || s.saving.Some? then None
      else Some(s.(owed := s.owed - 1, saving := Some((s.task, s.version))))
    case EndSave =>
      if s.saving.None? then None
      else Some(s.(saving := None, stored := s.saving.value.0, writes := s.writes + [s.saving.value.1]))
  }

  function SaverRun(s: Saver, es: seq<SaverEvent>): Option<Saver>
    decreases |es|
  {
    if es == [] then Some(s)
    else
      match SaverNext(s, es[0])
      case None => None
      case Some(t) => SaverRun(t, es[1..])
  }

  predicate Ordered(writes: seq<nat>) {
    forall i, j | 0 <= i < j < |writes| :: writes[i] <= writes[j]
  }

  predicate SaverInv(s: Saver) {
    && Ordered(s.writes)
    && (s.writes != [] ==> s.writes[|s.writes| - 1] <= s.version)
    && (s.saving.Some? ==> s.saving.value.1 <= s.version && (s.writes != [] ==> s.writes[|s.writes| - 1] <= s.saving.value.1))
    && (s.owed == 0 ==> if s.saving.Some? then s.saving.value.0 == s.task else s.stored == s.task)
  }

  lemma SaverKeeps(s: Saver, e: SaverEvent)
    requires SaverInv(s) && SaverNext(s, e).Some?
    ensures SaverInv(SaverNext(s, e).value)
  {
    if e.CheckIt? {
      var i := if e.interval < 0 then 0 else e.interval;
      NextExecutionSettles(s.task.(interval := i), i, e.now);
    }
  }

  /** The store is never set back: writes carry newer and newer states, and once no save is owed or under
      way the store holds what is in memory. */
  lemma {:induction false} LastSaveIsNewest(s: Saver, es: seq<SaverEvent>)
    requires SaverInv(s) && SaverRun(s, es).Some?
    ensures
      var t := SaverRun(s, es).value;
      Ordered(t.writes) && (t.owed == 0 && t.saving.None? ==> t.stored == t.task)
    decreases |es|
  {
    if es != [] {
      SaverKeeps(s, es[0]);
      LastSaveIsNewest(SaverNext(s, es[0]).value, es[1..]);
    }
  }

  /** The task after its checks and runs, whatever is saved between. */
  function Tracked(st: Task, es: seq<SaverEvent>): Task
    decreases |es|
  {
    if es == [] then st
    else
      match es[0]
      case CheckIt(interval, now, bootUntil) => Tracked(Step(st, Tick(interval, now), bootUntil), es[1..])
      case RecordIt(interval, ended, now) => Tracked(Step(st, Finished(interval, ended, now), 0), es[1..])
      case _ => Tracked(st, es[1..])
  }

  /** How often the task changed: every recorded run counts, a check when it changed something. */
  function Changes(st: Task, es: seq<SaverEvent>): nat
    decreases |es|
  {
    if es == [] then 0
    else
      var t := Tracked(st, es[..1]);
      (if es[0].RecordIt? || (es[0].CheckIt? && t != st) then 1 else 0) + Changes(t, es[1..])
  }

  function Count(es: seq<SaverEvent>, e: SaverEvent): nat
    decreases |es|
  {
    if es == [] then 0 else (if es[0] == e then 1 else 0) + Count(es[1..], e)
  }

  /** Nothing is lost on the way to the store: every change owes one save, every save begun pays for one,
      and every save that ended is one write. */
  lemma {:induction false} SavesAreAccounted(s: Saver, es: seq<SaverEvent>)
    requires SaverRun(s, es).Some?
    ensures
      var t := SaverRun(s, es).value;
      && t.task == Tracked(s.task, es)
      && t.version == s.version + Changes(s.task, es)
      && t.owed + Count(es, BeginSave) == s.owed + Changes(s.task, es)
      && |t.writes| == |s.writes| + Count(es, EndSave)
      && (if t.saving.Some? then 1 else 0) + Count(es, EndSave) == (if s.saving.Some? then 1 else 0) + Count(es, BeginSave)
    decreases |es|
  {
    if es != [] {
      SaverAccounts(s, es[0]);
      assert es[..1][1..] == [] && es[..1][0] == es[0];
      SavesAreAccounted(SaverNext(s, es[0]).value, es[1..]);
    }
  }

  lemma SaverAccounts(s: Saver, e: SaverEvent)
    requires SaverNext(s, e).Some?
    ensures
      var t := SaverNext(s, e).value;
      var changed := e.RecordIt? || (e.CheckIt? && t.task != s.task);
      && t.task == Tracked(s.task, [e])
      && t.version == s.version + (if changed then 1 else 0)
      && t.owed == s.owed + (if changed then 1 else 0) - (if e == BeginSave then 1 else 0)
      && |t.writes| == |s.writes| + (if e == EndSave then 1 else 0)
      && (e == BeginSave ==> s.saving.None? && t.saving == Some((s.task, s.version)))
      && (e == EndSave ==> s.saving.Some? && t.saving.None? && t.stored == s.saving.value.0)
      && (e != BeginSave && e != EndSave ==> t.saving == s.saving)
  {
    assert [e][1..] == [];
    if e.CheckIt? {
      CheckSavesChanges(s.task, e.interval, e.now, e.bootUntil);
    }
  }
}
