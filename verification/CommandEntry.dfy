/** One command of the queue and the goroutines that write it to the store.

    Two locks guard an entry. `mu` guards its fields; every step below that touches them is one
    critical section of `mu`. `persistMu` spans snapshot, store write and event, so a write takes
    several steps and other goroutines run in between. */
module CommandEntry {
  import opened Wrappers
  import opened Measure

  datatype Status = Queued | Started | Completed | Failed | Aborted

  predicate IsFinal(s: Status) {
    s.Completed? || s.Failed? || s.Aborted?
  }

  /** What one store write, or one event, carries. */
  datatype Snapshot = Snapshot(status: Status, message: string)

  /** Progress is written at most once per second (nanoseconds). */
  const PROGRESS_INTERVAL := 1_000_000_000

  type Tid = nat

  /** The fields guarded by `mu`. A timer is named by the goroutine its callback runs on. */
  datatype Fields = Fields(
    status: Status, message: string, finished: bool, dirty: bool, lastFlush: int, timer: Option<Tid>)
  {
    function Snap(): Snapshot {
      Snapshot(status, message)
    }
  }

  // ----- The critical sections of mu, as functions of the fields -----

  datatype ProgressOutcome = Ignored | Coalesced | TimerSet | FlushNow

  /** The progress callback: remember the message, then flush now or leave it to a timer. */
  function ProgressFields(f: Fields, msg: string, now: int, spare: Tid): (Fields, ProgressOutcome) {
    if msg == "" || f.finished then
      (f, Ignored)
    else
      var g := f.(message := msg, dirty := true);
      if f.lastFlush + PROGRESS_INTERVAL - now > 0 then
        if f.timer.None? then (g.(timer := Some(spare)), TimerSet) else (g, Coalesced)
      else
        (g, FlushNow)
  }

  /** The first half of flushProgress: it takes the place of any timer still set. */
  function FlushFields(f: Fields, now: int): Fields {
    f.(timer := None, lastFlush := now)
  }

  /** What save does under mu; None is errSkipped. */
  function SaveFields(f: Fields, progressOnly: bool): (Fields, Option<Snapshot>) {
    if progressOnly && (f.finished || !f.dirty) then (f, None)
    else (f.(dirty := false), Some(f.Snap()))
  }

  function StartFields(f: Fields, now: int): Fields {
    f.(status := Started, lastFlush := now)
  }

  /** complete: the outcome is final from here on, whoever still holds an older snapshot. */
  function CompleteFields(f: Fields, outcome: Status, msg: string): Fields
    requires IsFinal(outcome)
  {
    f.(timer := None, finished := true, status := outcome, message := msg)
  }

  /** abortQueued leaves the timer alone: a command that never started has none. */
  function AbortFields(f: Fields, msg: string): Fields {
    f.(finished := true, status := Aborted, message := msg)
  }

  /** The entry as the program keeps it; each method is one critical section of mu. */
  class Entry {
    var status: Status
    var message: string
    var finished: bool
    var dirty: bool
    var lastFlush: int
    var timer: Option<Tid>

    function State(): Fields
      reads this
    {
      Fields(status, message, finished, dirty, lastFlush, timer)
    }

    constructor ()
      ensures State() == Fields(Queued, "", false, false, 0, None)
    {
      status, message, finished, dirty, lastFlush, timer := Queued, "", false, false, 0, None;
    }

    method Progress(msg: string, now: int, spare: Tid) returns (outcome: ProgressOutcome)
      modifies this
      ensures (State(), outcome) == ProgressFields(old(State()), msg, now, spare)
    {
      if msg == "" || finished {
        return Ignored;
      }
      message := msg;
      dirty := true;
      var wait := lastFlush + PROGRESS_INTERVAL - now;
      if wait > 0 {
        if timer == None {
          timer := Some(spare);
          return TimerSet;
        }
        return Coalesced;
      }
      return FlushNow;
    }

    method BeginFlush(now: int) returns (stopped: Option<Tid>)
      modifies this
      ensures stopped == old(timer) && State() == FlushFields(old(State()), now)
    {
      stopped := None;
      if timer != None {
        stopped := timer;
        timer := None;
      }
      lastFlush := now;
    }

    method TakeSnapshot(progressOnly: bool) returns (snap: Option<Snapshot>)
      modifies this
      ensures (State(), snap) == SaveFields(old(State()), progressOnly)
    {
      if progressOnly && (finished || !dirty) {
        return None;
      }
      dirty := false;
      snap := Some(Snapshot(status, message));
    }

    method MarkStarted(now: int)
      modifies this
      ensures State() == StartFields(old(State()), now)
    {
      status := Started;
      lastFlush := now;
    }

    method MarkComplete(outcome: Status, msg: string) returns (stopped: Option<Tid>)
      requires IsFinal(outcome)
      modifies this
      ensures stopped == old(timer) && State() == CompleteFields(old(State()), outcome, msg)
    {
      stopped := None;
      if timer != None {
        stopped := timer;
        timer := None;
      }
      finished := true;
      status := outcome;
      message := msg;
    }

    method MarkAborted(msg: string)
      modifies this
      ensures State() == AbortFields(old(State()), msg)
    {
      finished := true;
      status := Aborted;
      message := msg;
    }
  }

  // ----- Goroutines -----

  /** Why a goroutine calls save. */
  datatype Job = Start | Progress | Finish

  /** Where a goroutine goes after releasing persistMu. */
  datatype After = Gone | ToPublishStart(snap: Snapshot) | ToFailure

  datatype Pc =
    | TimerArmed                       // a timer that has not fired
    | FlushTop                         // about to enter flushProgress
    | Want(job: Job)                   // in save, waiting for persistMu
    | Holding(job: Job)                // holds persistMu, no snapshot yet
    | Writing(job: Job, snap: Snapshot)
    | Publishing(job: Job, snap: Snapshot)
    | Releasing(after: After)          // still holds persistMu
    | RunTop                           // run, before its first look at the context
    | PublishStart(snap: Snapshot)     // run publishes the start itself, after save returned
    | Invoking                         // the handler runs
    | Failure                          // run gives up before calling the handler

  /** The goroutine of run (or of shutdown, for a command that never runs). */
  const MAIN: Tid := 0

  datatype State = State(
    fields: Fields,
    persist: Option<Tid>,       // who holds persistMu
    threads: map<Tid, Pc>,
    handed: bool,               // the handler has its progress callback
    attempts: seq<Snapshot>,    // store writes, in order
    events: seq<Snapshot>,      // events, in order
    unannounced: seq<Snapshot>) // writes whose event is never sent: a start that failed to save

  function Initial(): State {
    State(Fields(Queued, "", false, false, 0, None), None, map[MAIN := RunTop], false, [], [], [])
  }

  datatype Event =
    | AbortQueued(msg: string)
    | BeginRun(now: int)
    | Acquire(t: Tid)
    | Snap(t: Tid)
    | Write(t: Tid, ok: bool)
    | Publish(t: Tid)
    | Release(t: Tid)
    | AnnounceStart(cancelled: bool)
    | CallProgress(t: Tid, msg: string, now: int)
    | Fire(t: Tid)
    | EnterFlush(t: Tid, now: int)
    | Complete(outcome: Status, msg: string)

  function At(s: State, t: Tid): Option<Pc> {
    if t in s.threads then Some(s.threads[t]) else None
  }

  /** Timer.Stop: a timer that has fired already runs its callback anyway. */
  function StopTimer(threads: map<Tid, Pc>, timer: Option<Tid>): map<Tid, Pc> {
    if timer.Some? && timer.value in threads && threads[timer.value].TimerArmed?
    then threads - {timer.value} else threads
  }

  /** One step, or None when it is not enabled. */
  function Next(s: State, e: Event): Option<State> {
    match e
    case AbortQueued(msg) =>
      if At(s, MAIN) != Some(RunTop) then None
      else Some(s.(fields := AbortFields(s.fields, msg), threads := s.threads[MAIN := Want(Finish)]))
    case BeginRun(now) =>
      if At(s, MAIN) != Some(RunTop) then None
      else Some(s.(fields := StartFields(s.fields, now), threads := s.threads[MAIN := Want(Start)]))
    case Acquire(t) =>
      if t !in s.threads || !s.threads[t].Want? || s.persist.Some? then None
      else Some(s.(persist := Some(t), threads := s.threads[t := Holding(s.threads[t].job)]))
    case Snap(t) =>
      if t !in s.threads || !s.threads[t].Holding? then None
      else
        var job := s.threads[t].job;
        var (f, snap) := SaveFields(s.fields, job.Progress?);
        var pc := if snap.Some? then Writing(job, snap.value) else Releasing(Gone);
        Some(s.(fields := f, threads := s.threads[t := pc]))
    case Write(t, ok) =>
      if t !in s.threads || !s.threads[t].Writing? then None
      else
        var Writing(job, snap) := s.threads[t];
        var attempts := s.attempts + [snap];
        if !job.Start? then
          Some(s.(attempts := attempts, threads := s.threads[t := Publishing(job, snap)]))
        else if ok then
          Some(s.(attempts := attempts, threads := s.threads[t := Releasing(ToPublishStart(snap))]))
        else
          Some(s.(attempts := attempts, unannounced := s.unannounced + [snap],
                  threads := s.threads[t := Releasing(ToFailure)]))
    case Publish(t) =>
      if t !in s.threads || !s.threads[t].Publishing? then None
      else Some(s.(events := s.events + [s.threads[t].snap], threads := s.threads[t := Releasing(Gone)]))
    case Release(t) =>
      if t !in s.threads || !s.threads[t].Releasing? then None
      else
        Some(s.(persist := None,
                threads := match s.threads[t].after
                           case Gone => s.threads - {t}
                           case ToPublishStart(snap) => s.threads[t := PublishStart(snap)]
                           case ToFailure => s.threads[t := Failure]))
    case AnnounceStart(cancelled) =>
      if MAIN !in s.threads || !s.threads[MAIN].PublishStart? then None
      else
        var announced := s.(events := s.events + [s.threads[MAIN].snap]);
        if cancelled then Some(announced.(threads := s.threads[MAIN := Failure]))
        else Some(announced.(threads := s.threads[MAIN := Invoking], handed := true))
    case CallProgress(t, msg, now) =>
      if !s.handed || t in s.threads || t == MAIN then None
      else
        var (f, outcome) := ProgressFields(s.fields, msg, now, t);
        (match outcome
         case Ignored => Some(s.(fields := f))
         case Coalesced => Some(s.(fields := f))
         case TimerSet => Some(s.(fields := f, threads := s.threads[t := TimerArmed]))
         case FlushNow => Some(s.(fields := f, threads := s.threads[t := FlushTop])))
    case Fire(t) =>
      if At(s, t) != Some(TimerArmed) then None
      else Some(s.(threads := s.threads[t := FlushTop]))
    case EnterFlush(t, now) =>
      if At(s, t) != Some(FlushTop) then None
      else Some(s.(fields := FlushFields(s.fields, now),
                   threads := StopTimer(s.threads, s.fields.timer)[t := Want(Progress)]))
    case Complete(outcome, msg) =>
      if !IsFinal(outcome) || (At(s, MAIN) != Some(Invoking) && At(s, MAIN) != Some(Failure)) then None
      else Some(s.(fields := CompleteFields(s.fields, outcome, msg),
                   threads := StopTimer(s.threads, s.fields.timer)[MAIN := Want(Finish)]))
  }

  /** The state after a sequence of steps; None when one of them was not enabled. */
  function Run(es: seq<Event>): Option<State> {
    if es == [] then Some(Initial())
    else
      var before := Run(es[..|es| - 1]);
      if before.None? then None else Next(before.value, es[|es| - 1])
  }

  // ----- The invariant -----

  predicate HoldsLock(pc: Pc) {
    pc.Holding? || pc.Writing? || pc.Publishing? || pc.Releasing?
  }

  ghost predicate LockInv(s: State) {
    && (forall t :: t in s.threads && HoldsLock(s.threads[t]) ==> s.persist == Some(t))
    && (s.persist.Some? ==> s.persist.value in s.threads && HoldsLock(s.threads[s.persist.value]))
  }

  /** Which program points belong to run's goroutine, and which to flushes and timers. */
  predicate MainPc(pc: Pc) {
    match pc
    case TimerArmed => false
    case FlushTop => false
    case Want(job) => !job.Progress?
    case Holding(job) => !job.Progress?
    case Writing(job, _) => !job.Progress?
    case Publishing(job, _) => job.Finish?
    case Releasing(_) => true
    case RunTop => true
    case PublishStart(_) => true
    case Invoking => true
    case Failure => true
  }

  predicate FlushPc(pc: Pc) {
    match pc
    case TimerArmed => true
    case FlushTop => true
    case Want(job) => job.Progress?
    case Holding(job) => job.Progress?
    case Writing(job, _) => job.Progress?
    case Publishing(job, _) => job.Progress?
    case Releasing(after) => after.Gone?
    case _ => false
  }

  ghost predicate RoleInv(s: State) {
    && (MAIN in s.threads ==> MainPc(s.threads[MAIN]))
    && (forall t :: t in s.threads && t != MAIN ==> FlushPc(s.threads[t]))
  }

  /** Nothing but run's own goroutine exists before the handler is called. */
  ghost predicate HandedInv(s: State) {
    && (!s.handed ==> s.threads.Keys <= {MAIN} && !s.fields.dirty && s.fields.timer.None?)
    && (At(s, MAIN) == Some(Invoking) ==> s.handed)
    && (MAIN in s.threads && !Finishing(s) && !s.threads[MAIN].Invoking? ==> !s.handed)
  }

  ghost predicate TimerInv(s: State) {
    && (s.fields.timer.Some? ==>
          && s.fields.timer.value in s.threads
          && (s.threads[s.fields.timer.value].TimerArmed? || s.threads[s.fields.timer.value].FlushTop?))
    && (forall t :: t in s.threads && s.threads[t].TimerArmed? ==> s.fields.timer == Some(t))
  }

  /** run's goroutine is past the point where the outcome was decided. */
  predicate Finishing(s: State) {
    MAIN !in s.threads ||
    match s.threads[MAIN]
    case Want(job) => job.Finish?
    case Holding(job) => job.Finish?
    case Writing(job, _) => job.Finish?
    case Publishing(job, _) => true
    case Releasing(after) => after.Gone?
    case _ => false
  }

  /** ... and past the store write of that outcome. */
  predicate FinalWritten(s: State) {
    MAIN !in s.threads || s.threads[MAIN].Publishing? || s.threads[MAIN] == Releasing(Gone)
  }

  ghost predicate FinishInv(s: State) {
    && (s.fields.finished <==> Finishing(s))
    && (s.fields.finished <==> IsFinal(s.fields.status))
  }

  ghost predicate WriteInv(s: State) {
    && (forall i :: 0 <= i < |s.attempts| && IsFinal(s.attempts[i].status) ==> FinalWritten(s) && i == |s.attempts| - 1)
    && (FinalWritten(s) ==> s.attempts != [] && s.attempts[|s.attempts| - 1] == s.fields.Snap())
    && (forall t :: t in s.threads && s.threads[t].Writing? ==>
          if s.threads[t].job.Finish? then s.threads[t].snap == s.fields.Snap()
          else !IsFinal(s.threads[t].snap.status) && !FinalWritten(s))
    && (At(s, MAIN).Some? && At(s, MAIN).value.Publishing? ==> At(s, MAIN).value.snap == s.fields.Snap())
  }

  /** The write whose event is still to come. */
  function InFlight(s: State): seq<Snapshot> {
    if s.persist.Some? && s.persist.value in s.threads && s.threads[s.persist.value].Publishing? then
      [s.threads[s.persist.value].snap]
    else if MAIN in s.threads && s.threads[MAIN].PublishStart? then
      [s.threads[MAIN].snap]
    else if MAIN in s.threads && s.threads[MAIN].Releasing? && s.threads[MAIN].after.ToPublishStart? then
      [s.threads[MAIN].after.snap]
    else []
  }

  ghost predicate EventInv(s: State) {
    && s.attempts == s.unannounced + s.events + InFlight(s)
    && |s.unannounced| <= 1
    && (s.unannounced != [] ==> !s.handed && s.events + InFlight(s) == (if FinalWritten(s) then [s.fields.Snap()] else []))
    && (MAIN in s.threads && BeforeStartWrite(s.threads[MAIN]) ==> s.attempts == [])
  }

  predicate BeforeStartWrite(pc: Pc) {
    pc.RunTop? || ((pc.Want? || pc.Holding? || pc.Writing?) && pc.job.Start?)
  }

  /** A goroutine that will still take a snapshot of the current message. */
  predicate Covers(pc: Pc) {
    pc.TimerArmed? || pc.FlushTop? || ((pc.Want? || pc.Holding?) && pc.job.Progress?)
  }

  ghost predicate CoverInv(s: State) {
    s.fields.dirty && !s.fields.finished ==> exists t :: t in s.threads && Covers(s.threads[t])
  }

  /** The most recent snapshot taken, written or about to be. */
  function Latest(s: State): Option<Snapshot> {
    if s.persist.Some? && s.persist.value in s.threads && s.threads[s.persist.value].Writing? then
      Some(s.threads[s.persist.value].snap)
    else if s.attempts != [] then Some(s.attempts[|s.attempts| - 1])
    else None
  }

  ghost predicate FreshInv(s: State) {
    s.handed && !s.fields.dirty && !s.fields.finished ==> Latest(s) == Some(s.fields.Snap())
  }

  /** From the start record's snapshot until the handler is called nothing changes the fields. */
  ghost predicate StartInv(s: State) {
    && (MAIN in s.threads && s.threads[MAIN].Writing? && s.threads[MAIN].job.Start? ==>
          s.threads[MAIN].snap == s.fields.Snap())
    && (MAIN in s.threads && s.threads[MAIN].Releasing? && s.threads[MAIN].after.ToPublishStart? ==>
          s.threads[MAIN].after.snap == s.fields.Snap())
    && (MAIN in s.threads && s.threads[MAIN].PublishStart? ==> s.threads[MAIN].snap == s.fields.Snap())
  }

  /** Who is where. */
  ghost predicate Roles(s: State) {
    LockInv(s) && RoleInv(s) && HandedInv(s) && TimerInv(s) && FinishInv(s) && CoverInv(s)
  }

  /** What was written and published. */
  ghost predicate Writes(s: State) {
    WriteInv(s) && EventInv(s) && FreshInv(s) && StartInv(s)
  }

  ghost predicate Inv(s: State) {
    Roles(s) && Writes(s)
  }

  // ----- Every step keeps the invariant -----

  lemma InitialInv()
    ensures Inv(Initial())
  {
  }

  /** A goroutine that covered the message before the step and is not the one that moved. */
  lemma CoverStays(s: State, n: State)
    requires CoverInv(s)
    requires n.fields.dirty && !n.fields.finished ==> s.fields.dirty && !s.fields.finished
    requires forall t :: t in s.threads && Covers(s.threads[t]) ==> t in n.threads && Covers(n.threads[t])
    ensures CoverInv(n)
  {
    if n.fields.dirty && !n.fields.finished {
      var t :| t in s.threads && Covers(s.threads[t]);
      assert t in n.threads && Covers(n.threads[t]);
    }
  }

  lemma KeepAbortQueued(s: State, e: Event)
    requires Inv(s) && e.AbortQueued? && Next(s, e).Some?
    ensures Inv(Next(s, e).value)
  {
    var n := Next(s, e).value;
  }

  lemma KeepBeginRun(s: State, e: Event)
    requires Inv(s) && e.BeginRun? && Next(s, e).Some?
    ensures Inv(Next(s, e).value)
  {
    var n := Next(s, e).value;
  }

  lemma KeepAcquireRoles(s: State, e: Event)
    requires Inv(s) && e.Acquire? && Next(s, e).Some?
    ensures Roles(Next(s, e).value)
  {
    hide WriteInv, EventInv, FreshInv, StartInv;
    var n := Next(s, e).value;
    CoverStays(s, n);
  }

  lemma KeepAcquireWrites(s: State, e: Event)
    requires Inv(s) && e.Acquire? && Next(s, e).Some?
    ensures Writes(Next(s, e).value)
  {
    KeepAcquireRoles(s, e);
    hide TimerInv, CoverInv;
  }

  lemma KeepAcquire(s: State, e: Event)
    requires Inv(s) && e.Acquire? && Next(s, e).Some?
    ensures Inv(Next(s, e).value)
  {
    hide Roles, Writes, Next;
    KeepAcquireRoles(s, e);
    KeepAcquireWrites(s, e);
  }

  lemma KeepSnapRoles(s: State, e: Event)
    requires Inv(s) && e.Snap? && Next(s, e).Some?
    ensures Roles(Next(s, e).value)
  {
    hide WriteInv, EventInv, FreshInv, StartInv;
    var n := Next(s, e).value;
  }

  lemma KeepSnapFinal(s: State, e: Event)
    requires Inv(s) && e.Snap? && Next(s, e).Some?
    ensures WriteInv(Next(s, e).value) && StartInv(Next(s, e).value)
  {
    hide TimerInv, CoverInv, EventInv, FreshInv;
  }

  lemma KeepSnapEvents(s: State, e: Event)
    requires Inv(s) && e.Snap? && Next(s, e).Some?
    ensures EventInv(Next(s, e).value) && FreshInv(Next(s, e).value)
  {
    hide TimerInv, CoverInv, StartInv, FinishInv;
  }

  lemma KeepSnapWrites(s: State, e: Event)
    requires Inv(s) && e.Snap? && Next(s, e).Some?
    ensures Writes(Next(s, e).value)
  {
    hide Next, Inv, WriteInv, StartInv, EventInv, FreshInv;
    KeepSnapFinal(s, e);
    KeepSnapEvents(s, e);
  }

  lemma KeepSnap(s: State, e: Event)
    requires Inv(s) && e.Snap? && Next(s, e).Some?
    ensures Inv(Next(s, e).value)
  {
    hide Roles, Writes, Next;
    KeepSnapRoles(s, e);
    KeepSnapWrites(s, e);
  }

  lemma KeepWriteRoles(s: State, e: Event)
    requires Inv(s) && e.Write? && Next(s, e).Some?
    ensures Roles(Next(s, e).value)
  {
    hide WriteInv, EventInv, FreshInv, StartInv;
    var n := Next(s, e).value;
    CoverStays(s, n);
  }

  lemma KeepWriteFinal(s: State, e: Event)
    requires Inv(s) && e.Write? && Next(s, e).Some?
    ensures WriteInv(Next(s, e).value) && StartInv(Next(s, e).value)
  {
    hide TimerInv, CoverInv, EventInv, FreshInv;
  }

  lemma KeepWriteEvents(s: State, e: Event)
    requires Inv(s) && e.Write? && Next(s, e).Some?
    ensures EventInv(Next(s, e).value)
  {
    KeepWriteFinal(s, e);
    hide TimerInv, CoverInv, StartInv, FreshInv, WriteInv, FinishInv;
    var n, pc := Next(s, e).value, s.threads[e.t];
    assert s.persist == Some(e.t) && InFlight(s) == [];
    assert n.attempts == s.attempts + [pc.snap];
    assert pc.job.Start? ==> e.t == MAIN && s.attempts == [];
    assert n.unannounced + n.events + InFlight(n) == s.unannounced + s.events + [pc.snap];
  }

  lemma KeepWriteWrites(s: State, e: Event)
    requires Inv(s) && e.Write? && Next(s, e).Some?
    ensures Writes(Next(s, e).value)
  {
    KeepWriteFinal(s, e);
    KeepWriteEvents(s, e);
    hide TimerInv, CoverInv, StartInv, RoleInv, WriteInv, EventInv;
  }

  lemma KeepWrite(s: State, e: Event)
    requires Inv(s) && e.Write? && Next(s, e).Some?
    ensures Inv(Next(s, e).value)
  {
    hide Roles, Writes, Next;
    KeepWriteRoles(s, e);
    KeepWriteWrites(s, e);
  }

  lemma KeepPublishRoles(s: State, e: Event)
    requires Inv(s) && e.Publish? && Next(s, e).Some?
    ensures Roles(Next(s, e).value)
  {
    hide WriteInv, EventInv, FreshInv, StartInv;
    var n := Next(s, e).value;
    CoverStays(s, n);
  }

  lemma KeepPublishFinal(s: State, e: Event)
    requires Inv(s) && e.Publish? && Next(s, e).Some?
    ensures WriteInv(Next(s, e).value) && StartInv(Next(s, e).value)
  {
    hide TimerInv, CoverInv, EventInv, FreshInv;
  }

  lemma KeepPublishEvents(s: State, e: Event)
    requires Inv(s) && e.Publish? && Next(s, e).Some?
    ensures EventInv(Next(s, e).value) && FreshInv(Next(s, e).value)
  {
    hide TimerInv, CoverInv, StartInv, FinishInv;
  }

  lemma KeepPublishWrites(s: State, e: Event)
    requires Inv(s) && e.Publish? && Next(s, e).Some?
    ensures Writes(Next(s, e).value)
  {
    hide Next, Inv, WriteInv, StartInv, EventInv, FreshInv;
    KeepPublishFinal(s, e);
    KeepPublishEvents(s, e);
  }

  lemma KeepPublish(s: State, e: Event)
    requires Inv(s) && e.Publish? && Next(s, e).Some?
    ensures Inv(Next(s, e).value)
  {
    hide Roles, Writes, Next;
    KeepPublishRoles(s, e);
    KeepPublishWrites(s, e);
  }

  lemma KeepReleaseRoles(s: State, e: Event)
    requires Inv(s) && e.Release? && Next(s, e).Some?
    ensures Roles(Next(s, e).value)
  {
    hide WriteInv, EventInv, FreshInv, StartInv;
    var n := Next(s, e).value;
    CoverStays(s, n);
  }

  lemma KeepReleaseEvents(s: State, e: Event)
    requires Inv(s) && e.Release? && Next(s, e).Some?
    ensures EventInv(Next(s, e).value) && StartInv(Next(s, e).value)
  {
    hide TimerInv, CoverInv, FreshInv, WriteInv;
    assert InFlight(Next(s, e).value) == InFlight(s);
  }

  lemma KeepReleaseFinal(s: State, e: Event)
    requires Inv(s) && e.Release? && Next(s, e).Some?
    ensures WriteInv(Next(s, e).value) && FreshInv(Next(s, e).value)
  {
    hide TimerInv, CoverInv, EventInv, StartInv;
    assert Latest(Next(s, e).value) == Latest(s) && FinalWritten(Next(s, e).value) == FinalWritten(s);
  }

  lemma KeepRelease(s: State, e: Event)
    requires Inv(s) && e.Release? && Next(s, e).Some?
    ensures Inv(Next(s, e).value)
  {
    hide Roles, Next, WriteInv, StartInv, EventInv, FreshInv;
    KeepReleaseRoles(s, e);
    KeepReleaseEvents(s, e);
    KeepReleaseFinal(s, e);
  }

  lemma KeepAnnounceStartRoles(s: State, e: Event)
    requires Inv(s) && e.AnnounceStart? && Next(s, e).Some?
    ensures Roles(Next(s, e).value)
  {
    hide WriteInv, EventInv, FreshInv, StartInv;
  }

  lemma KeepAnnounceStartWrites(s: State, e: Event)
    requires Inv(s) && e.AnnounceStart? && Next(s, e).Some?
    ensures Writes(Next(s, e).value)
  {
    KeepAnnounceStartRoles(s, e);
    hide TimerInv, CoverInv;
  }

  lemma KeepAnnounceStart(s: State, e: Event)
    requires Inv(s) && e.AnnounceStart? && Next(s, e).Some?
    ensures Inv(Next(s, e).value)
  {
    hide Roles, Writes, Next;
    KeepAnnounceStartRoles(s, e);
    KeepAnnounceStartWrites(s, e);
  }

  lemma KeepCallProgressRoles(s: State, e: Event)
    requires Inv(s) && e.CallProgress? && Next(s, e).Some?
    ensures Roles(Next(s, e).value)
  {
    hide WriteInv, EventInv, FreshInv, StartInv;
    var n := Next(s, e).value;
    var outcome := ProgressFields(s.fields, e.msg, e.now, e.t).1;
    match outcome {
      case Ignored => CoverStays(s, n);
      case Coalesced => assert s.fields.timer.value in n.threads;
      case TimerSet => assert e.t in n.threads;
      case FlushNow => assert e.t in n.threads;
    }
  }

  /** From `s` to `n` only flushes and timers that hold no lock came, went or moved. */
  ghost predicate Bystanders(s: State, n: State) {
    && n.persist == s.persist && n.handed == s.handed
    && n.attempts == s.attempts && n.events == s.events && n.unannounced == s.unannounced
    && (forall t :: t in s.threads && (t == MAIN || HoldsLock(s.threads[t])) ==> t in n.threads && n.threads[t] == s.threads[t])
    && (forall t :: t in n.threads && (t == MAIN || HoldsLock(n.threads[t])) ==> t in s.threads && s.threads[t] == n.threads[t])
  }

  /** What was written and published is theirs to leave alone; a new message may make the entry dirty. */
  lemma BystandersKeepWrites(s: State, n: State)
    requires Inv(s) && Bystanders(s, n)
    requires n.fields.finished == s.fields.finished && n.fields.status == s.fields.status
    requires (n.fields.Snap() == s.fields.Snap() && n.fields.dirty == s.fields.dirty)
             || (n.fields.dirty && s.handed && !s.fields.finished)
    ensures Writes(n)
  {
    assert InFlight(n) == InFlight(s);
    hide EventInv, LockInv, CoverInv, TimerInv, InFlight;
    assert Latest(n) == Latest(s) && FinalWritten(n) == FinalWritten(s);
  }

  lemma KeepCallProgressWrites(s: State, e: Event)
    requires Inv(s) && e.CallProgress? && Next(s, e).Some?
    ensures Writes(Next(s, e).value)
  {
    CallProgressBystands(s, e);
    hide Next, Roles, Writes, Bystanders, ProgressFields;
    BystandersKeepWrites(s, Next(s, e).value);
  }

  lemma CallProgressBystands(s: State, e: Event)
    requires e.CallProgress? && Next(s, e).Some?
    ensures
      var n := Next(s, e).value;
      && Bystanders(s, n)
      && n.fields.finished == s.fields.finished && n.fields.status == s.fields.status
      && ((n.fields.Snap() == s.fields.Snap() && n.fields.dirty == s.fields.dirty)
          || (n.fields.dirty && s.handed && !s.fields.finished))
  {
  }

  lemma KeepCallProgress(s: State, e: Event)
    requires Inv(s) && e.CallProgress? && Next(s, e).Some?
    ensures Inv(Next(s, e).value)
  {
    hide Roles, Writes, Next;
    KeepCallProgressRoles(s, e);
    KeepCallProgressWrites(s, e);
  }

  lemma KeepFire(s: State, e: Event)
    requires Inv(s) && e.Fire? && Next(s, e).Some?
    ensures Inv(Next(s, e).value)
  {
    CoverStays(s, Next(s, e).value);
  }

  lemma KeepEnterFlushRoles(s: State, e: Event)
    requires Inv(s) && e.EnterFlush? && Next(s, e).Some?
    ensures Roles(Next(s, e).value)
  {
    hide WriteInv, EventInv, FreshInv, StartInv;
    var n := Next(s, e).value;
    assert s.threads[e.t].FlushTop? && n.threads[e.t] == Want(Progress);
    assert e.t in n.threads && Covers(n.threads[e.t]);
  }

  lemma KeepEnterFlushWrites(s: State, e: Event)
    requires Inv(s) && e.EnterFlush? && Next(s, e).Some?
    ensures Writes(Next(s, e).value)
  {
    assert e.t != MAIN;
    EnterFlushBystands(s, e);
    hide Next, Roles, Writes, Bystanders;
    BystandersKeepWrites(s, Next(s, e).value);
  }

  lemma EnterFlushBystands(s: State, e: Event)
    requires RoleInv(s) && e.EnterFlush? && e.t != MAIN && Next(s, e).Some?
    ensures
      var n := Next(s, e).value;
      && Bystanders(s, n) && n.fields.finished == s.fields.finished && n.fields.status == s.fields.status
      && n.fields.Snap() == s.fields.Snap() && n.fields.dirty == s.fields.dirty
  {
    assert MAIN in s.threads ==> !s.threads[MAIN].TimerArmed?;
  }

  lemma KeepEnterFlush(s: State, e: Event)
    requires Inv(s) && e.EnterFlush? && Next(s, e).Some?
    ensures Inv(Next(s, e).value)
  {
    hide Roles, Writes, Next;
    KeepEnterFlushRoles(s, e);
    KeepEnterFlushWrites(s, e);
  }

  lemma KeepCompleteRoles(s: State, e: Event)
    requires Inv(s) && e.Complete? && Next(s, e).Some?
    ensures Roles(Next(s, e).value)
  {
    hide WriteInv, EventInv, FreshInv, StartInv;
    var n := Next(s, e).value;
  }

  lemma CompleteIs(s: State, e: Event)
    requires e.Complete? && Next(s, e).Some?
    ensures
      var n := Next(s, e).value;
      && MAIN in s.threads && (s.threads[MAIN].Invoking? || s.threads[MAIN].Failure?)
      && MAIN in n.threads && n.threads[MAIN] == Want(Finish)
      && (forall t <- n.threads | t != MAIN :: t in s.threads && n.threads[t] == s.threads[t])
      && (forall t <- s.threads | t !in n.threads :: s.threads[t].TimerArmed?)
      && n.persist == s.persist && n.handed == s.handed
      && n.attempts == s.attempts && n.events == s.events && n.unannounced == s.unannounced
      && n.fields.finished && IsFinal(n.fields.status)
  {
  }

  lemma KeepCompleteWrites(s: State, e: Event)
    requires Inv(s) && e.Complete? && Next(s, e).Some?
    ensures Writes(Next(s, e).value)
  {
    CompleteIs(s, e);
    KeepCompleteRoles(s, e);
    hide Next, StopTimer, TimerInv, CoverInv, HandedInv;
  }

  lemma KeepComplete(s: State, e: Event)
    requires Inv(s) && e.Complete? && Next(s, e).Some?
    ensures Inv(Next(s, e).value)
  {
    hide Roles, Writes, Next;
    KeepCompleteRoles(s, e);
    KeepCompleteWrites(s, e);
  }

  lemma KeepInv(s: State, e: Event)
    requires Inv(s) && Next(s, e).Some?
    ensures Inv(Next(s, e).value)
  {
    hide Roles, Writes, Next;
    match e
    case AbortQueued(_) => KeepAbortQueued(s, e);
    case BeginRun(_) => KeepBeginRun(s, e);
    case Acquire(_) => KeepAcquire(s, e);
    case Snap(_) => KeepSnap(s, e);
    case Write(_, _) => KeepWrite(s, e);
    case Publish(_) => KeepPublish(s, e);
    case Release(_) => KeepRelease(s, e);
    case AnnounceStart(_) => KeepAnnounceStart(s, e);
    case CallProgress(_, _, _) => KeepCallProgress(s, e);
    case Fire(_) => KeepFire(s, e);
    case EnterFlush(_, _) => KeepEnterFlush(s, e);
    case Complete(_, _) => KeepComplete(s, e);
  }

  lemma {:induction false} RunInv(es: seq<Event>)
    ensures Run(es).Some? ==> Inv(Run(es).value)
    decreases |es|
  {
    if es == [] {
      InitialInv();
    } else {
      RunInv(es[..|es| - 1]);
      if Run(es).Some? {
        KeepInv(Run(es[..|es| - 1]).value, es[|es| - 1]);
      }
    }
  }

  // ----- What the protocol is for -----

  lemma StepAppends(s: State, e: Event)
    requires Next(s, e).Some?
    ensures s.attempts <= Next(s, e).value.attempts
  {
  }

  /** Writes are only ever appended. */
  lemma {:induction false} AttemptsGrow(es: seq<Event>, more: seq<Event>)
    requires Run(es + more).Some?
    ensures Run(es).Some? && Run(es).value.attempts <= Run(es + more).value.attempts
    decreases |more|
  {
    hide Next;
    if more == [] {
      assert es + more == es;
    } else {
      var all := es + more;
      assert all[..|all| - 1] == es + more[..|more| - 1];
      AttemptsGrow(es, more[..|more| - 1]);
      StepAppends(Run(all[..|all| - 1]).value, all[|all| - 1]);
    }
  }

  /** Whatever the interleaving, a final state once written is the last write of the command: it
      was the outcome decided, and no goroutine writes anything after it. */
  lemma FinalWriteIsLast(es: seq<Event>, more: seq<Event>, i: nat)
    requires Run(es + more).Some?
    requires Run(es).Some? && i < |Run(es).value.attempts| && IsFinal(Run(es).value.attempts[i].status)
    ensures i == |Run(es).value.attempts| - 1
    ensures Run(es + more).value.attempts == Run(es).value.attempts
    ensures Run(es).value.attempts[i] == Run(es + more).value.fields.Snap()
  {
    AttemptsGrow(es, more);
    RunInv(es);
    RunInv(es + more);
    FinalIsLastOf(Run(es).value, Run(es + more).value, i);
    hide *;
  }

  lemma FinalIsLastOf(a: State, b: State, i: nat)
    requires Inv(a) && Inv(b) && a.attempts <= b.attempts
    requires i < |a.attempts| && IsFinal(a.attempts[i].status)
    ensures i == |a.attempts| - 1 && b.attempts == a.attempts && a.attempts[i] == b.fields.Snap()
  {
    assert b.attempts[i] == a.attempts[i];
  }

  /** Events leave in the order of the writes and never overtake them: at any moment the events are
      the writes but for at most one whose event is still to come, and the start record of a command
      that could not record its start and therefore never ran. */
  lemma EventsFollowWrites(es: seq<Event>)
    requires Run(es).Some?
    ensures var s := Run(es).value;
            && s.attempts == s.unannounced + s.events + InFlight(s)
            && |InFlight(s)| <= 1 && |s.unannounced| <= 1
            && (s.unannounced != [] ==> !s.handed)
  {
    RunInv(es);
  }

  /** Once every goroutine has returned, exactly one final state was written, last, and it was
      published last. */
  lemma SettledOutcome(es: seq<Event>)
    requires Run(es).Some? && Run(es).value.threads == map[]
    ensures var s := Run(es).value;
            && s.attempts != [] && s.events != []
            && s.attempts[|s.attempts| - 1] == s.events[|s.events| - 1] == s.fields.Snap()
            && IsFinal(s.fields.status)
            && forall i :: 0 <= i < |s.attempts| - 1 ==> !IsFinal(s.attempts[i].status)
  {
    RunInv(es);
    var s := Run(es).value;
    assert InFlight(s) == [];
    assert s.attempts == s.unannounced + s.events;
  }

  /** The latest message is never lost. While the command is unfinished, an unwritten message has a
      pending timer or a flush that will still take a snapshot of it; and when no timer or flush is
      left, what was last written and published is the current message. */
  lemma LatestMessageNotLost(es: seq<Event>)
    requires Run(es).Some? && !Run(es).value.fields.finished
    ensures var s := Run(es).value;
            s.fields.dirty ==> exists t :: t in s.threads && Covers(s.threads[t])
    ensures var s := Run(es).value;
            s.threads == map[MAIN := Invoking] ==>
              && s.attempts != [] && s.attempts[|s.attempts| - 1] == s.fields.Snap()
              && s.events == s.attempts
  {
    RunInv(es);
    var s := Run(es).value;
    if s.threads == map[MAIN := Invoking] {
      assert s.threads[MAIN].Invoking?;
      assert s.persist.None?;
      assert !s.fields.dirty;
      assert s.attempts == s.unannounced + s.events + InFlight(s);
    }
  }

  /** Neither lock can deadlock: as long as a goroutine or timer is left, some step other than a new
      progress call is enabled. */
  lemma NeverStuck(es: seq<Event>)
    requires Run(es).Some? && Run(es).value.threads != map[]
    ensures exists e: Event :: !e.CallProgress? && Next(Run(es).value, e).Some?
  {
    RunInv(es);
    var s := Run(es).value;
    if s.persist.Some? {
      EnabledAt(s, s.persist.value);
    } else {
      var t :| t in s.threads;
      EnabledAt(s, t);
    }
  }

  lemma EnabledAt(s: State, t: Tid)
    requires Inv(s) && t in s.threads
    requires s.threads[t].Want? ==> s.persist.None?
    ensures exists e: Event :: !e.CallProgress? && Next(s, e).Some?
  {
    if HoldsLock(s.threads[t]) {
      HolderGoesOn(s, t);
    } else if t == MAIN {
      MainGoesOn(s);
    } else {
      match s.threads[t]
      case TimerArmed => assert Next(s, Fire(t)).Some?;
      case FlushTop => assert Next(s, EnterFlush(t, 0)).Some?;
      case Want(_) => assert Next(s, Acquire(t)).Some?;
    }
  }

  lemma HolderGoesOn(s: State, t: Tid)
    requires t in s.threads && HoldsLock(s.threads[t])
    ensures exists e: Event :: !e.CallProgress? && Next(s, e).Some?
  {
    match s.threads[t]
    case Holding(_) => assert Next(s, Snap(t)).Some?;
    case Writing(_, _) => assert Next(s, Write(t, true)).Some?;
    case Publishing(_, _) => assert Next(s, Publish(t)).Some?;
    case Releasing(_) => assert Next(s, Release(t)).Some?;
  }

  lemma MainGoesOn(s: State)
    requires MAIN in s.threads && MainPc(s.threads[MAIN]) && !HoldsLock(s.threads[MAIN])
    requires s.threads[MAIN].Want? ==> s.persist.None?
    ensures exists e: Event :: !e.CallProgress? && Next(s, e).Some?
  {
    match s.threads[MAIN]
    case Want(_) => assert Next(s, Acquire(MAIN)).Some?;
    case RunTop => assert Next(s, BeginRun(0)).Some?;
    case PublishStart(_) => assert Next(s, AnnounceStart(false)).Some?;
    case Invoking => assert Next(s, Complete(Completed, "")).Some?;
    case Failure => assert Next(s, Complete(Completed, "")).Some?;
  }

  // ----- How long that can take -----

  /** How many steps a goroutine, or a timer, can still take at most. */
  function PcLeft(pc: Pc): nat {
    match pc
    case RunTop => 12
    case Want(job) => if job.Start? then 11 else 5
    case Holding(job) => if job.Start? then 10 else 4
    case Writing(job, _) => if job.Start? then 9 else 3
    case Publishing(_, _) => 2
    case Releasing(after) => if after.Gone? then 1 else 8
    case PublishStart(_) => 7
    case Invoking => 6
    case Failure => 6
    case TimerArmed => 7
    case FlushTop => 6
  }

  ghost function Left(threads: map<Tid, Pc>, t: Tid): nat {
    if t in threads then PcLeft(threads[t]) else 0
  }

  ghost function Todo(threads: map<Tid, Pc>, n: nat): nat {
    Total((t: Tid) => Left(threads, t), n)
  }

  /** One goroutine moves on, and no other has more to do than before. */
  ghost predicate MovesOn(was: map<Tid, Pc>, now: map<Tid, Pc>, t: Tid) {
    && now.Keys <= was.Keys && Left(now, t) < Left(was, t)
    && forall u :: Left(now, u) <= Left(was, u)
  }

  lemma Replaced(was: map<Tid, Pc>, t: Tid, to: Pc)
    requires t in was && PcLeft(to) < PcLeft(was[t])
    ensures MovesOn(was, was[t := to], t)
  {
    hide PcLeft;
  }

  lemma StoppedAndReplaced(was: map<Tid, Pc>, timer: Option<Tid>, t: Tid, to: Pc)
    requires t in was && PcLeft(to) < PcLeft(was[t])
    ensures MovesOn(was, StopTimer(was, timer)[t := to], t)
  {
    hide PcLeft;
  }

  lemma ShrinksKeys(was: map<Tid, Pc>, now: map<Tid, Pc>, t: Tid)
    requires MovesOn(was, now, t)
    ensures now.Keys <= was.Keys
  {
  }

  lemma TodoShrinks(was: map<Tid, Pc>, now: map<Tid, Pc>, t: Tid, n: nat)
    requires MovesOn(was, now, t) && t < n
    ensures Todo(now, n) < Todo(was, n)
  {
    hide Left;
    TotalShrinks((u: Tid) => Left(was, u), (u: Tid) => Left(now, u), n, t);
  }

  /** The goroutine whose step it is. */
  function Whose(e: Event): Tid {
    match e
    case Acquire(t) => t
    case Snap(t) => t
    case Write(t, _) => t
    case Publish(t) => t
    case Release(t) => t
    case CallProgress(t, _, _) => t
    case Fire(t) => t
    case EnterFlush(t, _) => t
    case _ => MAIN
  }

  lemma StepMovesOn(s: State, e: Event)
    requires Inv(s) && !e.CallProgress? && Next(s, e).Some?
    ensures Whose(e) in s.threads && MovesOn(s.threads, Next(s, e).value.threads, Whose(e))
  {
    if e.EnterFlush? || e.Complete? {
      assert Whose(e) in s.threads;
      hide StopTimer;
      StoppedAndReplaced(s.threads, s.fields.timer, Whose(e), if e.EnterFlush? then Want(Progress) else Want(Finish));
      hide MovesOn;
    } else if !e.Release? {
      OnlyItsOwn(s, e);
      hide Next, Inv;
      Replaced(s.threads, Whose(e), Next(s, e).value.threads[Whose(e)]);
    }
  }

  lemma OnlyItsOwn(s: State, e: Event)
    requires !e.CallProgress? && !e.EnterFlush? && !e.Complete? && !e.Release? && Next(s, e).Some?
    requires MAIN in s.threads ==> MainPc(s.threads[MAIN])
    ensures
      var was, now, t := s.threads, Next(s, e).value.threads, Whose(e);
      && t in was && t in now && now == was[t := now[t]] && PcLeft(now[t]) < PcLeft(was[t])
  {
    hide StartFields, AbortFields, SaveFields;
  }

  /** What is under way comes to an end: unless the handler reports more progress, the goroutines and
      timers that are left take no more steps than are to do, in whatever order they take them. */
  lemma {:induction false} ProgressEnds(es: seq<Event>, more: seq<Event>, n: nat)
    requires Run(es + more).Some? && forall e <- more :: !e.CallProgress?
    requires Run(es).Some? ==> forall t <- Run(es).value.threads :: t < n
    ensures Run(es).Some? && Run(es + more).value.threads.Keys <= Run(es).value.threads.Keys
    ensures |more| + Todo(Run(es + more).value.threads, n) <= Todo(Run(es).value.threads, n)
    decreases |more|
  {
    hide Next, MovesOn, Inv;
    if more == [] {
      assert es + more == es;
    } else {
      var all := es + more;
      assert all[..|all| - 1] == es + more[..|more| - 1];
      ProgressEnds(es, more[..|more| - 1], n);
      RunInv(all[..|all| - 1]);
      var s, e := Run(all[..|all| - 1]).value, all[|all| - 1];
      StepMovesOn(s, e);
      TodoShrinks(s.threads, Next(s, e).value.threads, Whose(e), n);
      ShrinksKeys(s.threads, Next(s, e).value.threads, Whose(e));
    }
  }
}
