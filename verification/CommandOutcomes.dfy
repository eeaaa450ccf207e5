/** How commands end, told by what happened to them: the events of a run, whatever the states between. */
module CommandOutcomes {
  import opened Wrappers
  import opened CommandLanes
  import opened CommandQueue

  /** Start's context had ended before the k-th step. */
  ghost predicate EndedBy(es: seq<Event>, k: nat) {
    exists j :: 0 <= j < k && j < |es| && es[j].Cancel?
  }

  /** A step happened while the context lived, or after its end. */
  ghost predicate Happened(es: seq<Event>, e: Event, late: bool) {
    exists k :: 0 <= k < |es| && es[k] == e && (EndedBy(es, k) <==> late)
  }

  lemma HappenedMore(es: seq<Event>, e: Event, late: bool)
    requires es != []
    ensures
      var front, last := es[..|es| - 1], es[|es| - 1];
      && (Happened(es, e, late) <==> Happened(front, e, late) || (last == e && (EndedBy(front, |front|) <==> late)))
      && (EndedBy(es, |es|) <==> EndedBy(front, |front|) || last.Cancel?)
  {
    var front := es[..|es| - 1];
    forall k: nat | k <= |front| ensures EndedBy(es, k) <==> EndedBy(front, k) {
      assert forall j | 0 <= j < k :: es[j] == front[j];
    }
    if Happened(front, e, late) {
      var k :| 0 <= k < |front| && front[k] == e && (EndedBy(front, k) <==> late);
      assert es[k] == e;
    }
    if Happened(es, e, late) {
      var k :| 0 <= k < |es| && es[k] == e && (EndedBy(es, k) <==> late);
      if k < |front| {
        assert front[k] == e;
      }
    }
  }

  lemma {:induction false} HappenedNever(e: Event, late: bool)
    ensures !Happened([], e, late) && !EndedBy([], 0)
  {
  }

  ghost function After(workers: nat, orphans: set<nat>, firstId: nat, es: seq<Event>): Option<State> {
    Run(Initial(workers, orphans, firstId), es)
  }

  // ----- Outcomes -----

  /** How a command with this outcome ended. */
  ghost predicate Ended(es: seq<Event>, id: nat, outcome: Outcome) {
    match outcome
    case Completed => Happened(es, Return(id, true), false) || Happened(es, Return(id, true), true)
    case Failed => Happened(es, Return(id, false), false) || Happened(es, GiveUp(id), false)
    case Aborted =>
      || Happened(es, AbortCondemned(id), false) || Happened(es, AbortCondemned(id), true)
      || Happened(es, Return(id, false), true) || Happened(es, GiveUp(id), true) || Happened(es, BeginRun(id), true)
  }

  /** What one step puts on record. */
  function LastFinal(cancelled: bool, e: Event): seq<Final> {
    match e
    case AbortCondemned(id) => [Final(id, Aborted)]
    case BeginRun(id) => if cancelled then [Final(id, Aborted)] else []
    case Return(id, ok) => [Final(id, if ok then Completed else if cancelled then Aborted else Failed)]
    case GiveUp(id) => [Final(id, if cancelled then Aborted else Failed)]
    case _ => []
  }

  /** A command's own steps. */
  predicate Own(e: Event) {
    e.AbortCondemned? || e.BeginRun? || e.RecordStart? || e.Admit? || e.Invoke? || e.Return? || e.GiveUp?
  }

  /** Where such a step finds the command, and where it leaves it. */
  predicate From(pc: map<nat, Pc>, e: Event)
    requires Own(e)
  {
    match e
    case AbortCondemned(id) => At(pc, id, Condemned)
    case BeginRun(id) => id !in pc
    case RecordStart(id, _) => At(pc, id, Recording)
    case Admit(id) => At(pc, id, Ready)
    case Invoke(id) => At(pc, id, Committed)
    case Return(id, _) => At(pc, id, Invoking)
    case GiveUp(id) => At(pc, id, Failing)
  }

  function To(cancelled: bool, e: Event): Pc
    requires Own(e)
  {
    match e
    case AbortCondemned(_) => Gone
    case BeginRun(_) => if cancelled then Finished else Recording
    case RecordStart(_, ok) => if ok then Ready else Failing
    case Admit(_) => if cancelled then Failing else Committed
    case Invoke(_) => Invoking
    case Return(_, _) => Finished
    case GiveUp(_) => Finished
  }

  function Recorded(recorded: set<nat>, e: Event): set<nat> {
    if e.RecordStart? && e.ok then recorded + {e.id} else recorded
  }

  function Invoked(invoked: seq<nat>, e: Event): seq<nat> {
    if e.Invoke? then invoked + [e.id] else invoked
  }

  function Aborts(aborted: set<nat>, e: Event, cancelled: bool): set<nat> {
    if e.BeginRun? && cancelled then aborted + {e.id} else aborted
  }

  ghost predicate Steps(s: State, n: State, e: Event)
    requires Own(e)
  {
    && From(s.pc, e) && n.pc == s.pc[e.id := To(s.lanes.cancelled, e)]
    && n.lanes == s.lanes && n.finals == s.finals + LastFinal(s.lanes.cancelled, e)
    && n.recorded == Recorded(s.recorded, e) && n.invoked == Invoked(s.invoked, e)
    && n.aborted == Aborts(s.aborted, e, s.lanes.cancelled)
    && n.items == s.items && n.enq == s.enq && n.accepted == s.accepted && n.drained == s.drained
  }

  lemma AbortIs(s: State, id: nat)
    requires AbortStep(s, id).Some?
    ensures Steps(s, AbortStep(s, id).value, AbortCondemned(id))
  {
  }

  lemma BeginIs(s: State, id: nat)
    requires BeginStep(s, id).Some?
    ensures Steps(s, BeginStep(s, id).value, BeginRun(id))
  {
    if s.lanes.cancelled {
      FinishIs(s, id, CommandQueue.Aborted, Finished);
      hide Finish;
    }
  }

  lemma RecordIs(s: State, id: nat, ok: bool)
    requires RecordStep(s, id, ok).Some?
    ensures Steps(s, RecordStep(s, id, ok).value, RecordStart(id, ok))
  {
  }

  lemma AdmitIs(s: State, id: nat)
    requires AdmitStep(s, id).Some?
    ensures Steps(s, AdmitStep(s, id).value, Admit(id))
  {
  }

  lemma InvokeIs(s: State, id: nat)
    requires InvokeStep(s, id).Some?
    ensures Steps(s, InvokeStep(s, id).value, Invoke(id))
  {
  }

  lemma ReturnIs(s: State, id: nat, ok: bool)
    requires ReturnStep(s, id, ok).Some?
    ensures Steps(s, ReturnStep(s, id, ok).value, Return(id, ok))
  {
  }

  lemma GiveUpIs(s: State, id: nat)
    requires GiveUpStep(s, id).Some?
    ensures Steps(s, GiveUpStep(s, id).value, GiveUp(id))
  {
  }

  lemma OwnIs(s: State, e: Event)
    requires Own(e) && Next(s, e).Some?
    ensures Steps(s, Next(s, e).value, e)
  {
    hide AbortStep, BeginStep, RecordStep, AdmitStep, InvokeStep, ReturnStep, GiveUpStep, Steps;
    match e
    case AbortCondemned(id) => AbortIs(s, id);
    case BeginRun(id) => BeginIs(s, id);
    case RecordStart(id, ok) => RecordIs(s, id, ok);
    case Admit(id) => AdmitIs(s, id);
    case Invoke(id) => InvokeIs(s, id);
    case Return(id, ok) => ReturnIs(s, id, ok);
    case GiveUp(id) => GiveUpIs(s, id);
  }

  lemma OthersRecordNothing(s: State, e: Event)
    requires !Own(e) && Next(s, e).Some?
    ensures
      var n := Next(s, e).value;
      && n.lanes.cancelled == (s.lanes.cancelled || e.Cancel?) && n.finals == s.finals
  {
    hide Pass, HasDuplicate, Condemn, AbortStep, BeginStep, ReturnStep, GiveUpStep, FreeLane;
    match e
    case FinishPass => PassFrame(s.lanes, s.lanes.queue);
    case Release(id) => FreeFrame(s.lanes, id);
    case _ =>
  }

  lemma FreeFrame(l: Lanes, id: nat)
    ensures id in l.running ==> FreeLane(l, l.running[id]).cancelled == l.cancelled
  {
  }

  lemma EndedMore(es: seq<Event>, id: nat, outcome: Outcome)
    requires es != []
    ensures
      var front, e := es[..|es| - 1], es[|es| - 1];
      Ended(es, id, outcome) <==> Ended(front, id, outcome) || Final(id, outcome) in LastFinal(EndedBy(front, |front|), e)
  {
    forall e: Event, late: bool
      ensures
        var front, last := es[..|es| - 1], es[|es| - 1];
        Happened(es, e, late) <==> Happened(front, e, late) || (last == e && (EndedBy(front, |front|) <==> late))
    {
      HappenedMore(es, e, late);
    }
    hide Happened, EndedBy;
  }

  /** A command's final state tells how it ended: Completed if and only if its handler returned without an
      error; Failed if and only if it ended with one, or was given up, before the context ended; Aborted if
      and only if it was refused or drained, was begun too late, or ended with an error, or was given up,
      after the end of the context. */
  lemma {:induction false} OutcomeTellsHow(workers: nat, orphans: set<nat>, firstId: nat, es: seq<Event>, id: nat, outcome: Outcome)
    requires After(workers, orphans, firstId, es).Some?
    ensures
      var s := After(workers, orphans, firstId, es).value;
      && (Final(id, outcome) in s.finals <==> Ended(es, id, outcome))
      && (s.lanes.cancelled <==> EndedBy(es, |es|))
    decreases |es|
  {
    if es != [] {
      var front, e := es[..|es| - 1], es[|es| - 1];
      OutcomeTellsHow(workers, orphans, firstId, front, id, outcome);
      var s := After(workers, orphans, firstId, front).value;
      if Own(e) {
        OwnIs(s, e);
      } else {
        OthersRecordNothing(s, e);
      }
      EndedMore(es, id, outcome);
      HappenedMore(es, e, false);
      hide Next, Ended, EndedBy, Happened;
    }
  }

  // ----- The way there -----

  /** What a run tells about one command. */
  datatype Told = Told(
    recorded: bool, unrecorded: bool,     // its start was saved, or could not be
    admitted: bool, turnedAway: bool,     // its last look found the context alive, or ended
    invoked: bool, returned: bool, gaveUp: bool,
    condemned: bool, begunLate: bool)     // its abort was recorded; it was begun after the end

  ghost function Tell(es: seq<Event>, id: nat): Told {
    Told(RecordStart(id, true) in es, RecordStart(id, false) in es,
         Happened(es, Admit(id), false), Happened(es, Admit(id), true),
         Invoke(id) in es, Return(id, true) in es || Return(id, false) in es, GiveUp(id) in es,
         AbortCondemned(id) in es, Happened(es, BeginRun(id), true))
  }

  ghost function TellMore(t: Told, e: Event, id: nat, late: bool): Told {
    Told(t.recorded || e == RecordStart(id, true), t.unrecorded || e == RecordStart(id, false),
         t.admitted || (e == Admit(id) && !late), t.turnedAway || (e == Admit(id) && late),
         t.invoked || e == Invoke(id), t.returned || (e.Return? && e.id == id), t.gaveUp || e == GiveUp(id),
         t.condemned || e == AbortCondemned(id), t.begunLate || (e == BeginRun(id) && late))
  }

  lemma TellOneMore(es: seq<Event>, id: nat)
    requires es != []
    ensures
      var front, e := es[..|es| - 1], es[|es| - 1];
      Tell(es, id) == TellMore(Tell(front, id), e, id, EndedBy(front, |front|))
  {
    var front, e := es[..|es| - 1], es[|es| - 1];
    assert es == front + [e];
    HappenedMore(es, Admit(id), false);
    HappenedMore(es, Admit(id), true);
    HappenedMore(es, BeginRun(id), true);
    hide Happened, EndedBy;
  }

  /** A command's place agrees with what the run tells. */
  ghost predicate Agrees(t: Told, pc: map<nat, Pc>, recorded: set<nat>, invoked: seq<nat>, aborted: set<nat>, id: nat) {
    && (At(pc, id, Ready) ==> t.recorded)
    && (At(pc, id, Committed) || id in invoked ==> t.recorded && t.admitted)
    && (At(pc, id, Failing) || t.gaveUp ==> t.unrecorded || t.turnedAway)
    && (t.admitted ==> At(pc, id, Committed) || id in invoked)
    && (t.returned ==> id in invoked)
    && (t.invoked <==> id in invoked)
    && (t.recorded <==> id in recorded)
    && (t.condemned || t.begunLate ==> id in aborted)
  }

  predicate SamePlace(was: map<nat, Pc>, now: map<nat, Pc>, id: nat) {
    && (At(now, id, Ready) <==> At(was, id, Ready))
    && (At(now, id, Committed) <==> At(was, id, Committed))
    && (At(now, id, Failing) <==> At(was, id, Failing))
    && (At(now, id, Invoking) <==> At(was, id, Invoking))
  }

  /** Any other step leaves every command alone that is on its way. */
  ghost predicate LeavesAlone(s: State, n: State, id: nat) {
    && SamePlace(s.pc, n.pc, id)
    && n.recorded == s.recorded && n.invoked == s.invoked && s.aborted <= n.aborted
  }

  lemma CheckLeavesAlone(s: State, req: Request, joinRunning: bool, id: nat)
    requires CheckStep(s, req, joinRunning).Some?
    ensures LeavesAlone(s, CheckStep(s, req, joinRunning).value, id) && LeavesAlone(s, Recovered(s), id)
  {
    hide HasDuplicate, FinishedIds;
  }

  lemma StoreLeavesAlone(s: State, id: nat)
    requires Inv(s) && StoreStep(s).Some?
    ensures LeavesAlone(s, StoreStep(s).value, id)
  {
    NewIsNowhere(s);
    StoreIs(s);
    hide StoreStep, Inv;
  }

  lemma RefuseLeavesAlone(s: State, id: nat)
    requires s.enq.Stored? && At(s.pc, s.enq.item.id, Created)
    ensures LeavesAlone(s, Refused(s), id)
  {
    RefusedIs(s);
    hide Refused;
  }

  lemma AppendLeavesAlone(s: State, id: nat)
    requires s.enq.Stored? && At(s.pc, s.enq.item.id, Created)
    ensures LeavesAlone(s, Dispatching(Appended(s)), id)
  {
    AppendedIs(s);
    hide Appended;
  }

  lemma InsertLeavesAlone(s: State, id: nat)
    requires Inv(s) && InsertStep(s).Some?
    ensures LeavesAlone(s, InsertStep(s).value, id)
  {
    CreatedIs(s);
    hide Inv, Refused, Appended, Dispatching, LeavesAlone;
    if s.lanes.stopping || s.closed {
      RefuseLeavesAlone(s, id);
    } else {
      AppendLeavesAlone(s, id);
    }
  }

  lemma DrainLeavesAlone(s: State, id: nat)
    requires Inv(s)
    ensures LeavesAlone(s, Drain(s), id)
  {
    assert forall i | 0 <= i < |s.lanes.queue| :: s.lanes.queue[i].id !in s.pc;
    hide Inv;
    CondemnMovesOthers(s.pc, s.lanes.queue, id);
    hide Condemn;
  }

  lemma CondemnMovesOthers(pc: map<nat, Pc>, q: seq<Item>, id: nat)
    requires forall i | 0 <= i < |q| :: q[i].id !in pc
    ensures SamePlace(pc, Condemn(pc, q), id)
  {
    var c := Condemn(pc, q);
    assert id in c ==> c[id] == if id in Ids(q) then Condemned else pc[id];
  }

  lemma FreedLeavesAlone(s: State, other: nat, id: nat)
    requires Inv(s) && RunsAs(s, other, Finished)
    ensures LeavesAlone(s, Freed(s, other), id)
  {
    hide Inv;
  }

  lemma OthersLeaveAlone(s: State, e: Event, id: nat)
    requires Inv(s) && !Own(e) && Next(s, e).Some?
    ensures LeavesAlone(s, Next(s, e).value, id)
  {
    hide Inv, HasDuplicate, Pass, LeavesAlone, InsertStep, StoreStep, CheckStep, Drain, Freed;
    match e
    case EnqueueCheck(req, joinRunning) => CheckLeavesAlone(s, req, joinRunning, id);
    case EnqueueStore => StoreLeavesAlone(s, id);
    case EnqueueInsert => InsertLeavesAlone(s, id);
    case Shutdown => DrainLeavesAlone(s, id);
    case Wait => WaitLeavesAlone(s, id);
    case Release(other) => ReleaseLeavesAlone(s, other, id);
    case _ => SamePlaces(s, e, id);
  }

  lemma WaitLeavesAlone(s: State, id: nat)
    requires Inv(s)
    ensures LeavesAlone(s, WaitStep(s).value, id)
  {
    CloseKeeps(s);
    DrainLeavesAlone(Closed(s), id);
    hide Inv, Drain;
  }

  lemma ReleaseLeavesAlone(s: State, other: nat, id: nat)
    requires Inv(s) && ReleaseStep(s, other).Some?
    ensures LeavesAlone(s, ReleaseStep(s, other).value, id)
  {
    FreedLeavesAlone(s, other, id);
    hide Inv, Freed;
  }

  lemma SamePlaces(s: State, e: Event, id: nat)
    requires e.Start? || e.Recover? || e.FirstDispatch? || e.FinishPass? || e.Cancel?
    requires Next(s, e).Some?
    ensures LeavesAlone(s, Next(s, e).value, id)
  {
    hide Pass, FinishedIds;
  }

  lemma OthersAgree(t: Told, s: State, n: State, e: Event, id: nat, late: bool)
    requires Agrees(t, s.pc, s.recorded, s.invoked, s.aborted, id)
    requires !Own(e) && LeavesAlone(s, n, id)
    ensures Agrees(TellMore(t, e, id, late), n.pc, n.recorded, n.invoked, n.aborted, id)
  {
    TellNoMore(t, e, id, late);
    hide TellMore, At, Own;
  }

  lemma TellNoMore(t: Told, e: Event, id: nat, late: bool)
    requires !Own(e) || e.id != id
    ensures TellMore(t, e, id, late) == t
  {
  }

  lemma OwnAgrees(t: Told, s: State, n: State, e: Event, id: nat)
    requires Agrees(t, s.pc, s.recorded, s.invoked, s.aborted, id)
    requires Inv(s) && Own(e) && Steps(s, n, e)
    ensures Agrees(TellMore(t, e, id, s.lanes.cancelled), n.pc, n.recorded, n.invoked, n.aborted, id)
  {
    assert At(s.pc, id, Condemned) ==> id in s.aborted;
    assert At(s.pc, id, Invoking) ==> id in s.invoked;
    hide Inv;
    if e.id != id {
      OthersOwnAgrees(t, s.pc, s.recorded, s.invoked, s.aborted, e, s.lanes.cancelled, id);
    } else {
      ItsOwnAgrees(t, s.pc, s.recorded, s.invoked, s.aborted, e, s.lanes.cancelled);
    }
    hide Agrees, TellMore, From, To;
  }

  lemma OthersOwnAgrees(t: Told, pc: map<nat, Pc>, recorded: set<nat>, invoked: seq<nat>, aborted: set<nat>, e: Event,
                        cancelled: bool, id: nat)
    requires Agrees(t, pc, recorded, invoked, aborted, id) && Own(e) && e.id != id
    ensures Agrees(TellMore(t, e, id, cancelled), pc[e.id := To(cancelled, e)], Recorded(recorded, e), Invoked(invoked, e),
                   Aborts(aborted, e, cancelled), id)
  {
    TellNoMore(t, e, id, cancelled);
    hide TellMore, To;
  }

  lemma ItsOwnAgrees(t: Told, pc: map<nat, Pc>, recorded: set<nat>, invoked: seq<nat>, aborted: set<nat>, e: Event,
                     cancelled: bool)
    requires Own(e) && From(pc, e) && Agrees(t, pc, recorded, invoked, aborted, e.id)
    requires At(pc, e.id, Condemned) ==> e.id in aborted
    requires At(pc, e.id, Invoking) ==> e.id in invoked
    ensures Agrees(TellMore(t, e, e.id, cancelled), pc[e.id := To(cancelled, e)], Recorded(recorded, e), Invoked(invoked, e),
                   Aborts(aborted, e, cancelled), e.id)
  {
    match e
    case Invoke(id) => assert (invoked + [id])[|invoked|] == id;
    case _ =>
  }

  lemma {:induction false} TellingAgrees(workers: nat, orphans: set<nat>, firstId: nat, es: seq<Event>, id: nat)
    requires Boot(workers, orphans, firstId) && After(workers, orphans, firstId, es).Some?
    ensures
      var s := After(workers, orphans, firstId, es).value;
      Inv(s) && Agrees(Tell(es, id), s.pc, s.recorded, s.invoked, s.aborted, id)
    decreases |es|
  {
    RunInv(workers, orphans, firstId, es);
    if es == [] {
      HappenedNever(Admit(id), false);
      HappenedNever(Admit(id), true);
      HappenedNever(BeginRun(id), true);
    } else {
      var front, e := es[..|es| - 1], es[|es| - 1];
      TellingAgrees(workers, orphans, firstId, front, id);
      var s := After(workers, orphans, firstId, front).value;
      TellOneMore(es, id);
      OutcomeTellsHow(workers, orphans, firstId, front, id, Aborted);
      hide Next, Inv, Tell, TellMore, Agrees, Steps, LeavesAlone, EndedBy, Ended;
      if Own(e) {
        OwnIs(s, e);
        OwnAgrees(Tell(front, id), s, Next(s, e).value, e, id);
      } else {
        OthersLeaveAlone(s, e, id);
        OthersAgree(Tell(front, id), s, Next(s, e).value, e, id, EndedBy(front, |front|));
      }
    }
  }

  /** A command that is done had its handler called if and only if its last look found the context alive;
      and if it had not, it was aborted before it could start, its start could not be saved, or its last
      look found the context ended. */
  lemma HandlerIsCalledExactly(workers: nat, orphans: set<nat>, firstId: nat, es: seq<Event>, id: nat)
    requires Boot(workers, orphans, firstId) && After(workers, orphans, firstId, es).Some?
    ensures
      var s := After(workers, orphans, firstId, es).value;
      && (id in s.invoked <==> Invoke(id) in es)
      && (id in s.recorded <==> RecordStart(id, true) in es)
      && (Done(s.pc, id) ==>
            && (id in s.invoked <==> Happened(es, Admit(id), false))
            && (id !in s.invoked ==>
                  id in s.aborted || RecordStart(id, false) in es || Happened(es, Admit(id), true)))
  {
    TellingAgrees(workers, orphans, firstId, es, id);
    var s := After(workers, orphans, firstId, es).value;
    hide Run, Inv;
    if Done(s.pc, id) {
      DoneTells(workers, orphans, firstId, es, id);
      hide Happened;
    }
  }

  lemma DoneTells(workers: nat, orphans: set<nat>, firstId: nat, es: seq<Event>, id: nat)
    requires Boot(workers, orphans, firstId) && After(workers, orphans, firstId, es).Some?
    requires Done(After(workers, orphans, firstId, es).value.pc, id)
    ensures var t := Tell(es, id); t.returned || t.gaveUp || t.condemned || t.begunLate
  {
    var s := After(workers, orphans, firstId, es).value;
    RunInv(workers, orphans, firstId, es);
    var f := FinalOf(s, id);
    hide Run, Inv, Happened, Done;
    OutcomeTellsHow(workers, orphans, firstId, es, id, f.outcome);
    EndedTells(es, id, f.outcome);
  }

  lemma FinalOf(s: State, id: nat) returns (f: Final)
    requires Inv(s) && Done(s.pc, id)
    ensures f in s.finals && f == Final(id, f.outcome)
  {
    hide LaneCore, HandlerInv, EnqueuePlace, CondemnedPlace, UniqueKeys, NoPendingKey, ItemsInv, RecoveryInv, AbortedInv,
      DrainedInv, NothingStartable;
    var i :| 0 <= i < |s.finals| && s.finals[i].id == id;
    f := s.finals[i];
  }

  lemma EndedTells(es: seq<Event>, id: nat, outcome: Outcome)
    requires Ended(es, id, outcome)
    ensures var t := Tell(es, id); t.returned || t.gaveUp || t.condemned || t.begunLate
  {
    forall e: Event, late: bool | Happened(es, e, late) ensures e in es {
    }
    hide Happened;
  }

  // ----- Aborted before it could start -----

  /** Stored, but neither accepted nor on its way into the queue. */
  ghost predicate TurnedDown(s: State, id: nat) {
    id in s.items && !(s.enq.Stored? && s.enq.item.id == id) && forall x <- s.accepted :: x.id != id
  }

  ghost predicate Drained(s: State, id: nat) {
    exists x <- s.drained :: x.id == id
  }

  ghost predicate AbortsExactly(s: State, id: nat, begunLate: bool) {
    && (id in s.aborted <==> begunLate || Drained(s, id) || TurnedDown(s, id))
    && (forall x <- s.accepted :: x.id in s.items)
    && (s.enq.Stored? ==> s.enq.item.id in s.items && forall x <- s.accepted :: x.id != s.enq.item.id)
  }

  lemma OwnAborts(s: State, n: State, e: Event, id: nat, begunLate: bool)
    requires AbortsExactly(s, id, begunLate) && Own(e) && Steps(s, n, e)
    ensures AbortsExactly(n, id, begunLate || (e == BeginRun(id) && s.lanes.cancelled))
  {
  }

  lemma StoreAborts(s: State, id: nat, begunLate: bool)
    requires Inv(s) && StoreStep(s).Some? && AbortsExactly(s, id, begunLate)
    ensures AbortsExactly(StoreStep(s).value, id, begunLate)
  {
    NewIsNowhere(s);
    StoreIs(s);
    hide Inv, StoreStep;
  }

  lemma InsertAborts(s: State, id: nat, begunLate: bool)
    requires InsertStep(s).Some? && AbortsExactly(s, id, begunLate)
    ensures AbortsExactly(InsertStep(s).value, id, begunLate)
  {
    if s.lanes.stopping || s.closed {
      RefusedIs(s);
      hide Refused;
    } else {
      AppendedIs(s);
      AppendedAborts(s);
      hide Appended;
    }
  }

  lemma AppendedAborts(s: State)
    requires s.enq.Stored?
    ensures Appended(s).aborted == s.aborted
    ensures forall x :: x in Appended(s).accepted <==> x in s.accepted || x == s.enq.item
  {
  }

  lemma DrainAborts(s: State, id: nat, begunLate: bool)
    requires AbortsExactly(s, id, begunLate)
    ensures AbortsExactly(Drain(s), id, begunLate)
  {
    assert id in Ids(s.lanes.queue) <==> exists x <- s.lanes.queue :: x.id == id;
    assert forall x :: x in s.drained + s.lanes.queue <==> x in s.drained || x in s.lanes.queue;
    hide Condemn, Ids;
  }

  lemma OthersAbort(s: State, e: Event, id: nat, begunLate: bool)
    requires Inv(s) && AbortsExactly(s, id, begunLate) && !Own(e) && Next(s, e).Some?
    ensures AbortsExactly(Next(s, e).value, id, begunLate)
  {
    hide Inv, AbortsExactly, StoreStep, InsertStep, Drain;
    match e
    case EnqueueStore => StoreAborts(s, id, begunLate);
    case EnqueueInsert => InsertAborts(s, id, begunLate);
    case Shutdown => DrainAborts(s, id, begunLate);
    case Wait => WaitAborts(s, id, begunLate);
    case _ => SameAborts(s, e, id, begunLate);
  }

  lemma WaitAborts(s: State, id: nat, begunLate: bool)
    requires AbortsExactly(s, id, begunLate)
    ensures AbortsExactly(WaitStep(s).value, id, begunLate)
  {
    assert AbortsExactly(Closed(s), id, begunLate);
    hide AbortsExactly, Drain;
    if !s.lanes.started {
      DrainAborts(Closed(s), id, begunLate);
    }
  }

  lemma SameAborts(s: State, e: Event, id: nat, begunLate: bool)
    requires AbortsExactly(s, id, begunLate) && Next(s, e).Some?
    requires e.EnqueueCheck? || e.Start? || e.Recover? || e.FirstDispatch? || e.FinishPass? || e.Cancel? || e.Release?
    ensures AbortsExactly(Next(s, e).value, id, begunLate)
  {
    hide HasDuplicate, Pass, FinishedIds, FreeLane;
    var n := Next(s, e).value;
    assert n.items == s.items && n.accepted == s.accepted && n.drained == s.drained && n.aborted == s.aborted;
    assert n.enq == s.enq || (!n.enq.Stored? && !s.enq.Stored?);
    hide Next;
  }

  /** The commands aborted before they could start are exactly those that were stored and turned down, those
      that shutdown took off the queue, and those begun when the context had ended. */
  lemma {:induction false} AbortedExactly(workers: nat, orphans: set<nat>, firstId: nat, es: seq<Event>, id: nat)
    requires Boot(workers, orphans, firstId) && After(workers, orphans, firstId, es).Some?
    ensures AbortsExactly(After(workers, orphans, firstId, es).value, id, Happened(es, BeginRun(id), true))
    decreases |es|
  {
    if es == [] {
      HappenedNever(BeginRun(id), true);
    } else {
      var front, e := es[..|es| - 1], es[|es| - 1];
      AbortedExactly(workers, orphans, firstId, front, id);
      RunInv(workers, orphans, firstId, front);
      var s := After(workers, orphans, firstId, front).value;
      HappenedMore(es, BeginRun(id), true);
      OutcomeTellsHow(workers, orphans, firstId, front, id, CommandQueue.Aborted);
      hide Next, Inv, AbortsExactly, Steps, Happened, EndedBy, Ended;
      if Own(e) {
        OwnIs(s, e);
        OwnAborts(s, Next(s, e).value, e, id, Happened(front, BeginRun(id), true));
      } else {
        OthersAbort(s, e, id, Happened(front, BeginRun(id), true));
      }
    }
  }

  // ----- Requests -----

  /** May this command stand for the request? A running one only where joining it is allowed. */
  ghost predicate Absorbs(s: State, id: nat, req: Request, joinRunning: bool) {
    && Unfinished(s.items, s.pc, id) && s.items[id].name == req.name && s.items[id].canon == req.canon
    && (Queued(s.lanes.queue, id) || (joinRunning && id in s.lanes.running))
  }

  /** While the queue takes requests, one is not stored anew if and only if an unfinished command with its
      key may stand for it; when it takes none, nothing is stored. */
  lemma RequestsJoinExactly(s: State, req: Request, joinRunning: bool)
    requires Reachable(s) && Next(s, EnqueueCheck(req, joinRunning)).Some?
    ensures
      var n := Next(s, EnqueueCheck(req, joinRunning)).value;
      && n.lanes == s.lanes && n.items == s.items && n.pc == s.pc
      && (n.enq.Idle? || n.enq == Checked(req))
      && (n.enq.Idle? <==> s.lanes.stopping || s.closed || exists id :: Absorbs(s, id, req, joinRunning))
  {
    ReachableInv(s);
    DuplicateAbsorbs(s, req, joinRunning);
    hide HasDuplicate, FinishedIds, Inv, Reachable, Absorbs;
    RecoveredStays(s);
  }

  lemma RecoveredStays(s: State)
    ensures
      var r := Recovered(s);
      && r.lanes == s.lanes && r.items == s.items && r.pc == s.pc && r.enq == s.enq && r.closed == s.closed
      && FinishedIds(r) == FinishedIds(s)
  {
  }

  lemma DuplicateAbsorbs(s: State, req: Request, joinRunning: bool)
    requires Inv(s)
    ensures HasDuplicate(s.lanes, FinishedIds(s), req.name, req.canon, joinRunning)
            <==> exists id :: Absorbs(s, id, req, joinRunning)
  {
    RunningAbsorbs(s, req);
    QueuedAbsorbs(s, req);
    hide Inv, FinishedIds, Unfinished;
    if HasDuplicate(s.lanes, FinishedIds(s), req.name, req.canon, joinRunning) {
      SomeAbsorbs(s, req, joinRunning);
    }
    if id :| Absorbs(s, id, req, joinRunning) {
      if Queued(s.lanes.queue, id) {
        var i :| 0 <= i < |s.lanes.queue| && s.lanes.queue[i].id == id;
        assert Matches(s.lanes.queue[i], req.name, req.canon);
      } else {
        assert Matches(s.lanes.running[id], req.name, req.canon);
      }
    }
  }

  lemma SomeAbsorbs(s: State, req: Request, joinRunning: bool)
    requires Inv(s) && HasDuplicate(s.lanes, FinishedIds(s), req.name, req.canon, joinRunning)
    ensures exists id :: Absorbs(s, id, req, joinRunning)
  {
    RunningAbsorbs(s, req);
    QueuedAbsorbs(s, req);
    hide Inv, FinishedIds, Unfinished, Queued;
    var q, running := s.lanes.queue, s.lanes.running;
    if i :| 0 <= i < |q| && Matches(q[i], req.name, req.canon) {
      assert Absorbs(s, q[i].id, req, joinRunning);
    } else {
      var id :| id in running && Matches(running[id], req.name, req.canon) && id !in FinishedIds(s);
      assert Absorbs(s, id, req, joinRunning);
    }
  }

  lemma RunningAbsorbs(s: State, req: Request)
    requires Inv(s)
    ensures forall id <- s.lanes.running ::
              && (Unfinished(s.items, s.pc, id) <==> id !in FinishedIds(s))
              && id in s.items && s.items[id] == s.lanes.running[id]
  {
  }

  lemma QueuedAbsorbs(s: State, req: Request)
    requires Inv(s)
    ensures forall i | 0 <= i < |s.lanes.queue| ::
              var x := s.lanes.queue[i];
              && Unfinished(s.items, s.pc, x.id) && x.id !in FinishedIds(s) && s.items[x.id] == x
              && Queued(s.lanes.queue, x.id)
  {
    forall i | 0 <= i < |s.lanes.queue| ensures Queued(s.lanes.queue, s.lanes.queue[i].id) {
    }
    hide Queued;
  }

  ghost predicate Asked(es: seq<Event>, name: string, canon: string, exclusive: bool) {
    exists joinRunning :: EnqueueCheck(Request(name, canon, exclusive), joinRunning) in es
  }

  ghost predicate AllAsked(es: seq<Event>, s: State) {
    && (s.enq.Checked? ==> Asked(es, s.enq.req.name, s.enq.req.canon, s.enq.req.exclusive))
    && forall id <- s.items :: s.items[id].id == id && Asked(es, s.items[id].name, s.items[id].canon, s.items[id].exclusive)
  }

  /** Every stored command is what some request asked for: its name, its body and its lane. */
  lemma {:induction false} StoredAsAsked(workers: nat, orphans: set<nat>, firstId: nat, es: seq<Event>)
    requires After(workers, orphans, firstId, es).Some?
    ensures AllAsked(es, After(workers, orphans, firstId, es).value)
    decreases |es|
  {
    hide Next, Stores, AllAsked, Initial;
    if es == [] {
      NothingAsked(workers, orphans, firstId);
    } else {
      var front, e := es[..|es| - 1], es[|es| - 1];
      StoredAsAsked(workers, orphans, firstId, front);
      var s := After(workers, orphans, firstId, front).value;
      assert es == front + [e];
      StepStores(s, e);
      AskedStep(front, s, Next(s, e).value, e);
    }
  }

  lemma NothingAsked(workers: nat, orphans: set<nat>, firstId: nat)
    ensures AllAsked([], Initial(workers, orphans, firstId))
  {
  }

  lemma AskedStep(es: seq<Event>, s: State, n: State, e: Event)
    requires AllAsked(es, s) && Stores(s, n, e)
    ensures AllAsked(es + [e], n)
  {
    AskedStays(es, e);
    if e.EnqueueCheck? {
      assert e in es + [e] && e == EnqueueCheck(Request(e.req.name, e.req.canon, e.req.exclusive), e.joinRunning);
    }
    hide Asked;
  }

  lemma AskedStays(es: seq<Event>, e: Event)
    ensures forall name, canon, exclusive | Asked(es, name, canon, exclusive) :: Asked(es + [e], name, canon, exclusive)
  {
    forall name, canon, exclusive | Asked(es, name, canon, exclusive) ensures Asked(es + [e], name, canon, exclusive) {
      var joinRunning :| EnqueueCheck(Request(name, canon, exclusive), joinRunning) in es;
      assert EnqueueCheck(Request(name, canon, exclusive), joinRunning) in es + [e];
    }
  }

  ghost predicate Stores(s: State, n: State, e: Event) {
    && (if e.EnqueueStore? then
          && s.enq.Checked? && n.enq.Stored? && n.items == s.items[s.nextId := n.enq.item]
          && n.enq.item == Item(s.nextId, s.enq.req.name, s.enq.req.canon, s.enq.req.exclusive)
        else n.items == s.items)
    && (n.enq.Checked? ==> n.enq == s.enq || (e.EnqueueCheck? && n.enq.req == e.req))
  }

  lemma StoreStores(s: State)
    requires StoreStep(s).Some?
    ensures Stores(s, StoreStep(s).value, EnqueueStore)
  {
    assert s.enq.Checked?;
    StoreIs(s);
    hide StoreStep;
  }

  lemma StepStores(s: State, e: Event)
    requires Next(s, e).Some?
    ensures Stores(s, Next(s, e).value, e)
  {
    hide HasDuplicate, Pass, FinishedIds, FreeLane, Condemn, StoreStep;
    if Own(e) {
      OwnIs(s, e);
      hide Next;
    } else if e.EnqueueStore? {
      StoreStores(s);
      hide Stores;
    }
  }

  /** What the lock's one section does in the program, the dispatch pass of the system does in its two steps. */
  lemma DispatchInTwoSteps(s: State)
    ensures
      var d := Dispatching(s);
      && (if d.passing then Passed(d).lanes else d.lanes) == Dispatch(s.lanes)
      && (d.primed <==> s.primed || s.lanes.started)
  {
  }

  /** Before Start no command is started, and no handler is called. */
  lemma {:induction false} NothingBeforeStart(workers: nat, orphans: set<nat>, firstId: nat, es: seq<Event>)
    requires Boot(workers, orphans, firstId) && After(workers, orphans, firstId, es).Some? && Start !in es
    ensures
      var s := After(workers, orphans, firstId, es).value;
      !s.lanes.started && !s.passing && s.lanes.starts == [] && s.lanes.running == map[] && s.invoked == []
    decreases |es|
  {
    if es != [] {
      var front, e := es[..|es| - 1], es[|es| - 1];
      assert es == front + [e];
      NothingBeforeStart(workers, orphans, firstId, front);
      NotStartedStep(After(workers, orphans, firstId, front).value, e);
    }
  }

  lemma NotStartedStep(s: State, e: Event)
    requires !s.lanes.started && !s.passing && s.lanes.starts == [] && s.lanes.running == map[] && s.invoked == []
    requires e != Start && Next(s, e).Some?
    ensures
      var n := Next(s, e).value;
      !n.lanes.started && !n.passing && n.lanes.starts == [] && n.lanes.running == map[] && n.invoked == []
  {
    hide HasDuplicate, Pass, FinishedIds, FreeLane, Condemn;
    if Own(e) {
      OwnIs(s, e);
      hide Next;
    }
  }

  /** How the switches of the queue are thrown. */
  ghost predicate Switches(s: State, n: State, e: Event) {
    && n.closed == (s.closed || e.Wait?)
    && n.lanes.started == (s.lanes.started || (e.Start? && !s.closed))
    && n.lanes.stopping == (s.lanes.stopping || e.Shutdown? || (e.Wait? && !s.lanes.started))
    && n.lanes.cancelled == (s.lanes.cancelled || e.Cancel?)
    && (e.Shutdown? ==> s.lanes.cancelled && s.primed)
  }

  lemma StepSwitches(s: State, e: Event)
    requires Next(s, e).Some?
    ensures Switches(s, Next(s, e).value, e)
  {
    if Own(e) {
      OwnIs(s, e);
      hide Next;
    } else if e.FinishPass? {
      PassFrame(s.lanes, s.lanes.queue);
      hide Pass;
    } else if e.Release? {
      FreedSwitches(s, e.id);
      hide Freed;
    } else {
      CallsSwitch(s, e);
      hide Next, Switches;
    }
  }

  lemma CallsSwitch(s: State, e: Event)
    requires !Own(e) && !e.FinishPass? && !e.Release? && Next(s, e).Some?
    ensures Switches(s, Next(s, e).value, e)
  {
    hide HasDuplicate, Pass, FinishedIds, Condemn, AbortStep, BeginStep, RecordStep, AdmitStep, InvokeStep, ReturnStep,
      GiveUpStep, ReleaseStep, Passed, StoreStep, InsertStep, Recovered;
    RecoveredSwitches(s);
    if e.EnqueueStore? {
      StoreIs(s);
    } else if e.EnqueueInsert? {
      InsertSwitches(s);
    }
  }

  lemma RecoveredSwitches(s: State)
    ensures Recovered(s).lanes == s.lanes && Recovered(s).closed == s.closed
  {
  }

  lemma InsertSwitches(s: State)
    requires InsertStep(s).Some?
    ensures Switches(s, InsertStep(s).value, EnqueueInsert)
  {
    if s.lanes.stopping || s.closed {
      RefusedIs(s);
    }
    hide Refused;
  }

  lemma LaneSwitches(l: Lanes, x: Item)
    ensures
      var f := FreeLane(l, x);
      f.started == l.started && f.stopping == l.stopping && f.cancelled == l.cancelled
  {
  }

  lemma FreedSwitches(s: State, id: nat)
    ensures
      var f := Freed(s, id);
      && f.closed == s.closed && f.lanes.started == s.lanes.started && f.lanes.stopping == s.lanes.stopping
      && f.lanes.cancelled == s.lanes.cancelled
  {
    if id in s.lanes.running {
      LaneSwitches(s.lanes, s.lanes.running[id]);
    }
    hide FreeLane;
  }

  /** The queue stops only after the end of the context, or when Wait came before any Start; then nothing is
      ever started. The queue is closed if and only if Wait was called, and started only by Start. */
  lemma {:induction false} StopsAtTheEnd(workers: nat, orphans: set<nat>, firstId: nat, es: seq<Event>)
    requires After(workers, orphans, firstId, es).Some?
    ensures
      var s := After(workers, orphans, firstId, es).value;
      && (s.lanes.stopping ==> Cancel in es || (s.closed && !s.lanes.started))
      && (s.closed <==> Wait in es) && (s.lanes.started ==> Start in es) && (s.lanes.cancelled <==> Cancel in es)
    decreases |es|
  {
    if es != [] {
      var front, e := es[..|es| - 1], es[|es| - 1];
      assert es == front + [e];
      StopsAtTheEnd(workers, orphans, firstId, front);
      StepSwitches(After(workers, orphans, firstId, front).value, e);
      hide Next;
    }
  }
}
