/** How often a command's progress is written: at most once per interval, but for what a timer still owes. */
module CommandProgress {
  import opened Wrappers
  import opened CommandEntry

  /** The reading of the clock a step makes, if it makes one. */
  function Reading(e: Event): Option<int> {
    match e
    case BeginRun(now) => Some(now)
    case CallProgress(_, _, now) => Some(now)
    case EnterFlush(_, now) => Some(now)
    case _ => None
  }

  /** The clock does not go back. */
  ghost predicate Forward(es: seq<Event>) {
    forall i, j | 0 <= i < j < |es| && Reading(es[i]).Some? && Reading(es[j]).Some? ::
      Reading(es[i]).value <= Reading(es[j]).value
  }

  /** When the command was started or flushed last. */
  function LastFlush(es: seq<Event>): int
    decreases |es|
  {
    if es == [] then 0
    else
      var e := es[|es| - 1];
      if e.BeginRun? || e.EnterFlush? then e.now else LastFlush(es[..|es| - 1])
  }

  lemma {:induction false} IntervalBegins(es: seq<Event>)
    requires Run(es).Some?
    ensures Run(es).value.fields.lastFlush == LastFlush(es)
    decreases |es|
  {
    if es != [] {
      IntervalBegins(es[..|es| - 1]);
      StepBegins(Run(es[..|es| - 1]).value, es[|es| - 1]);
    }
  }

  lemma StepBegins(s: State, e: Event)
    requires Next(s, e).Some?
    ensures Next(s, e).value.fields.lastFlush == if e.BeginRun? || e.EnterFlush? then e.now else s.fields.lastFlush
  {
  }

  /** What a call of the progress callback does: without a message, or once the command is finished, nothing.
      Else the message is the command's, and it is flushed at once if and only if an interval has passed
      since the last flush, or the start; if not, a timer is set unless one is set already. */
  lemma ProgressIsThrottled(es: seq<Event>, t: Tid, msg: string, now: int)
    requires Run(es).Some? && Next(Run(es).value, CallProgress(t, msg, now)).Some?
    ensures
      var s := Run(es).value;
      var n := Next(s, CallProgress(t, msg, now)).value;
      if msg == "" || s.fields.finished then n == s
      else
        && n.fields.message == msg && n.fields.dirty
        && n.attempts == s.attempts && n.events == s.events && n.persist == s.persist
        && (if now - LastFlush(es) >= PROGRESS_INTERVAL then n.threads == s.threads[t := FlushTop]
            else if s.fields.timer.None? then n.threads == s.threads[t := TimerArmed] && n.fields.timer == Some(t)
            else n.threads == s.threads && n.fields.timer == s.fields.timer)
  {
    IntervalBegins(es);
  }

  /** The k-th step is a call of the progress callback that flushes at once. */
  ghost predicate FlushesAtOnce(es: seq<Event>, k: nat)
    requires k < |es|
  {
    && es[k].CallProgress? && Run(es[..k + 1]).Some?
    && At(Run(es[..k + 1]).value, es[k].t) == Some(FlushTop)
  }

  lemma {:induction false} RunPrefix(es: seq<Event>, k: nat)
    requires k <= |es| && Run(es).Some?
    ensures Run(es[..k]).Some?
    decreases |es|
  {
    if k < |es| {
      assert es[..|es| - 1][..k] == es[..k];
      RunPrefix(es[..|es| - 1], k);
    } else {
      assert es[..k] == es;
    }
  }

  lemma {:induction false} FlushIsRecent(es: seq<Event>, i: nat)
    requires i < |es| && es[i].EnterFlush? && Forward(es)
    ensures LastFlush(es) >= es[i].now
    decreases |es|
  {
    var e := es[|es| - 1];
    if i < |es| - 1 && !(e.BeginRun? || e.EnterFlush?) {
      FlushIsRecent(es[..|es| - 1], i);
    } else if i < |es| - 1 {
      assert Reading(es[i]).Some? && Reading(e).Some?;
    }
  }

  /** While the clock does not go back, no call within an interval after a flush flushes at once, whoever
      made that flush: immediate flushes are an interval apart. */
  lemma FlushesAreApart(es: seq<Event>, i: nat, j: nat)
    requires Run(es).Some? && Forward(es) && i < j < |es|
    requires es[i].EnterFlush? && FlushesAtOnce(es, j)
    ensures es[j].now >= es[i].now + PROGRESS_INTERVAL
  {
    var front, e := es[..j], es[j];
    RunPrefix(es, j);
    assert es[..j + 1][..j] == front && es[..j + 1][j] == e;
    FlushIsRecent(front, i);
    ProgressIsThrottled(front, e.t, e.msg, e.now);
    NoneBefore(Run(front).value, e);
  }

  /** The goroutine of a call is a new one. */
  lemma NoneBefore(s: State, e: Event)
    requires e.CallProgress? && Next(s, e).Some?
    ensures At(s, e.t) == None
  {
  }

  // ----- From the start to the outcome -----

  /** A step was the completion with this outcome and message, or the abort with this message. */
  predicate Decides(e: Event, snap: Snapshot) {
    e == Complete(snap.status, snap.message) || (e == AbortQueued(snap.message) && snap.status.Aborted?)
  }

  lemma StepDecides(s: State, e: Event)
    requires Inv(s) && Next(s, e).Some? && Next(s, e).value.fields.finished
    ensures
      var n := Next(s, e).value;
      (s.fields.finished && n.fields.Snap() == s.fields.Snap()) || Decides(e, n.fields.Snap())
  {
  }

  /** A finished command is, and is written as, what one step decided: the completion with its outcome and
      message, or the abort with its message; nothing changes that any more. */
  lemma {:induction false} FinishedAsDecided(es: seq<Event>)
    requires Run(es).Some? && Run(es).value.fields.finished
    ensures exists e <- es :: Decides(e, Run(es).value.fields.Snap())
    decreases |es|
  {
    if es != [] {
      var front, e := es[..|es| - 1], es[|es| - 1];
      RunInv(front);
      StepDecides(Run(front).value, e);
      assert es == front + [e];
      hide Next, Decides, Inv;
      if Decides(e, Run(es).value.fields.Snap()) {
        assert e in es;
      } else {
        FinishedAsDecided(front);
        var d :| d in front && Decides(d, Run(front).value.fields.Snap());
        assert d in es;
      }
    }
  }

  /** From the write of the start on: a command whose start could not be saved fails without its handler; one
      whose start was saved is announced, and its handler runs if and only if the context is alive then. */
  lemma StartDecides(s: State, snap: Snapshot, ok: bool, cancelled: bool)
    requires Inv(s) && At(s, MAIN) == Some(Writing(Start, snap))
    ensures
      var w := Next(s, Write(MAIN, ok));
      && w.Some? && w.value.attempts == s.attempts + [snap]
      && var r := Next(w.value, Release(MAIN));
         && r.Some? && r.value.persist.None?
         && (if !ok then At(r.value, MAIN) == Some(Failure) && r.value.events == s.events
             else
               var a := Next(r.value, AnnounceStart(cancelled));
               && a.Some? && a.value.events == s.events + [snap]
               && At(a.value, MAIN) == Some(if cancelled then Failure else Invoking)
               && (a.value.handed <==> !cancelled))
  {
    assert !s.handed;
  }

}
