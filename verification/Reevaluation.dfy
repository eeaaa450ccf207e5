/** The background re-evaluation of open groups: requests while it runs are coalesced into one more
    run. The steps are the critical sections of one lock and the start and end of a run. */
module Reevaluation {
  import opened Wrappers

  datatype Flags = Flags(running: bool, pending: bool, closed: bool)

  datatype Asked = Refused | Coalesced | Launched

  function Request(f: Flags): (Flags, Asked) {
    if f.closed then (f, Refused)
    else if f.running then (f.(pending := true), Coalesced)
    else (f.(running := true), Launched)
  }

  /** After a run: go round again? */
  function Decide(f: Flags): (Flags, bool) {
    if !f.pending || f.closed then (f.(running := false, pending := false), false) else (f.(pending := false), true)
  }

  class Worker {
    var running: bool
    var pending: bool
    var closed: bool

    function State(): Flags
      reads this
    {
      Flags(running, pending, closed)
    }

    constructor ()
      ensures State() == Flags(false, false, false)
    {
      running, pending, closed := false, false, false;
    }

    method Ask() returns (asked: Asked)
      modifies this
      ensures (State(), asked) == Request(old(State()))
    {
      if closed {
        return Refused;
      }
      if running {
        pending := true;
        return Coalesced;
      }
      running := true;
      asked := Launched;
    }

    method AfterRun() returns (again: bool)
      modifies this
      ensures (State(), again) == Decide(old(State()))
    {
      if !pending || closed {
        running, pending := false, false;
        return false;
      }
      pending := false;
      again := true;
    }

    method Shut()
      modifies this
      ensures State() == old(State()).(closed := true)
    {
      closed := true;
    }
  }

  // ----- The whole system -----

  /** Where a runner is: about to run, running, or before it decides whether to run again. */
  datatype Pc = Starting | Running | Deciding

  datatype Mark = Asked(how: Asked) | Started | Ended | Closed | Waited

  /** `runners` are the goroutines there are; `hist` is all that happened. */
  datatype State = State(flags: Flags, runners: map<nat, Pc>, nextRunner: nat, hist: seq<Mark>)

  const INITIAL := State(Flags(false, false, false), map[], 0, [])

  datatype Event = Ask | Start(r: nat) | End(r: nat) | Choose(r: nat) | Close | Wait

  function Next(s: State, e: Event): Option<State> {
    match e
    case Ask =>
      var (flags, how) := Request(s.flags);
      var t := s.(flags := flags, hist := s.hist + [Mark.Asked(how)]);
      Some(if how.Launched? then t.(runners := s.runners[s.nextRunner := Starting], nextRunner := s.nextRunner + 1) else t)
    case Start(r) =>
      if r !in s.runners || !s.runners[r].Starting? then None
      else Some(s.(runners := s.runners[r := Running], hist := s.hist + [Started]))
    case End(r) =>
      if r !in s.runners || !s.runners[r].Running? then None
      else Some(s.(runners := s.runners[r := Deciding], hist := s.hist + [Ended]))
    case Choose(r) =>
      if r !in s.runners || !s.runners[r].Deciding? then None
      else
        var (flags, again) := Decide(s.flags);
        Some(s.(flags := flags, runners := if again then s.runners[r := Starting] else s.runners - {r}))
    case Close => Some(s.(flags := s.flags.(closed := true), hist := s.hist + [Closed]))
    case Wait =>
      if !s.flags.closed || s.runners != map[] then None else Some(s.(hist := s.hist + [Waited]))
  }

  function Run(s: State, es: seq<Event>): Option<State>
    decreases |es|
  {
    if es == [] then Some(s)
    else
      match Next(s, es[0])
      case None => None
      case Some(t) => Run(t, es[1..])
  }

  /** A request that was accepted. */
  predicate Accepted(m: Mark) {
    m.Asked? && !m.how.Refused?
  }

  /** A run started after entry `i`. */
  predicate RunAfter(hist: seq<Mark>, i: nat) {
    exists j | i < j < |hist| :: hist[j].Started?
  }

  /** The one runner will start a run yet. */
  predicate RunDue(s: State) {
    exists r <- s.runners :: s.runners[r].Starting? || (s.flags.pending && !s.flags.closed)
  }

  predicate RunnersOk(flags: Flags, runners: map<nat, Pc>, nextRunner: nat) {
    && (forall r <- runners :: r < nextRunner && flags.running)
    && (forall q, r | q in runners && r in runners :: q == r)
    && (flags.running ==> runners != map[])
    && (flags.pending ==> flags.running)
  }

  predicate ServedOrDue(s: State) {
    forall i | 0 <= i < |s.hist| && Accepted(s.hist[i]) :: RunAfter(s.hist, i) || RunDue(s) || s.flags.closed
  }

  predicate Inv(s: State) {
    RunnersOk(s.flags, s.runners, s.nextRunner) && ServedOrDue(s)
  }

  lemma HistGrows(hist: seq<Mark>, m: Mark, i: nat)
    requires i < |hist|
    ensures RunAfter(hist, i) ==> RunAfter(hist + [m], i)
    ensures m.Started? ==> RunAfter(hist + [m], i)
  {
    if RunAfter(hist, i) {
      var j :| i < j < |hist| && hist[j].Started?;
      assert (hist + [m])[j] == hist[j];
    }
    assert (hist + [m])[|hist|] == m;
  }

  lemma KeepsRunners(s: State, e: Event)
    requires RunnersOk(s.flags, s.runners, s.nextRunner) && Next(s, e).Some?
    ensures
      var t := Next(s, e).value;
      RunnersOk(t.flags, t.runners, t.nextRunner)
  {
    if e.Choose? && !Decide(s.flags).1 {
      assert s.runners - {e.r} == map[];
    }
    if e.Ask? && Request(s.flags).1.Launched? {
      assert s.runners == map[];
      assert s.nextRunner in Next(s, e).value.runners;
    }
    if e.Start? || e.End? || e.Choose? {
      assert s.flags.running;
    }
  }

  lemma KeepsServed(s: State, e: Event)
    requires Inv(s) && Next(s, e).Some?
    ensures ServedOrDue(Next(s, e).value)
  {
    var t := Next(s, e).value;
    forall i | 0 <= i < |t.hist| && Accepted(t.hist[i]) ensures RunAfter(t.hist, i) || RunDue(t) || t.flags.closed {
      if i < |s.hist| {
        assert Accepted(s.hist[i]);
        if t.hist != s.hist {
          HistGrows(s.hist, t.hist[|s.hist|], i);
        }
      }
      if !t.flags.closed && e.Ask? {
        AskMakesDue(s);
      }
      if !t.flags.closed && RunDue(s) {
        DueStays(s, e);
      }
    }
  }

  lemma AskMakesDue(s: State)
    requires RunnersOk(s.flags, s.runners, s.nextRunner) && !s.flags.closed
    ensures RunDue(Next(s, Ask).value)
  {
    var t := Next(s, Ask).value;
    if s.flags.running {
      var r :| r in s.runners;
      assert r in t.runners && t.flags.pending;
    } else {
      assert t.runners[s.nextRunner].Starting?;
    }
  }

  /** A run that is due stays due until it starts, or the server closes. */
  lemma DueStays(s: State, e: Event)
    requires RunnersOk(s.flags, s.runners, s.nextRunner) && RunDue(s) && Next(s, e).Some?
    requires !Next(s, e).value.flags.closed
    ensures e.Start? || RunDue(Next(s, e).value)
  {
    var t := Next(s, e).value;
    var r :| r in s.runners && (s.runners[r].Starting? || (s.flags.pending && !s.flags.closed));
    if !e.Start? && r in t.runners {
      assert t.runners[r].Starting? || (t.flags.pending && !t.flags.closed);
    }
  }

  lemma {:induction false} RunInv(s: State, es: seq<Event>)
    requires Inv(s) && Run(s, es).Some?
    ensures Inv(Run(s, es).value)
    decreases |es|
  {
    if es != [] {
      KeepsRunners(s, es[0]);
      KeepsServed(s, es[0]);
      RunInv(Next(s, es[0]).value, es[1..]);
    }
  }

  // ----- Main results -----

  /** At most one runner at any time; and every accepted request is followed by a run that starts after
      it, or one is due, unless the server was closed. */
  lemma RequestsAreServed(es: seq<Event>, i: nat)
    requires Run(INITIAL, es).Some?
    ensures
      var s := Run(INITIAL, es).value;
      && |s.runners| <= 1 && (s.flags.running <==> |s.runners| == 1) && (s.flags.pending ==> s.flags.running)
      && (i < |s.hist| && Accepted(s.hist[i]) ==> RunAfter(s.hist, i) || RunDue(s) || s.flags.closed)
  {
    assert Inv(INITIAL);
    RunInv(INITIAL, es);
    var s := Run(INITIAL, es).value;
    if s.runners != map[] {
      var r :| r in s.runners;
      assert s.runners.Keys == {r};
      assert |s.runners| == |s.runners.Keys|;
    }
  }

  /** While the server is open, nothing is left over when no runner is. */
  lemma QuietMeansServed(es: seq<Event>, i: nat)
    requires Run(INITIAL, es).Some?
    ensures
      var s := Run(INITIAL, es).value;
      !s.flags.running && !s.flags.closed && i < |s.hist| && Accepted(s.hist[i]) ==> RunAfter(s.hist, i)
  {
    RequestsAreServed(es, i);
  }

  /** At most three steps of one runner, the last of which starts a run. */
  predicate LeadsToStart(r: nat, steps: seq<Event>) {
    && 1 <= |steps| <= 3 && steps[|steps| - 1] == Start(r)
    && forall e <- steps :: e == Start(r) || e == End(r) || e == Choose(r)
  }

  /** A run that is due starts after at most three steps of its runner, whoever else does what before. */
  lemma DueRunStarts(es: seq<Event>)
    requires Run(INITIAL, es).Some? && RunDue(Run(INITIAL, es).value)
    ensures exists r, steps :: LeadsToStart(r, steps) && Run(Run(INITIAL, es).value, steps).Some?
  {
    var s := Run(INITIAL, es).value;
    var r :| r in s.runners && (s.runners[r].Starting? || (s.flags.pending && !s.flags.closed));
    var steps: seq<Event>;
    match s.runners[r] {
      case Starting => steps := [Start(r)];
      case Deciding => steps := [Choose(r), Start(r)];
      case Running => steps := [End(r), Choose(r), Start(r)];
    }
    var t := s;
    if s.runners[r].Running? {
      t := Next(s, End(r)).value;
      assert steps[1..] == [Choose(r), Start(r)];
    }
    if !s.runners[r].Starting? {
      var u := Next(t, Choose(r)).value;
      assert [Choose(r), Start(r)][1..] == [Start(r)];
      assert Run(t, [Choose(r), Start(r)]) == Run(u, [Start(r)]);
      t := u;
    }
    assert [Start(r)][1..] == [];
    assert Run(t, [Start(r)]) == Run(Next(t, Start(r)).value, []);
    assert LeadsToStart(r, steps);
  }

  predicate Shut(s: State) {
    s.flags.closed && RunnersOk(s.flags, s.runners, s.nextRunner)
  }

  function Starts(hist: seq<Mark>): nat {
    if hist == [] then 0 else Starts(hist[..|hist| - 1]) + if hist[|hist| - 1].Started? then 1 else 0
  }

  function Left(s: State): nat {
    if exists r <- s.runners :: s.runners[r].Starting? then 1 else 0
  }

  lemma ShutStep(s: State, e: Event)
    requires Shut(s) && Next(s, e).Some?
    ensures
      var t := Next(s, e).value;
      && Shut(t) && Starts(t.hist) + Left(t) <= Starts(s.hist) + Left(s)
      && (s.runners == map[] ==> t.runners == map[])
  {
    KeepsRunners(s, e);
    var t := Next(s, e).value;
    if t.hist != s.hist {
      assert t.hist[..|t.hist| - 1] == s.hist;
    }
    if e.Start? {
      assert s.runners[e.r].Starting?;
      assert forall q <- t.runners :: q == e.r;
    }
  }

  /** After Close no run is added: at most the one already launched starts, and none once Close has waited
      for the runners. */
  lemma {:induction false} CloseEndsIt(s: State, es: seq<Event>)
    requires Shut(s) && Run(s, es).Some?
    ensures
      var t := Run(s, es).value;
      && Starts(t.hist) <= Starts(s.hist) + Left(s)
      && (s.runners == map[] ==> Starts(t.hist) == Starts(s.hist))
    decreases |es|
  {
    if es != [] {
      ShutStep(s, es[0]);
      CloseEndsIt(Next(s, es[0]).value, es[1..]);
      StartsGrow(s, es);
    } 
  }

  lemma {:induction false} StartsGrow(s: State, es: seq<Event>)
    requires Run(s, es).Some?
    ensures Starts(Run(s, es).value.hist) >= Starts(s.hist)
    decreases |es|
  {
    if es != [] {
      var t := Next(s, es[0]).value;
      if t.hist != s.hist {
        assert t.hist[..|t.hist| - 1] == s.hist;
      }
      StartsGrow(t, es[1..]);
    }
  }

  /** Some continuation serves request `i`. */
  ghost predicate Servable(s: State, i: nat) {
    exists es :: Run(s, es).Some? && RunAfter(Run(s, es).value.hist, i)
  }

  /** Exactly when a request is lost: when the server closes, an accepted request that no run has followed
      yet can still be served if and only if a runner is about to run. */
  lemma ClosingDropsExactly(s: State, i: nat)
    requires Inv(s) && i < |s.hist| && Accepted(s.hist[i]) && !RunAfter(s.hist, i)
    ensures Servable(Next(s, Close).value, i) <==> exists r <- s.runners :: s.runners[r].Starting?
  {
    var t := Next(s, Close).value;
    assert forall j | i < j < |s.hist| :: t.hist[j] == s.hist[j];
    if r :| r in s.runners && s.runners[r].Starting? {
      StartServes(t, r, i);
    }
    forall es | Run(t, es).Some? && RunAfter(Run(t, es).value.hist, i) ensures Left(t) == 1 {
      if Left(t) == 0 {
        NothingMoreStarts(t, es, i);
      }
    }
  }

  lemma StartServes(s: State, r: nat, i: nat)
    requires r in s.runners && s.runners[r].Starting? && i < |s.hist|
    ensures Servable(s, i)
  {
    var t := Next(s, Start(r)).value;
    assert [Start(r)][1..] == [];
    assert Run(s, [Start(r)]) == Run(t, []) == Some(t);
    assert t.hist[|s.hist|] == Started;
  }

  lemma {:induction false} NothingMoreStarts(s: State, es: seq<Event>, i: nat)
    requires Shut(s) && Left(s) == 0 && !RunAfter(s.hist, i) && Run(s, es).Some?
    ensures !RunAfter(Run(s, es).value.hist, i)
    decreases |es|
  {
    if es != [] {
      var t := Next(s, es[0]).value;
      KeepsRunners(s, es[0]);
      assert !es[0].Start?;
      assert forall j | i < j < |t.hist| :: j < |s.hist| ==> t.hist[j] == s.hist[j];
      NothingMoreStarts(t, es[1..], i);
    }
  }

  /** A request made while a run is under way is dropped if the server closes before that run ends. */
  lemma CloseDropsPending()
    ensures
      var s := Run(INITIAL, [Ask, Start(0), Ask, Close, End(0), Choose(0)]);
      s.Some? && s.value.runners == map[] && Accepted(s.value.hist[2]) && !RunAfter(s.value.hist, 2)
  {
    var a := Next(INITIAL, Ask).value;
    var b := Next(a, Start(0)).value;
    var c := Next(b, Ask).value;
    var d := Next(c, Close).value;
    var e := Next(d, End(0)).value;
    var f := Next(e, Choose(0)).value;
    var es := [Ask, Start(0), Ask, Close, End(0), Choose(0)];
    assert es[1..] == [Start(0), Ask, Close, End(0), Choose(0)];
    assert es[1..][1..] == [Ask, Close, End(0), Choose(0)];
    assert [Ask, Close, End(0), Choose(0)][1..] == [Close, End(0), Choose(0)];
    assert [Close, End(0), Choose(0)][1..] == [End(0), Choose(0)];
    assert [End(0), Choose(0)][1..] == [Choose(0)] && [Choose(0)][1..] == [];
    assert Run(INITIAL, es) == Run(b, [Ask, Close, End(0), Choose(0)]) == Run(d, [End(0), Choose(0)]) == Some(f);
    assert f.hist == [Mark.Asked(Launched), Started, Mark.Asked(Coalesced), Closed, Ended];
  }

  // ----- No run nobody asked for -----

  function Runs(hist: seq<Mark>): nat {
    if hist == [] then 0 else Runs(hist[..|hist| - 1]) + if hist[|hist| - 1].Started? then 1 else 0
  }

  function Requests(hist: seq<Mark>): nat {
    if hist == [] then 0 else Requests(hist[..|hist| - 1]) + if Accepted(hist[|hist| - 1]) then 1 else 0
  }

  lemma OneMark(hist: seq<Mark>, m: Mark)
    ensures Runs(hist + [m]) == Runs(hist) + if m.Started? then 1 else 0
    ensures Requests(hist + [m]) == Requests(hist) + if Accepted(m) then 1 else 0
  {
    assert (hist + [m])[..|hist|] == hist;
  }

  /** Runs that are still to start. */
  ghost function Owed(s: State): nat {
    (if exists r <- s.runners :: s.runners[r].Starting? then 1 else 0) + (if s.flags.pending then 1 else 0)
  }

  lemma StepOwes(s: State, e: Event)
    requires Inv(s) && Next(s, e).Some?
    ensures
      var t := Next(s, e).value;
      Runs(t.hist) + Owed(t) - Requests(t.hist) <= Runs(s.hist) + Owed(s) - Requests(s.hist)
  {
    var t := Next(s, e).value;
    if t.hist != s.hist {
      OneMark(s.hist, t.hist[|s.hist|]);
    }
    hide Runs, Requests;
    if e.Start? {
      assert s.runners[e.r].Starting?;
      assert forall r <- t.runners :: r == e.r;
    } else if e.Ask? && Request(s.flags).1.Launched? {
      assert forall r <- s.runners :: false;
    } else if e.Choose? || e.End? {
      assert forall r <- s.runners :: r == e.r;
    }
  }

  /** There are never more runs than accepted requests, those that are due included. */
  lemma {:induction false} RunsAreAskedFor(s: State, es: seq<Event>)
    requires Inv(s) && Run(s, es).Some? && Runs(s.hist) + Owed(s) <= Requests(s.hist)
    ensures var t := Run(s, es).value; Runs(t.hist) + Owed(t) <= Requests(t.hist)
    decreases |es|
  {
    if es != [] {
      KeepsRunners(s, es[0]);
      KeepsServed(s, es[0]);
      StepOwes(s, es[0]);
      hide Inv, Next, Owed;
      RunsAreAskedFor(Next(s, es[0]).value, es[1..]);
    }
  }

  /** ... in every run of a server. */
  lemma NoRunUnasked(es: seq<Event>)
    requires Run(INITIAL, es).Some?
    ensures var t := Run(INITIAL, es).value; Runs(t.hist) + Owed(t) <= Requests(t.hist)
  {
    assert Inv(INITIAL);
    RunsAreAskedFor(INITIAL, es);
  }

  /** Waiting ends if and only if the server is closed and no runner is left, and then nothing runs any more. */
  lemma {:induction false} WaitIsFinal(s: State, es: seq<Event>)
    requires Next(s, Wait).Some? && Run(s, es).Some?
    ensures s.flags.closed && s.runners == map[]
    ensures var t := Run(s, es).value; t.flags.closed && t.runners == map[] && Runs(t.hist) == Runs(s.hist)
    decreases |es|
  {
    if es != [] {
      var t := Next(s, es[0]).value;
      OneMark(s.hist, t.hist[|s.hist|]);
      hide Runs, Requests;
      WaitIsFinal(t, es[1..]);
    }
  }

}
