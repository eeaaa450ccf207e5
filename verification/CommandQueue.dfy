/** The command queue as a system: enqueue, start, run and shutdown.

    The steps are the critical sections of the manager's lock and the steps of each command's
    goroutine; any interleaving of them is a run. */
module CommandQueue {
  import opened Wrappers
  import opened CommandLanes
  import opened Measure

  // ----- The whole system -----

  datatype Outcome = Completed | Failed | Aborted

  datatype Final = Final(id: nat, outcome: Outcome)

  /** Where a command is when it is neither waiting in the queue nor merely launched. */
  datatype Pc =
    | Created     // in the store, not in the queue yet
    | Condemned   // refused or drained by shutdown; its abort is still to be recorded
    | Recording   // run saves the start
    | Ready       // start recorded and announced
    | Committed   // has seen the context still alive and is about to call the handler
    | Failing     // run gives up before the handler
    | Invoking    // the handler runs
    | Finished    // outcome recorded, lane not yet free
    | Gone

  datatype Request = Request(name: string, canon: string, exclusive: bool)

  /** The enqueue in flight, if any: enqMu lets only one in at a time. */
  datatype Enqueue = Idle | Checked(req: Request) | Stored(item: Item)

  datatype State = State(
    lanes: Lanes, closed: bool,
    primed: bool,               // Start has made its first dispatch pass
    passing: bool,              // a pass holds the lock: it has seen the context alive and starts commands
    recovered: bool, orphans: set<nat>, swept: set<nat>,
    enq: Enqueue, nextId: nat,
    items: map<nat, Item>,      // every command this process stored
    pc: map<nat, Pc>,
    accepted: seq<Item>,        // appended to the queue, in order
    drained: seq<Item>,         // taken off the queue by shutdown
    aborted: set<nat>,          // aborted before they were started: refused, drained, or begun too late
    recorded: set<nat>,         // commands whose start is in the store
    invoked: seq<nat>,          // handler calls, in order
    finals: seq<Final>,         // final states recorded, in order
    freshUsed: bool)            // EnqueueFresh was used

  /** `orphans` are the unfinished rows of the previous process; ids are handed out above them. */
  function Initial(workers: nat, orphans: set<nat>, firstId: nat): State {
    State(Lanes(workers, false, false, false, [], map[], false, 0, []), false, false, false, false, orphans, {},
          Idle, firstId, map[], map[], [], [], {}, {}, [], [], false)
  }

  datatype Event =
    | EnqueueCheck(req: Request, joinRunning: bool)
    | EnqueueStore
    | EnqueueInsert
    | Start
    | Recover
    | FirstDispatch
    | FinishPass              // the pass under way starts what fits and gives up the lock
    | Cancel                  // Start's context ends; this takes no lock
    | Shutdown
    | Wait
    | AbortCondemned(id: nat)
    | BeginRun(id: nat)
    | RecordStart(id: nat, ok: bool)
    | Admit(id: nat)          // run looks at the context for the last time
    | Invoke(id: nat)
    | Return(id: nat, ok: bool)
    | GiveUp(id: nat)
    | Release(id: nat)

  /** A dispatch pass begins: with the lock held it decides, once, whether anything may be started.
      Whatever takes no lock may happen before the pass acts on that. */
  function Dispatching(s: State): State {
    s.(passing := CanStart(s.lanes), primed := s.primed || s.lanes.started)
  }

  function Passed(s: State): State {
    s.(lanes := Pass(s.lanes, s.lanes.queue), passing := false)
  }

  /** Steps that take the manager's lock. */
  predicate Locks(e: Event) {
    e.EnqueueCheck? || e.EnqueueInsert? || e.Start? || e.FirstDispatch? || e.Shutdown? || e.Wait? || e.Release?
  }

  /** Entries whose finished flag is set. */
  function FinishedIds(s: State): set<nat> {
    set id | id in s.pc && (s.pc[id].Finished? || s.pc[id].Gone?)
  }

  /** FailRunning, once, under enqMu: every row the store still shows as queued or running. */
  function Recovered(s: State): State {
    if s.recovered then s
    else s.(recovered := true, swept := s.orphans + (s.items.Keys - FinishedIds(s)))
  }

  function Finish(s: State, id: nat, outcome: Outcome, pc: Pc): State {
    s.(finals := s.finals + [Final(id, outcome)], pc := s.pc[id := pc])
  }

  function Condemn(pc: map<nat, Pc>, q: seq<Item>): map<nat, Pc> {
    map id | id in pc.Keys + Ids(q) :: if id in Ids(q) then Condemned else pc[id]
  }

  function Ids(q: seq<Item>): set<nat> {
    set i | 0 <= i < |q| :: q[i].id
  }

  function Drain(s: State): State {
    s.(lanes := s.lanes.(stopping := true, queue := []), drained := s.drained + s.lanes.queue,
       aborted := s.aborted + Ids(s.lanes.queue), pc := Condemn(s.pc, s.lanes.queue))
  }

  predicate RunsAs(s: State, id: nat, pc: Pc) {
    id in s.lanes.running && id in s.pc && s.pc[id] == pc
  }

  // Each step is None when it is not enabled.

  /** A refused or joined enqueue leaves the queue alone. */
  ghost function CheckStep(s: State, req: Request, joinRunning: bool): Option<State> {
    if !s.enq.Idle? then None
    else
      var r := Recovered(s);
      if r.lanes.stopping || r.closed
         || HasDuplicate(r.lanes, FinishedIds(r), req.name, req.canon, joinRunning)
      then Some(r)
      else Some(r.(enq := Checked(req), freshUsed := r.freshUsed || !joinRunning))
  }

  function StoreStep(s: State): Option<State> {
    if !s.enq.Checked? then None
    else
      var item := Item(s.nextId, s.enq.req.name, s.enq.req.canon, s.enq.req.exclusive);
      Some(s.(enq := Stored(item), nextId := s.nextId + 1, items := s.items[item.id := item],
              pc := s.pc[item.id := Created]))
  }

  function InsertStep(s: State): Option<State> {
    if !s.enq.Stored? then None
    else if s.lanes.stopping || s.closed then Some(Refused(s))
    else Some(Dispatching(Appended(s)))
  }

  function Refused(s: State): State
    requires s.enq.Stored?
  {
    s.(enq := Idle, aborted := s.aborted + {s.enq.item.id}, pc := s.pc[s.enq.item.id := Condemned])
  }

  function Appended(s: State): State
    requires s.enq.Stored?
  {
    s.(enq := Idle, lanes := s.lanes.(queue := s.lanes.queue + [s.enq.item]),
       accepted := s.accepted + [s.enq.item], pc := s.pc - {s.enq.item.id})
  }

  function StartStep(s: State): Option<State> {
    if s.lanes.started || s.closed then Some(s) else Some(s.(lanes := s.lanes.(started := true)))
  }

  function FirstStep(s: State): Option<State> {
    if !s.lanes.started || s.primed || !s.recovered then None else Some(Dispatching(s))
  }

  function WaitStep(s: State): Option<State> {
    if s.lanes.started then Some(Closed(s)) else Some(Drain(Closed(s)))
  }

  function Closed(s: State): State {
    s.(closed := true)
  }

  function AbortStep(s: State, id: nat): Option<State> {
    if !(id in s.pc && s.pc[id].Condemned?) then None else Some(Finish(s, id, Aborted, Gone))
  }

  function TooLate(s: State, id: nat): State {
    Finish(s, id, Aborted, Finished).(aborted := s.aborted + {id})
  }

  function BeginStep(s: State, id: nat): Option<State> {
    if id !in s.lanes.running || id in s.pc then None
    else if s.lanes.cancelled then Some(TooLate(s, id))
    else Some(s.(pc := s.pc[id := Recording]))
  }

  function RecordStep(s: State, id: nat, ok: bool): Option<State> {
    if !RunsAs(s, id, Recording) then None
    else if ok then Some(s.(pc := s.pc[id := Ready], recorded := s.recorded + {id}))
    else Some(s.(pc := s.pc[id := Failing]))
  }

  function AdmitStep(s: State, id: nat): Option<State> {
    if !RunsAs(s, id, Ready) then None
    else Some(s.(pc := s.pc[id := if s.lanes.cancelled then Failing else Committed]))
  }

  function InvokeStep(s: State, id: nat): Option<State> {
    if !RunsAs(s, id, Committed) then None
    else Some(s.(pc := s.pc[id := Invoking], invoked := s.invoked + [id]))
  }

  function ReturnStep(s: State, id: nat, ok: bool): Option<State> {
    if !RunsAs(s, id, Invoking) then None
    else Some(Finish(s, id, if ok then Completed else if s.lanes.cancelled then Aborted else Failed, Finished))
  }

  function GiveUpStep(s: State, id: nat): Option<State> {
    if !RunsAs(s, id, Failing) then None
    else Some(Finish(s, id, if s.lanes.cancelled then Aborted else Failed, Finished))
  }

  function Freed(s: State, id: nat): State {
    if id !in s.lanes.running then s
    else s.(lanes := FreeLane(s.lanes, s.lanes.running[id]), pc := s.pc[id := Gone])
  }

  function ReleaseStep(s: State, id: nat): Option<State> {
    if !RunsAs(s, id, Finished) then None else Some(Dispatching(Freed(s, id)))
  }

  function Cancelled(s: State): State {
    s.(lanes := s.lanes.(cancelled := true))
  }

  ghost function Next(s: State, e: Event): Option<State> {
    if s.passing && Locks(e) then None
    else
      match e
      case EnqueueCheck(req, joinRunning) => CheckStep(s, req, joinRunning)
      case EnqueueStore => StoreStep(s)
      case EnqueueInsert => InsertStep(s)
      case Start => StartStep(s)
      case Recover => if !s.lanes.started || !s.enq.Idle? then None else Some(Recovered(s))
      case FirstDispatch => FirstStep(s)
      case FinishPass => if !s.passing then None else Some(Passed(s))
      case Cancel => Some(Cancelled(s))
      case Shutdown => if !s.primed || !s.lanes.cancelled then None else Some(Drain(s))
      case Wait => WaitStep(s)
      case AbortCondemned(id) => AbortStep(s, id)
      case BeginRun(id) => BeginStep(s, id)
      case RecordStart(id, ok) => RecordStep(s, id, ok)
      case Admit(id) => AdmitStep(s, id)
      case Invoke(id) => InvokeStep(s, id)
      case Return(id, ok) => ReturnStep(s, id, ok)
      case GiveUp(id) => GiveUpStep(s, id)
      case Release(id) => ReleaseStep(s, id)
  }

  ghost function Run(start: State, es: seq<Event>): Option<State> {
    if es == [] then Some(start)
    else
      var before := Run(start, es[..|es| - 1]);
      if before.None? then None else Next(before.value, es[|es| - 1])
  }

  // ----- The invariant -----

  ghost function Exclusive(running: map<nat, Item>): set<nat> {
    set id | id in running && running[id].exclusive
  }

  ghost function Shared(running: map<nat, Item>): set<nat> {
    set id | id in running && !running[id].exclusive
  }

  /** The busy counters tell exactly what runs. */
  ghost predicate CountInv(running: map<nat, Item>, exclusiveBusy: bool, sharedBusy: nat, workers: nat) {
    && (if exclusiveBusy then |Exclusive(running)| == 1 else Exclusive(running) == {})
    && sharedBusy == |Shared(running)| <= workers
  }

  ghost predicate NothingStartable(l: Lanes) {
    forall i :: 0 <= i < |l.queue| ==> Full(l, l.queue[i].exclusive)
  }

  ghost predicate QueueInv(queue: seq<Item>, running: map<nat, Item>) {
    && (forall i, j :: 0 <= i < j < |queue| ==> queue[i].id != queue[j].id && !SameKey(queue[i], queue[j]))
    && (forall i :: 0 <= i < |queue| ==> queue[i].id !in running)
  }

  /** The commands of one lane, in order. */
  function Lane(q: seq<Item>, exclusive: bool): seq<Item> {
    if q == [] then []
    else if q[0].exclusive == exclusive then [q[0]] + Lane(q[1..], exclusive)
    else Lane(q[1..], exclusive)
  }

  /** Each lane starts commands in the order they were accepted. */
  ghost predicate FifoInv(accepted: seq<Item>, starts: seq<Item>, queue: seq<Item>, drained: seq<Item>) {
    forall x :: Lane(accepted, x) == Lane(starts, x) + Lane(queue, x) + Lane(drained, x)
  }

  ghost predicate StopInv(s: State) {
    && (s.drained != [] ==> s.lanes.stopping)
    && (s.lanes.stopping ==> s.lanes.queue == [])
  }

  predicate OnLane(pc: Pc) {
    pc.Recording? || pc.Ready? || pc.Committed? || pc.Failing? || pc.Invoking? || pc.Finished?
  }

  predicate Queued(queue: seq<Item>, id: nat) {
    exists i :: 0 <= i < |queue| && queue[i].id == id
  }

  // Every stored command is in exactly one place.

  ghost predicate ItemsInv(items: map<nat, Item>, nextId: nat) {
    forall id :: id in items ==> items[id].id == id && id < nextId
  }

  ghost predicate QueuePlace(queue: seq<Item>, items: map<nat, Item>, pc: map<nat, Pc>) {
    forall i :: 0 <= i < |queue| ==>
      queue[i].id in items && items[queue[i].id] == queue[i] && queue[i].id !in pc
  }

  ghost predicate RunningPlace(running: map<nat, Item>, items: map<nat, Item>) {
    forall id :: id in running ==> id in items && items[id] == running[id]
  }

  ghost predicate PcPlace(running: map<nat, Item>, items: map<nat, Item>, pc: map<nat, Pc>) {
    forall id :: id in pc ==> id in items && (OnLane(pc[id]) <==> id in running)
  }

  ghost predicate SomePlace(queue: seq<Item>, running: map<nat, Item>, items: map<nat, Item>, pc: map<nat, Pc>) {
    forall id :: id in items ==> id in pc || id in running || Queued(queue, id)
  }

  ghost predicate EnqueuePlace(enq: Enqueue, items: map<nat, Item>, pc: map<nat, Pc>) {
    && (enq.Stored? ==>
          enq.item.id in items && items[enq.item.id] == enq.item && enq.item.id in pc && pc[enq.item.id].Created?)
    && (forall id :: id in pc && pc[id].Created? ==> enq.Stored? && enq.item.id == id)
  }

  ghost predicate CondemnedPlace(pc: map<nat, Pc>, ending: bool) {
    forall id :: id in pc && pc[id].Condemned? ==> ending
  }

  // Deduplication.

  predicate PendingKey(enq: Enqueue, item: Item) {
    match enq
    case Idle => false
    case Checked(req) => Matches(item, req.name, req.canon)
    case Stored(other) => item.id != other.id && SameKey(item, other)
  }

  ghost predicate QueueKeys(queue: seq<Item>, enq: Enqueue) {
    forall i :: 0 <= i < |queue| ==> !PendingKey(enq, queue[i])
  }

  predicate Unfinished(items: map<nat, Item>, pc: map<nat, Pc>, id: nat) {
    id in items && !(id in pc && (pc[id].Finished? || pc[id].Gone?))
  }

  ghost predicate UniqueKeys(items: map<nat, Item>, pc: map<nat, Pc>) {
    forall a, b :: Unfinished(items, pc, a) && Unfinished(items, pc, b) && a != b ==> !SameKey(items[a], items[b])
  }

  ghost predicate NoPendingKey(items: map<nat, Item>, pc: map<nat, Pc>, enq: Enqueue) {
    forall a :: Unfinished(items, pc, a) ==> !PendingKey(enq, items[a])
  }

  // Outcomes and handler calls.

  predicate Done(pc: map<nat, Pc>, id: nat) {
    id in pc && (pc[id].Finished? || pc[id].Gone?)
  }

  ghost predicate OutcomeInv(finals: seq<Final>, pc: map<nat, Pc>) {
    && (forall i, j :: 0 <= i < j < |finals| ==> finals[i].id != finals[j].id)
    && (forall i :: 0 <= i < |finals| ==> Done(pc, finals[i].id))
    && (forall id :: Done(pc, id) ==> exists i :: 0 <= i < |finals| && finals[i].id == id)
  }

  ghost predicate HandlerInv(invoked: seq<nat>, recorded: set<nat>, pc: map<nat, Pc>) {
    && (forall i, j :: 0 <= i < j < |invoked| ==> invoked[i] != invoked[j])
    && (forall i :: 0 <= i < |invoked| ==> invoked[i] in recorded && (Done(pc, invoked[i]) || At(pc, invoked[i], Invoking)))
    && (forall id :: id in recorded ==>
          Done(pc, id) || At(pc, id, Ready) || At(pc, id, Committed) || At(pc, id, Failing) || At(pc, id, Invoking))
    && (forall id :: At(pc, id, Ready) || At(pc, id, Committed) ==> id in recorded)
    && (forall id :: At(pc, id, Invoking) ==> id in invoked)
  }

  ghost predicate AbortedInv(aborted: set<nat>, invoked: seq<nat>, pc: map<nat, Pc>) {
    && (forall id :: id in aborted ==> (At(pc, id, Condemned) || Done(pc, id)) && id !in invoked)
    && (forall id :: At(pc, id, Condemned) ==> id in aborted)
  }

  ghost predicate DrainedInv(drained: seq<Item>, aborted: set<nat>) {
    forall x <- drained :: x.id in aborted
  }

  predicate At(pc: map<nat, Pc>, id: nat, at: Pc) {
    id in pc && pc[id] == at
  }

  /** Recovery ran before this process stored anything. */
  ghost predicate RecoveryInv(recovered: bool, idle: bool, items: map<nat, Item>, nextId: nat,
                              orphans: set<nat>, swept: set<nat>) {
    && (!recovered ==> items == map[] && idle && swept == {})
    && (recovered ==> swept == orphans)
    && (forall id :: id in orphans ==> id < nextId && id !in items)
  }

  ghost predicate PlacesInv(queue: seq<Item>, running: map<nat, Item>, items: map<nat, Item>, pc: map<nat, Pc>) {
    && QueueInv(queue, running)
    && QueuePlace(queue, items, pc)
    && RunningPlace(running, items)
    && SomePlace(queue, running, items, pc)
    && PcPlace(running, items, pc)
  }

  ghost predicate LaneCore(s: State) {
    && PlacesInv(s.lanes.queue, s.lanes.running, s.items, s.pc)
    && QueueKeys(s.lanes.queue, s.enq)
    && CountInv(s.lanes.running, s.lanes.exclusiveBusy, s.lanes.sharedBusy, s.lanes.workers)
    && FifoInv(s.accepted, s.lanes.starts, s.lanes.queue, s.drained)
    && StopInv(s)
  }

  ghost predicate CommandCore(s: State) {
    && ItemsInv(s.items, s.nextId)
    && EnqueuePlace(s.enq, s.items, s.pc)
    && CondemnedPlace(s.pc, s.lanes.stopping || s.closed)
    && (!s.freshUsed ==> UniqueKeys(s.items, s.pc) && NoPendingKey(s.items, s.pc, s.enq))
    && OutcomeInv(s.finals, s.pc)
    && HandlerInv(s.invoked, s.recorded, s.pc)
    && AbortedInv(s.aborted, s.invoked, s.pc)
    && DrainedInv(s.drained, s.aborted)
    && RecoveryInv(s.recovered, s.enq.Idle?, s.items, s.nextId, s.orphans, s.swept)
  }

  ghost predicate Core(s: State) {
    LaneCore(s) && CommandCore(s)
  }

  ghost predicate Inv(s: State) {
    && Core(s)
    && (s.primed && !s.passing && CanStart(s.lanes) ==> NothingStartable(s.lanes))
    && (s.primed ==> s.lanes.started)
  }

  // ----- Dispatching keeps it -----

  lemma {:induction false} LaneSplit(a: seq<Item>, b: seq<Item>, x: bool)
    ensures Lane(a + b, x) == Lane(a, x) + Lane(b, x)
    decreases |a|
  {
    if a == [] {
      assert a + b == b;
    } else {
      assert (a + b)[1..] == a[1..] + b;
      LaneSplit(a[1..], b, x);
    }
  }

  lemma {:induction false} LaneNone(q: seq<Item>, x: bool)
    requires forall i :: 0 <= i < |q| ==> q[i].exclusive != x
    ensures Lane(q, x) == []
    decreases |q|
  {
    if q != [] {
      LaneNone(q[1..], x);
    }
  }

  /** The first command of a lane leaves the queue for the running set. */
  predicate Launchable(s: State, k: nat) {
    && k < |s.lanes.queue| && !Full(s.lanes, s.lanes.queue[k].exclusive)
    && (forall j :: 0 <= j < k ==> Full(s.lanes, s.lanes.queue[j].exclusive))
  }

  function Launched(s: State, k: nat): State {
    var q := s.lanes.queue;
    if k >= |q| then s else s.(lanes := Occupy(s.lanes, q[k]).(queue := q[..k] + q[k + 1..]))
  }

  lemma LaneMove(starts: seq<Item>, q: seq<Item>, k: nat, x: bool)
    requires k < |q| && forall j :: 0 <= j < k ==> q[j].exclusive != q[k].exclusive
    ensures Lane(starts, x) + Lane(q, x) == Lane(starts + [q[k]], x) + Lane(q[..k] + q[k + 1..], x)
  {
    var e, front, back := q[k], q[..k], q[k + 1..];
    assert q == front + ([e] + back);
    if x == e.exclusive {
      LaneNone(front, x);
    }
    LaneOne(e, x);
    hide Lane;
    LaneMoveParts(starts, front, e, back, x);
  }

  lemma LaneMoveParts(starts: seq<Item>, front: seq<Item>, e: Item, back: seq<Item>, x: bool)
    requires Lane(front, x) == [] || Lane([e], x) == []
    ensures Lane(starts, x) + Lane(front + ([e] + back), x) == Lane(starts + [e], x) + Lane(front + back, x)
  {
    LaneSplit(front, [e] + back, x);
    LaneSplit([e], back, x);
    LaneSplit(front, back, x);
    LaneSplit(starts, [e], x);
    hide Lane;
  }

  lemma LaneOne(e: Item, x: bool)
    ensures Lane([e], x) == if x == e.exclusive then [e] else []
  {
    assert [e][1..] == [];
  }

  lemma LaunchKeepsFifo(accepted: seq<Item>, starts: seq<Item>, q: seq<Item>, drained: seq<Item>, k: nat)
    requires FifoInv(accepted, starts, q, drained)
    requires k < |q| && forall j :: 0 <= j < k ==> q[j].exclusive != q[k].exclusive
    ensures FifoInv(accepted, starts + [q[k]], q[..k] + q[k + 1..], drained)
  {
    forall x ensures Lane(accepted, x) == Lane(starts + [q[k]], x) + Lane(q[..k] + q[k + 1..], x) + Lane(drained, x) {
      LaneMove(starts, q, k, x);
    }
  }

  lemma LaunchKeepsCounts(l: Lanes, e: Item)
    requires CountInv(l.running, l.exclusiveBusy, l.sharedBusy, l.workers) && e.id !in l.running && !Full(l, e.exclusive)
    ensures var n := Occupy(l, e); CountInv(n.running, n.exclusiveBusy, n.sharedBusy, n.workers)
  {
    var n := l.running[e.id := e];
    if e.exclusive {
      assert Exclusive(n) == Exclusive(l.running) + {e.id};
      assert Shared(n) == Shared(l.running);
    } else {
      assert Exclusive(n) == Exclusive(l.running);
      assert Shared(n) == Shared(l.running) + {e.id};
    }
  }

  lemma LaunchKeepsPlaces(q: seq<Item>, k: nat, running: map<nat, Item>, items: map<nat, Item>, pc: map<nat, Pc>, enq: Enqueue)
    requires k < |q| && PlacesInv(q, running, items, pc) && QueueKeys(q, enq)
    ensures PlacesInv(q[..k] + q[k + 1..], running[q[k].id := q[k]], items, pc) && QueueKeys(q[..k] + q[k + 1..], enq)
  {
    assert q[k].id in items && items[q[k].id] == q[k] && q[k].id !in pc;
    LaunchKeepsSome(q, k, running, items, pc);
    LaunchKeepsQueue(q, k, running, items, pc, enq);
    hide SomePlace, QueueInv, QueuePlace, QueueKeys;
  }

  lemma LaunchKeepsQueue(q: seq<Item>, k: nat, running: map<nat, Item>, items: map<nat, Item>, pc: map<nat, Pc>, enq: Enqueue)
    requires k < |q| && QueueInv(q, running) && QueuePlace(q, items, pc) && QueueKeys(q, enq)
    ensures var p := q[..k] + q[k + 1..];
            QueueInv(p, running[q[k].id := q[k]]) && QueuePlace(p, items, pc) && QueueKeys(p, enq)
  {
    var p := q[..k] + q[k + 1..];
    assert forall i :: 0 <= i < |p| ==> p[i] == q[if i < k then i else i + 1];
  }

  lemma LaunchKeepsSome(q: seq<Item>, k: nat, running: map<nat, Item>, items: map<nat, Item>, pc: map<nat, Pc>)
    requires k < |q| && SomePlace(q, running, items, pc)
    ensures SomePlace(q[..k] + q[k + 1..], running[q[k].id := q[k]], items, pc)
  {
    var p, r := q[..k] + q[k + 1..], running[q[k].id := q[k]];
    forall id | id in items ensures id in pc || id in r || Queued(p, id) {
      if id !in pc && id !in running {
        var i :| 0 <= i < |q| && q[i].id == id;
        if i != k {
          assert p[if i < k then i else i - 1].id == id;
        }
      }
    }
  }

  lemma LaunchedIs(s: State, k: nat)
    requires k < |s.lanes.queue|
    ensures var l, q, n := s.lanes, s.lanes.queue, Launched(s, k);
            && n.lanes.queue == q[..k] + q[k + 1..] && n.lanes.running == l.running[q[k].id := q[k]]
            && n.lanes.starts == l.starts + [q[k]] && n.lanes.stopping == l.stopping
            && n.lanes.exclusiveBusy == Occupy(l, q[k]).exclusiveBusy && n.lanes.sharedBusy == Occupy(l, q[k]).sharedBusy
            && n.lanes.workers == l.workers
            && n.accepted == s.accepted && n.drained == s.drained && n.items == s.items && n.pc == s.pc && n.enq == s.enq
            && n.nextId == s.nextId
  {
  }

  lemma LaunchKeeps(s: State, k: nat)
    requires LaneCore(s) && Launchable(s, k)
    ensures LaneCore(Launched(s, k))
  {
    var l := s.lanes;
    assert l.queue[k].id !in l.running;
    hide FifoInv, CountInv, PlacesInv, QueueKeys, Launched;
    LaunchedIs(s, k);
    LaunchKeepsFifo(s.accepted, l.starts, l.queue, s.drained, k);
    LaunchKeepsCounts(l, l.queue[k]);
    LaunchKeepsPlaces(l.queue, k, l.running, s.items, s.pc, s.enq);
  }

  /** The lanes after the first i commands of the queue were considered. */
  function Midway(l: Lanes, i: nat): Lanes
    requires i <= |l.queue|
  {
    var p := Pass(l, l.queue[..i]);
    p.(queue := p.queue + l.queue[i..])
  }

  function MidState(s: State, i: nat): State
    requires i <= |s.lanes.queue|
  {
    s.(lanes := Midway(s.lanes, i))
  }

  /** Considering one more command either changes nothing or launches it. */
  lemma MidStep(s: State, i: nat)
    requires i < |s.lanes.queue|
    ensures var p, e, m := Pass(s.lanes, s.lanes.queue[..i]), s.lanes.queue[i], MidState(s, i);
            && |p.queue| < |m.lanes.queue| && m.lanes.queue[|p.queue|] == e
            && (forall j :: 0 <= j < |p.queue| ==> m.lanes.queue[j] == p.queue[j])
            && MidState(s, i + 1) == if Full(p, e.exclusive) then m else Launched(m, |p.queue|)
  {
    var q := s.lanes.queue;
    PassOne(s.lanes, q, i);
    var p, e := Pass(s.lanes, q[..i]), q[i];
    hide Pass;
    MidQueue(p.queue, q, i);
  }

  lemma MidQueue(p: seq<Item>, q: seq<Item>, i: nat)
    requires i < |q|
    ensures var m := p + q[i..];
            && m[|p|] == q[i] && m == p + [q[i]] + q[i + 1..]
            && m[..|p|] + m[|p| + 1..] == p + q[i + 1..]
  {
    assert q[i..] == [q[i]] + q[i + 1..];
  }

  /** What a pass leaves in the queue has no capacity. */
  lemma {:induction false} PassLeavesNothing(l: Lanes, q: seq<Item>)
    ensures NothingStartable(Pass(l, q))
    decreases |q|
  {
    if q != [] {
      PassLeavesNothing(l, q[..|q| - 1]);
    }
  }

  /** Whatever launching one command keeps, a dispatch pass keeps. */
  lemma {:induction false} PassInduction(keeps: State -> bool, s: State, i: nat)
    requires keeps(s) && i <= |s.lanes.queue|
    requires forall m, k :: keeps(m) && Launchable(m, k) ==> keeps(Launched(m, k))
    ensures keeps(MidState(s, i))
    decreases i
  {
    if i == 0 {
      assert [] + s.lanes.queue[0..] == s.lanes.queue;
      assert MidState(s, 0) == s;
    } else {
      PassInduction(keeps, s, i - 1);
      MidStep(s, i - 1);
      var p := Pass(s.lanes, s.lanes.queue[..i - 1]);
      if !Full(p, s.lanes.queue[i - 1].exclusive) {
        PassLeavesNothing(s.lanes, s.lanes.queue[..i - 1]);
        assert Launchable(MidState(s, i - 1), |p.queue|);
      }
    }
  }

  lemma {:induction false} PassFrame(l: Lanes, q: seq<Item>)
    ensures var p := Pass(l, q);
            p.workers == l.workers && p.started == l.started && p.stopping == l.stopping && p.cancelled == l.cancelled
    decreases |q|
  {
    if q != [] {
      PassFrame(l, q[..|q| - 1]);
    }
  }

  lemma PassKeepsLanes(s: State)
    requires LaneCore(s)
    ensures LaneCore(s.(lanes := Pass(s.lanes, s.lanes.queue)))
  {
    forall m, k | LaneCore(m) && Launchable(m, k) ensures LaneCore(Launched(m, k)) {
      LaunchKeeps(m, k);
    }
    PassInduction(m => LaneCore(m), s, |s.lanes.queue|);
    MidEnd(s);
  }

  lemma MidEnd(s: State)
    ensures MidState(s, |s.lanes.queue|) == s.(lanes := Pass(s.lanes, s.lanes.queue))
  {
    var l := s.lanes;
    assert l.queue[..|l.queue|] == l.queue;
    assert Pass(l, l.queue).queue + l.queue[|l.queue|..] == Pass(l, l.queue).queue;
  }

  lemma PassKeeps(s: State)
    requires Inv(s)
    ensures Inv(Passed(s))
  {
    PassKeepsLanes(s);
    PassFrame(s.lanes, s.lanes.queue);
    PassLeavesNothing(s.lanes, s.lanes.queue);
  }

  lemma DispatchingKeeps(s: State)
    requires Core(s) && (s.primed ==> s.lanes.started)
    ensures Inv(Dispatching(s))
  {
  }

  // ----- Every step keeps the invariant -----

  /** A running command's goroutine moves on. */
  lemma MoveOnLane(s: State, id: nat, to: Pc)
    requires LaneCore(s) && EnqueuePlace(s.enq, s.items, s.pc) && CondemnedPlace(s.pc, s.lanes.stopping || s.closed)
    requires id in s.lanes.running && OnLane(to) && (id in s.pc ==> OnLane(s.pc[id]))
    ensures LaneCore(s.(pc := s.pc[id := to]))
    ensures EnqueuePlace(s.enq, s.items, s.pc[id := to])
    ensures CondemnedPlace(s.pc[id := to], s.lanes.stopping || s.closed)
  {
    hide FifoInv, CountInv, PlacesInv, QueueKeys, EnqueuePlace, CondemnedPlace;
    OnLanePlaces(s.lanes.queue, s.lanes.running, s.items, s.pc, id, to);
    StoredKept(s.enq, s.items, s.pc, s.lanes.stopping || s.closed, id, to);
  }

  lemma OnLanePlaces(queue: seq<Item>, running: map<nat, Item>, items: map<nat, Item>, pc: map<nat, Pc>, id: nat, to: Pc)
    requires PlacesInv(queue, running, items, pc)
    requires id in running && OnLane(to)
    ensures PlacesInv(queue, running, items, pc[id := to])
  {
  }

  /** Finishing commands only removes keys. */
  lemma KeysShrink(items: map<nat, Item>, pc: map<nat, Pc>, enq: Enqueue, after: map<nat, Pc>)
    requires forall id :: Unfinished(items, after, id) ==> Unfinished(items, pc, id)
    ensures UniqueKeys(items, pc) ==> UniqueKeys(items, after)
    ensures NoPendingKey(items, pc, enq) ==> NoPendingKey(items, after, enq)
  {
  }

  lemma OutcomeAdded(finals: seq<Final>, pc: map<nat, Pc>, id: nat, outcome: Outcome, to: Pc)
    requires OutcomeInv(finals, pc) && !Done(pc, id) && (to.Finished? || to.Gone?)
    ensures OutcomeInv(finals + [Final(id, outcome)], pc[id := to])
  {
    var f, p := finals + [Final(id, outcome)], pc[id := to];
    forall a | Done(p, a) ensures exists i :: 0 <= i < |f| && f[i].id == a {
      if a == id {
        assert f[|finals|].id == a;
      } else {
        assert Done(pc, a);
        var i :| 0 <= i < |finals| && finals[i].id == a;
        assert f[i].id == a;
      }
    }
  }

  lemma OutcomeKept(finals: seq<Final>, pc: map<nat, Pc>, after: map<nat, Pc>)
    requires OutcomeInv(finals, pc) && forall id :: Done(pc, id) <==> Done(after, id)
    ensures OutcomeInv(finals, after)
  {
    forall a | Done(after, a) ensures exists i :: 0 <= i < |finals| && finals[i].id == a {
      assert Done(pc, a);
    }
  }

  /** A goroutine moves on without calling the handler. */
  lemma HandlerKept(invoked: seq<nat>, recorded: set<nat>, pc: map<nat, Pc>, id: nat, to: Pc)
    requires HandlerInv(invoked, recorded, pc)
    requires !to.Invoking? && !to.Ready? && (to.Committed? ==> At(pc, id, Ready))
    requires !Done(pc, id) || to.Gone?
    requires At(pc, id, Invoking) || At(pc, id, Failing) || Done(pc, id) ==> to.Finished? || to.Gone?
    requires At(pc, id, Ready) ==> to.Failing? || to.Committed?
    requires !At(pc, id, Committed)
    ensures HandlerInv(invoked, recorded, pc[id := to])
  {
  }

  /** A goroutine moves on; one that was aborted goes nowhere but away. */
  lemma AbortedKept(aborted: set<nat>, invoked: seq<nat>, pc: map<nat, Pc>, id: nat, to: Pc)
    requires AbortedInv(aborted, invoked, pc) && !to.Condemned?
    requires At(pc, id, Condemned) || Done(pc, id) ==> to.Gone?
    ensures AbortedInv(aborted, invoked, pc[id := to])
  {
  }

  lemma AbortedAdded(aborted: set<nat>, invoked: seq<nat>, pc: map<nat, Pc>, id: nat, to: Pc)
    requires AbortedInv(aborted, invoked, pc) && id !in invoked && (to.Condemned? || to.Finished?)
    ensures AbortedInv(aborted + {id}, invoked, pc[id := to])
  {
  }

  lemma FinishIs(s: State, id: nat, outcome: Outcome, pc: Pc)
    ensures var n := Finish(s, id, outcome, pc);
            && n.finals == s.finals + [Final(id, outcome)] && n.pc == s.pc[id := pc]
            && n.lanes == s.lanes && n.passing == s.passing && n.primed == s.primed && n.closed == s.closed
            && n.accepted == s.accepted && n.drained == s.drained && n.freshUsed == s.freshUsed
            && n.items == s.items && n.enq == s.enq && n.nextId == s.nextId
            && n.invoked == s.invoked && n.recorded == s.recorded && n.aborted == s.aborted
            && n.recovered == s.recovered && n.orphans == s.orphans && n.swept == s.swept
  {
  }

  lemma RunningIsPlaced(s: State, id: nat)
    requires LaneCore(s) && id in s.lanes.running
    ensures id in s.pc ==> OnLane(s.pc[id])
    ensures !At(s.pc, id, Created) && !At(s.pc, id, Condemned)
  {
    assert id in s.pc ==> OnLane(s.pc[id]);
  }

  lemma FinishKeepsCommands(s: State, id: nat, outcome: Outcome)
    requires Inv(s) && id in s.lanes.running && !Done(s.pc, id) && !At(s.pc, id, Ready) && !At(s.pc, id, Committed)
    ensures CommandCore(Finish(s, id, outcome, Finished))
  {
    hide LaneCore, Finish, UniqueKeys, NoPendingKey, OutcomeInv, HandlerInv, AbortedInv, EnqueuePlace, CondemnedPlace,
      RecoveryInv, ItemsInv, DrainedInv;
    FinishIs(s, id, outcome, Finished);
    var n := Finish(s, id, outcome, Finished);
    RunningIsPlaced(s, id);
    KeysShrink(s.items, s.pc, s.enq, n.pc);
    OutcomeAdded(s.finals, s.pc, id, outcome, Finished);
    HandlerKept(s.invoked, s.recorded, s.pc, id, Finished);
    AbortedKept(s.aborted, s.invoked, s.pc, id, Finished);
    StoredKept(s.enq, s.items, s.pc, s.lanes.stopping || s.closed, id, Finished);
  }

  lemma FinishKeeps(s: State, id: nat, outcome: Outcome)
    requires Inv(s) && id in s.lanes.running && !Done(s.pc, id) && !At(s.pc, id, Ready) && !At(s.pc, id, Committed)
    ensures Inv(Finish(s, id, outcome, Finished))
  {
    FinishIs(s, id, outcome, Finished);
    FinishKeepsCommands(s, id, outcome);
    hide CommandCore, Finish, FifoInv, CountInv, PlacesInv;
    OnLanePlaces(s.lanes.queue, s.lanes.running, s.items, s.pc, id, Finished);
  }

  /** A command that is on no lane changes place. */
  lemma MoveOffLane(queue: seq<Item>, running: map<nat, Item>, items: map<nat, Item>, pc: map<nat, Pc>, id: nat, to: Pc)
    requires PlacesInv(queue, running, items, pc)
    requires id in pc && !OnLane(pc[id]) && !OnLane(to)
    ensures PlacesInv(queue, running, items, pc[id := to])
  {
  }

  /** A running command's goroutine moves on without finishing: all but what concerns its handler. */
  lemma AdvanceKeeps(s: State, id: nat, to: Pc)
    requires Inv(s) && id in s.lanes.running && !Done(s.pc, id) && OnLane(to) && !to.Finished?
    ensures LaneCore(s.(pc := s.pc[id := to]))
    ensures var pc := s.pc[id := to];
            && EnqueuePlace(s.enq, s.items, pc) && CondemnedPlace(pc, s.lanes.stopping || s.closed)
            && (!s.freshUsed ==> UniqueKeys(s.items, pc) && NoPendingKey(s.items, pc, s.enq))
            && OutcomeInv(s.finals, pc)
  {
    hide LaneCore, EnqueuePlace, CondemnedPlace, UniqueKeys, NoPendingKey, OutcomeInv, HandlerInv, AbortedInv, ItemsInv, RecoveryInv;
    RunningIsPlaced(s, id);
    MoveOnLane(s, id, to);
    AdvanceKeepsKeys(s.items, s.pc, s.enq, s.finals, id, to);
  }

  lemma AdvanceKeepsKeys(items: map<nat, Item>, pc: map<nat, Pc>, enq: Enqueue, finals: seq<Final>, id: nat, to: Pc)
    requires !Done(pc, id) && OnLane(to) && !to.Finished? && OutcomeInv(finals, pc)
    ensures UniqueKeys(items, pc) ==> UniqueKeys(items, pc[id := to])
    ensures NoPendingKey(items, pc, enq) ==> NoPendingKey(items, pc[id := to], enq)
    ensures OutcomeInv(finals, pc[id := to])
  {
    hide UniqueKeys, NoPendingKey, OutcomeInv;
    KeysShrink(items, pc, enq, pc[id := to]);
    OutcomeKept(finals, pc, pc[id := to]);
  }

  lemma AbortKeepsCommands(s: State, id: nat)
    requires CommandCore(s) && At(s.pc, id, Condemned)
    ensures CommandCore(Finish(s, id, Aborted, Gone))
  {
    hide Finish, UniqueKeys, NoPendingKey, OutcomeInv, HandlerInv, AbortedInv, EnqueuePlace, CondemnedPlace,
      RecoveryInv, ItemsInv, DrainedInv;
    FinishIs(s, id, Aborted, Gone);
    var n := Finish(s, id, Aborted, Gone);
    KeysShrink(s.items, s.pc, s.enq, n.pc);
    OutcomeAdded(s.finals, s.pc, id, Aborted, Gone);
    HandlerKept(s.invoked, s.recorded, s.pc, id, Gone);
    AbortedKept(s.aborted, s.invoked, s.pc, id, Gone);
    StoredKept(s.enq, s.items, s.pc, s.lanes.stopping || s.closed, id, Gone);
  }

  lemma KeepAbortCondemned(s: State, id: nat)
    requires Inv(s) && AbortStep(s, id).Some?
    ensures Inv(AbortStep(s, id).value)
  {
    FinishIs(s, id, Aborted, Gone);
    AbortKeepsCommands(s, id);
    hide CommandCore, Finish, FifoInv, CountInv, PlacesInv;
    MoveOffLane(s.lanes.queue, s.lanes.running, s.items, s.pc, id, Gone);
  }

  lemma TooLateKeeps(s: State, id: nat)
    requires Inv(s) && id in s.lanes.running && id !in s.pc
    ensures Inv(TooLate(s, id))
  {
    FinishKeeps(s, id, Aborted);
    FinishIs(s, id, Aborted, Finished);
    AbortedAdded(s.aborted, s.invoked, s.pc, id, Finished);
    var f := Finish(s, id, Aborted, Finished);
    hide Finish, LaneCore, OutcomeInv, AbortedInv, UniqueKeys, NoPendingKey, EnqueuePlace, CondemnedPlace, ItemsInv, RecoveryInv;
    assert id !in s.invoked;
    LaneCoreOf(f, TooLate(s, id));
    assert AbortedInv(s.aborted + {id}, s.invoked, f.pc);
  }

  lemma LaneCoreOf(s: State, n: State)
    requires LaneCore(s) && n == s.(aborted := n.aborted)
    ensures LaneCore(n)
  {
  }

  lemma KeepBeginRun(s: State, id: nat)
    requires Inv(s) && BeginStep(s, id).Some?
    ensures Inv(BeginStep(s, id).value)
  {
    var n := BeginStep(s, id).value;
    if s.lanes.cancelled {
      TooLateKeeps(s, id);
    } else {
      AdvanceKeeps(s, id, Recording);
      HandlerKept(s.invoked, s.recorded, s.pc, id, Recording);
      AbortedKept(s.aborted, s.invoked, s.pc, id, Recording);
    }
  }

  lemma KeepRecordStart(s: State, id: nat, ok: bool)
    requires Inv(s) && RecordStep(s, id, ok).Some?
    ensures Inv(RecordStep(s, id, ok).value)
  {
    var n := RecordStep(s, id, ok).value;
    AdvanceKeeps(s, id, n.pc[id]);
    AbortedKept(s.aborted, s.invoked, s.pc, id, n.pc[id]);
    if ok {
      RecordKeepsHandler(s.invoked, s.recorded, s.pc, id);
    } else {
      HandlerKept(s.invoked, s.recorded, s.pc, id, Failing);
    }
  }

  lemma RecordKeepsHandler(invoked: seq<nat>, recorded: set<nat>, pc: map<nat, Pc>, id: nat)
    requires HandlerInv(invoked, recorded, pc) && At(pc, id, Recording)
    ensures HandlerInv(invoked, recorded + {id}, pc[id := Ready])
  {
  }

  lemma KeepAdmit(s: State, id: nat)
    requires Inv(s) && AdmitStep(s, id).Some?
    ensures Inv(AdmitStep(s, id).value)
  {
    var to := if s.lanes.cancelled then Failing else Committed;
    AdvanceKeeps(s, id, to);
    HandlerKept(s.invoked, s.recorded, s.pc, id, to);
    AbortedKept(s.aborted, s.invoked, s.pc, id, to);
  }

  lemma KeepInvoke(s: State, id: nat)
    requires Inv(s) && InvokeStep(s, id).Some?
    ensures Inv(InvokeStep(s, id).value)
  {
    AdvanceKeeps(s, id, Invoking);
    InvokeKeepsHandler(s.invoked, s.recorded, s.pc, id);
    InvokeKeepsAborted(s.aborted, s.invoked, s.pc, id);
  }

  lemma InvokeKeepsAborted(aborted: set<nat>, invoked: seq<nat>, pc: map<nat, Pc>, id: nat)
    requires AbortedInv(aborted, invoked, pc) && At(pc, id, Committed)
    ensures AbortedInv(aborted, invoked + [id], pc[id := Invoking])
  {
  }

  lemma InvokeKeepsHandler(invoked: seq<nat>, recorded: set<nat>, pc: map<nat, Pc>, id: nat)
    requires HandlerInv(invoked, recorded, pc) && At(pc, id, Committed)
    ensures HandlerInv(invoked + [id], recorded, pc[id := Invoking])
  {
    var v, p := invoked + [id], pc[id := Invoking];
    assert v[|invoked|] == id;
    forall a | At(p, a, Invoking) ensures a in v {
      if a != id {
        assert At(pc, a, Invoking);
      }
    }
  }

  lemma KeepReturn(s: State, id: nat, ok: bool)
    requires Inv(s) && ReturnStep(s, id, ok).Some?
    ensures Inv(ReturnStep(s, id, ok).value)
  {
    FinishKeeps(s, id, if ok then Completed else if s.lanes.cancelled then Aborted else Failed);
  }

  lemma KeepGiveUp(s: State, id: nat)
    requires Inv(s) && GiveUpStep(s, id).Some?
    ensures Inv(GiveUpStep(s, id).value)
  {
    FinishKeeps(s, id, if s.lanes.cancelled then Aborted else Failed);
  }

  lemma FreeKeepsCounts(l: Lanes, x: Item)
    requires CountInv(l.running, l.exclusiveBusy, l.sharedBusy, l.workers)
    requires x.id in l.running && l.running[x.id] == x
    ensures var n := FreeLane(l, x);
            n.queue == l.queue && n.running == l.running - {x.id} && n.starts == l.starts && n.stopping == l.stopping
    ensures var n := FreeLane(l, x); CountInv(n.running, n.exclusiveBusy, n.sharedBusy, n.workers)
  {
    var n := l.running - {x.id};
    if x.exclusive {
      assert x.id in Exclusive(l.running);
      assert Exclusive(n) == Exclusive(l.running) - {x.id};
      assert |Exclusive(n)| == 0;
      assert Shared(n) == Shared(l.running);
    } else {
      assert x.id in Shared(l.running);
      assert Exclusive(n) == Exclusive(l.running);
      assert Shared(n) == Shared(l.running) - {x.id};
    }
  }

  lemma StoredKept(enq: Enqueue, items: map<nat, Item>, pc: map<nat, Pc>, ending: bool, id: nat, to: Pc)
    requires EnqueuePlace(enq, items, pc) && CondemnedPlace(pc, ending)
    requires !At(pc, id, Created) && !to.Created? && !to.Condemned?
    ensures EnqueuePlace(enq, items, pc[id := to]) && CondemnedPlace(pc[id := to], ending)
  {
  }

  lemma FreedKeeps(s: State, id: nat)
    requires Inv(s) && RunsAs(s, id, Finished)
    ensures Core(Freed(s, id))
  {
    var x, n := s.lanes.running[id], Freed(s, id);
    FreeKeepsCounts(s.lanes, x);
    FreeKeepsPlaces(s.lanes.queue, s.lanes.running, s.items, s.pc, id);
    KeysShrink(s.items, s.pc, s.enq, n.pc);
    OutcomeKept(s.finals, s.pc, n.pc);
    HandlerKept(s.invoked, s.recorded, s.pc, id, Gone);
    AbortedKept(s.aborted, s.invoked, s.pc, id, Gone);
    StoredKept(s.enq, s.items, s.pc, s.lanes.stopping || s.closed, id, Gone);
  }

  lemma KeepRelease(s: State, id: nat)
    requires Inv(s) && ReleaseStep(s, id).Some?
    ensures Inv(ReleaseStep(s, id).value)
  {
    FreedKeeps(s, id);
    DispatchingKeeps(Freed(s, id));
  }

  lemma FreeKeepsPlaces(queue: seq<Item>, running: map<nat, Item>, items: map<nat, Item>, pc: map<nat, Pc>, id: nat)
    requires PlacesInv(queue, running, items, pc)
    requires id in running && Done(pc, id)
    ensures var p := pc[id := Gone];
            && (forall a :: Unfinished(items, p, a) ==> Unfinished(items, pc, a))
            && (forall a :: Done(pc, a) <==> Done(p, a))
    ensures PlacesInv(queue, running - {id}, items, pc[id := Gone])
  {
  }

  lemma KeepEnqueueCheck(s: State, req: Request, joinRunning: bool)
    requires Inv(s) && CheckStep(s, req, joinRunning).Some?
    ensures Inv(CheckStep(s, req, joinRunning).value)
  {
    RecoverKeeps(s);
    var r, n := Recovered(s), CheckStep(s, req, joinRunning).value;
    if n != r {
      NoneMatches(r, req, joinRunning);
      CheckedKeepsLanes(r, n);
      hide LaneCore, HasDuplicate;
    }
  }

  lemma CheckedKeepsLanes(r: State, n: State)
    requires LaneCore(r) && r.enq.Idle? && n.enq.Checked? && n == r.(enq := n.enq, freshUsed := n.freshUsed)
    requires forall x <- r.lanes.queue :: !PendingKey(n.enq, x)
    ensures LaneCore(n)
  {
    hide PlacesInv, CountInv, FifoInv, PendingKey;
  }

  /** The queue holds no match, and without EnqueueFresh nothing unfinished does. */
  lemma NoneMatches(r: State, req: Request, joinRunning: bool)
    requires Inv(r) && r.enq.Idle? && !r.lanes.stopping && !r.closed
    requires !HasDuplicate(r.lanes, FinishedIds(r), req.name, req.canon, joinRunning)
    ensures forall x <- r.lanes.queue :: !Matches(x, req.name, req.canon)
    ensures joinRunning ==> forall a :: Unfinished(r.items, r.pc, a) ==> !Matches(r.items[a], req.name, req.canon)
  {
    if joinRunning {
      forall a | Unfinished(r.items, r.pc, a) ensures !Matches(r.items[a], req.name, req.canon) {
        assert !Done(r.pc, a);
        if a !in r.lanes.running {
          if a !in r.pc {
            var i :| 0 <= i < |r.lanes.queue| && r.lanes.queue[i].id == a;
          }
        }
      }
    }
  }

  lemma RecoverKeeps(s: State)
    requires Inv(s) && s.enq.Idle?
    ensures Inv(Recovered(s))
  {
  }

  lemma StoreIs(s: State)
    requires StoreStep(s).Some?
    ensures var n := StoreStep(s).value;
            && n.enq.Stored? && n.enq.item == Item(s.nextId, s.enq.req.name, s.enq.req.canon, s.enq.req.exclusive)
            && n.items == s.items[s.nextId := n.enq.item] && n.pc == s.pc[s.nextId := Created] && n.nextId == s.nextId + 1
            && n.lanes == s.lanes && n.passing == s.passing && n.primed == s.primed && n.closed == s.closed
            && n.accepted == s.accepted && n.drained == s.drained && n.freshUsed == s.freshUsed
            && n.finals == s.finals && n.invoked == s.invoked && n.recorded == s.recorded && n.aborted == s.aborted
            && n.recovered == s.recovered && n.orphans == s.orphans && n.swept == s.swept
  {
  }

  lemma StoreKeepsLanes(s: State)
    requires Inv(s) && StoreStep(s).Some?
    ensures LaneCore(StoreStep(s).value)
  {
    StoreIs(s);
    var item := StoreStep(s).value.enq.item;
    hide FifoInv, CountInv, PlacesInv, StoreStep;
    StoreKeepsPlaces(s.lanes.queue, s.lanes.running, s.items, s.pc, item);
  }

  lemma NewIsNowhere(s: State)
    requires Inv(s)
    ensures s.nextId !in s.items && s.nextId !in s.pc && s.nextId !in s.lanes.running && !Queued(s.lanes.queue, s.nextId)
  {
    assert s.nextId !in s.items;
  }

  lemma StoreKeepsEnqueue(s: State)
    requires Inv(s) && StoreStep(s).Some?
    ensures var n := StoreStep(s).value; EnqueuePlace(n.enq, n.items, n.pc) && CondemnedPlace(n.pc, s.lanes.stopping || s.closed)
  {
    NewIsNowhere(s);
    StoreIs(s);
    hide StoreStep, LaneCore, HandlerInv, OutcomeInv, AbortedInv, UniqueKeys, NoPendingKey;
  }

  lemma StoreKeepsCommands(s: State)
    requires Inv(s) && StoreStep(s).Some?
    ensures CommandCore(StoreStep(s).value)
  {
    NewIsNowhere(s);
    StoreKeepsEnqueue(s);
    hide LaneCore, StoreStep, UniqueKeys, NoPendingKey, OutcomeInv, HandlerInv, AbortedInv, EnqueuePlace, CondemnedPlace, DrainedInv;
    StoreIs(s);
    var n := StoreStep(s).value;
    var item := n.enq.item;
    OutcomeKept(s.finals, s.pc, n.pc);
    HandlerKept(s.invoked, s.recorded, s.pc, item.id, Created);
    AbortedKept(s.aborted, s.invoked, s.pc, item.id, Created);
    StoreKeepsKeys(s.items, s.pc, s.enq, item);
  }

  lemma KeepEnqueueStore(s: State)
    requires Inv(s) && StoreStep(s).Some?
    ensures Inv(StoreStep(s).value)
  {
    StoreIs(s);
    hide LaneCore, CommandCore, StoreStep;
    StoreKeepsLanes(s);
    StoreKeepsCommands(s);
  }

  lemma StoreKeepsPlaces(queue: seq<Item>, running: map<nat, Item>, items: map<nat, Item>, pc: map<nat, Pc>, item: Item)
    requires PlacesInv(queue, running, items, pc) && item.id !in items
    ensures forall a :: Done(pc, a) <==> Done(pc[item.id := Created], a)
    ensures PlacesInv(queue, running, items[item.id := item], pc[item.id := Created])
  {
  }

  lemma StoreKeepsKeys(items: map<nat, Item>, pc: map<nat, Pc>, enq: Enqueue, item: Item)
    requires enq.Checked? && Matches(item, enq.req.name, enq.req.canon) && item.id !in items && item.id !in pc
    ensures UniqueKeys(items, pc) && NoPendingKey(items, pc, enq) ==>
              && UniqueKeys(items[item.id := item], pc[item.id := Created])
              && NoPendingKey(items[item.id := item], pc[item.id := Created], Stored(item))
  {
    var i, p := items[item.id := item], pc[item.id := Created];
    assert forall a :: Unfinished(i, p, a) && a != item.id ==> Unfinished(items, pc, a) && i[a] == items[a];
  }

  lemma RefusedIs(s: State)
    requires s.enq.Stored?
    ensures var n := Refused(s);
            && n.enq == Idle && n.pc == s.pc[s.enq.item.id := Condemned]
            && n.lanes == s.lanes && n.passing == s.passing && n.primed == s.primed && n.closed == s.closed
            && n.accepted == s.accepted && n.drained == s.drained && n.freshUsed == s.freshUsed
            && n.items == s.items && n.nextId == s.nextId
            && n.finals == s.finals && n.invoked == s.invoked && n.recorded == s.recorded && n.aborted == s.aborted + {s.enq.item.id}
            && n.recovered == s.recovered && n.orphans == s.orphans && n.swept == s.swept
  {
  }

  lemma RefuseKeepsLanes(s: State)
    requires Inv(s) && s.enq.Stored?
    ensures LaneCore(Refused(s))
  {
    RefusedIs(s);
    assert At(s.pc, s.enq.item.id, Created);
    hide FifoInv, CountInv, PlacesInv, Refused;
    MoveOffLane(s.lanes.queue, s.lanes.running, s.items, s.pc, s.enq.item.id, Condemned);
  }

  lemma CreatedIs(s: State)
    requires Inv(s) && s.enq.Stored?
    ensures At(s.pc, s.enq.item.id, Created) && s.enq.item.id < s.nextId && s.enq.item.id !in s.lanes.running
  {
    assert !OnLane(s.pc[s.enq.item.id]);
  }

  lemma IdleIsFree(items: map<nat, Item>, pc: map<nat, Pc>)
    ensures NoPendingKey(items, pc, Idle)
  {
  }

  lemma CreatedNotInvoked(invoked: seq<nat>, recorded: set<nat>, pc: map<nat, Pc>, id: nat)
    requires HandlerInv(invoked, recorded, pc) && At(pc, id, Created)
    ensures id !in invoked
  {
  }

  lemma RefuseKeepsCommands(s: State)
    requires Inv(s) && s.enq.Stored? && (s.lanes.stopping || s.closed)
    ensures CommandCore(Refused(s))
  {
    CreatedIs(s);
    hide LaneCore, Refused, UniqueKeys, NoPendingKey, OutcomeInv, HandlerInv, AbortedInv, EnqueuePlace, CondemnedPlace, ItemsInv;
    RefusedIs(s);
    var n, id := Refused(s), s.enq.item.id;
    RefuseKeepsEnqueue(s.enq, s.items, s.pc, s.lanes.stopping || s.closed);
    CreatedNotInvoked(s.invoked, s.recorded, s.pc, id);
    IdleIsFree(s.items, n.pc);
    KeysShrink(s.items, s.pc, s.enq, n.pc);
    OutcomeKept(s.finals, s.pc, n.pc);
    HandlerKept(s.invoked, s.recorded, s.pc, id, Condemned);
    AbortedAdded(s.aborted, s.invoked, s.pc, id, Condemned);
  }

  lemma RefuseKeepsEnqueue(enq: Enqueue, items: map<nat, Item>, pc: map<nat, Pc>, ending: bool)
    requires enq.Stored? && EnqueuePlace(enq, items, pc) && CondemnedPlace(pc, ending) && ending
    ensures EnqueuePlace(Idle, items, pc[enq.item.id := Condemned]) && CondemnedPlace(pc[enq.item.id := Condemned], ending)
  {
  }

  lemma RefuseKeeps(s: State)
    requires Inv(s) && s.enq.Stored? && (s.lanes.stopping || s.closed)
    ensures Inv(Refused(s))
  {
    RefusedIs(s);
    hide LaneCore, CommandCore, Refused;
    RefuseKeepsLanes(s);
    RefuseKeepsCommands(s);
  }

  lemma KeepEnqueueInsert(s: State)
    requires Inv(s) && InsertStep(s).Some?
    ensures Inv(InsertStep(s).value)
  {
    if s.lanes.stopping || s.closed {
      RefuseKeeps(s);
    } else {
      AppendKeeps(s);
      DispatchingKeeps(Appended(s));
    }
  }

  lemma AppendKeepsFifo(accepted: seq<Item>, starts: seq<Item>, q: seq<Item>, drained: seq<Item>, item: Item)
    requires FifoInv(accepted, starts, q, drained) && drained == []
    ensures FifoInv(accepted + [item], starts, q + [item], drained)
  {
    forall x ensures Lane(accepted + [item], x) == Lane(starts, x) + Lane(q + [item], x) + Lane(drained, x) {
      LaneSplit(accepted, [item], x);
      LaneSplit(q, [item], x);
    }
  }

  lemma AppendedIs(s: State)
    requires s.enq.Stored?
    ensures var n, item := Appended(s), s.enq.item;
            && n.enq == Idle && n.pc == s.pc - {item.id} && n.accepted == s.accepted + [item]
            && n.lanes.queue == s.lanes.queue + [item] && n.lanes.running == s.lanes.running
            && n.lanes.starts == s.lanes.starts && n.lanes.stopping == s.lanes.stopping && n.lanes.started == s.lanes.started
            && n.lanes.exclusiveBusy == s.lanes.exclusiveBusy && n.lanes.sharedBusy == s.lanes.sharedBusy
            && n.lanes.workers == s.lanes.workers
            && n.primed == s.primed && n.closed == s.closed && n.drained == s.drained && n.freshUsed == s.freshUsed
            && n.items == s.items && n.nextId == s.nextId
            && n.finals == s.finals && n.invoked == s.invoked && n.recorded == s.recorded && n.aborted == s.aborted
            && n.recovered == s.recovered && n.orphans == s.orphans && n.swept == s.swept
  {
  }

  lemma AppendKeepsLanes(s: State)
    requires Inv(s) && s.enq.Stored? && !s.lanes.stopping
    ensures LaneCore(Appended(s))
  {
    AppendedIs(s);
    assert EnqueuePlace(s.enq, s.items, s.pc);
    hide FifoInv, CountInv, PlacesInv, Appended, EnqueuePlace, CommandCore;
    AppendKeepsFifo(s.accepted, s.lanes.starts, s.lanes.queue, s.drained, s.enq.item);
    AppendKeepsPlaces(s.lanes.queue, s.lanes.running, s.items, s.pc, s.enq);
  }

  lemma AppendKeepsEnqueue(enq: Enqueue, items: map<nat, Item>, pc: map<nat, Pc>, ending: bool)
    requires enq.Stored? && EnqueuePlace(enq, items, pc) && CondemnedPlace(pc, ending)
    ensures EnqueuePlace(Idle, items, pc - {enq.item.id}) && CondemnedPlace(pc - {enq.item.id}, ending)
  {
  }

  lemma AppendKeepsCommands(s: State)
    requires Inv(s) && s.enq.Stored? && !s.lanes.stopping && !s.closed
    ensures CommandCore(Appended(s))
  {
    CreatedIs(s);
    hide LaneCore, Appended, UniqueKeys, NoPendingKey, OutcomeInv, HandlerInv, AbortedInv, EnqueuePlace, CondemnedPlace,
      ItemsInv, DrainedInv;
    AppendedIs(s);
    var n, id := Appended(s), s.enq.item.id;
    AppendKeepsEnqueue(s.enq, s.items, s.pc, s.lanes.stopping || s.closed);
    IdleIsFree(s.items, n.pc);
    KeysShrink(s.items, s.pc, s.enq, n.pc);
    OutcomeKept(s.finals, s.pc, n.pc);
    InsertKeepsHandler(s.invoked, s.recorded, s.pc, id);
    InsertKeepsAborted(s.aborted, s.invoked, s.pc, id);
  }

  lemma AppendKeeps(s: State)
    requires Inv(s) && s.enq.Stored? && !s.lanes.stopping && !s.closed
    ensures Core(Appended(s))
  {
    hide LaneCore, CommandCore, Appended;
    AppendKeepsLanes(s);
    AppendKeepsCommands(s);
  }

  lemma AppendKeepsPlaces(q: seq<Item>, running: map<nat, Item>, items: map<nat, Item>, pc: map<nat, Pc>, enq: Enqueue)
    requires PlacesInv(q, running, items, pc)
    requires enq.Stored? && EnqueuePlace(enq, items, pc) && QueueKeys(q, enq)
    ensures PlacesInv(q + [enq.item], running, items, pc - {enq.item.id})
  {
    var p, c, item := q + [enq.item], pc - {enq.item.id}, enq.item;
    assert forall i :: 0 <= i < |q| ==> p[i] == q[i] && q[i].id != item.id;
    forall id | id in items ensures id in c || id in running || Queued(p, id) {
      if id == item.id {
        assert p[|q|].id == id;
      } else if id !in pc && id !in running {
        var i :| 0 <= i < |q| && q[i].id == id;
        assert p[i].id == id;
      }
    }
  }

  lemma InsertKeepsHandler(invoked: seq<nat>, recorded: set<nat>, pc: map<nat, Pc>, id: nat)
    requires HandlerInv(invoked, recorded, pc) && At(pc, id, Created)
    ensures HandlerInv(invoked, recorded, pc - {id})
  {
  }

  lemma InsertKeepsAborted(aborted: set<nat>, invoked: seq<nat>, pc: map<nat, Pc>, id: nat)
    requires AbortedInv(aborted, invoked, pc) && At(pc, id, Created)
    ensures AbortedInv(aborted, invoked, pc - {id})
  {
  }

  lemma KeepStart(s: State)
    requires Inv(s) && StartStep(s).Some?
    ensures Inv(StartStep(s).value)
  {
  }

  lemma KeepFirstDispatch(s: State)
    requires Inv(s) && FirstStep(s).Some?
    ensures Inv(FirstStep(s).value)
  {
    DispatchingKeeps(s);
  }

  lemma KeepCancel(s: State)
    requires Inv(s)
    ensures Inv(Cancelled(s))
  {
    hide PlacesInv, QueueKeys, CountInv, FifoInv, CommandCore, NothingStartable;
    CancelKeepsCommands(s);
  }

  lemma CancelKeepsCommands(s: State)
    requires CommandCore(s)
    ensures CommandCore(Cancelled(s))
  {
    hide ItemsInv, EnqueuePlace, CondemnedPlace, UniqueKeys, NoPendingKey, OutcomeInv, HandlerInv, AbortedInv, DrainedInv,
      RecoveryInv;
  }

  lemma DrainKeeps(s: State)
    requires Core(s)
    ensures Core(Drain(s))
  {
    var n, q := Drain(s), s.lanes.queue;
    DrainKeepsFifo(s.accepted, s.lanes.starts, q, s.drained);
    DrainKeepsPlaces(q, s.lanes.running, s.items, s.pc, s.enq);
    KeysShrink(s.items, s.pc, s.enq, n.pc);
    OutcomeKept(s.finals, s.pc, n.pc);
    DrainKeepsHandler(s.invoked, s.recorded, s.pc, q);
    DrainKeepsAborted(s.aborted, s.invoked, s.recorded, s.pc, q, s.drained);
  }

  lemma DrainKeepsFifo(accepted: seq<Item>, starts: seq<Item>, q: seq<Item>, drained: seq<Item>)
    requires FifoInv(accepted, starts, q, drained) && (drained != [] ==> q == [])
    ensures FifoInv(accepted, starts, [], drained + q)
  {
    forall x ensures Lane(accepted, x) == Lane(starts, x) + Lane([], x) + Lane(drained + q, x) {
      LaneSplit(drained, q, x);
    }
  }

  lemma DrainKeepsPlaces(q: seq<Item>, running: map<nat, Item>, items: map<nat, Item>, pc: map<nat, Pc>, enq: Enqueue)
    requires PlacesInv(q, running, items, pc) && EnqueuePlace(enq, items, pc)
    ensures var c := Condemn(pc, q);
            && PlacesInv([], running, items, c) && EnqueuePlace(enq, items, c)
            && (forall id :: Unfinished(items, c, id) ==> Unfinished(items, pc, id))
            && (forall id :: Done(pc, id) <==> Done(c, id))
  {
    assert forall id :: id in Ids(q) <==> Queued(q, id);
  }

  lemma DrainKeepsHandler(invoked: seq<nat>, recorded: set<nat>, pc: map<nat, Pc>, q: seq<Item>)
    requires HandlerInv(invoked, recorded, pc) && forall i :: 0 <= i < |q| ==> q[i].id !in pc
    ensures HandlerInv(invoked, recorded, Condemn(pc, q))
  {
    var c := Condemn(pc, q);
    assert forall id :: id in pc ==> id !in Ids(q);
    assert forall id :: id in c ==> c[id] == if id in pc then pc[id] else Condemned;
  }

  lemma DrainKeepsAborted(aborted: set<nat>, invoked: seq<nat>, recorded: set<nat>, pc: map<nat, Pc>, q: seq<Item>,
                          drained: seq<Item>)
    requires AbortedInv(aborted, invoked, pc) && HandlerInv(invoked, recorded, pc) && DrainedInv(drained, aborted)
    requires forall i :: 0 <= i < |q| ==> q[i].id !in pc
    ensures AbortedInv(aborted + Ids(q), invoked, Condemn(pc, q)) && DrainedInv(drained + q, aborted + Ids(q))
  {
    var c := Condemn(pc, q);
    assert forall id :: id in pc ==> id !in Ids(q);
    assert forall id :: id in c ==> c[id] == if id in pc then pc[id] else Condemned;
  }

  lemma DrainKeepsInv(s: State)
    requires Inv(s)
    ensures Inv(Drain(s))
  {
    DrainKeeps(s);
    hide LaneCore, CommandCore, Condemn, Ids;
  }

  lemma KeepWait(s: State)
    requires Inv(s) && WaitStep(s).Some?
    ensures Inv(WaitStep(s).value)
  {
    CloseKeeps(s);
    if !s.lanes.started {
      DrainKeepsInv(Closed(s));
    }
    hide Core, Closed, Drain, NothingStartable;
  }

  lemma CloseKeeps(s: State)
    requires Inv(s)
    ensures Inv(Closed(s)) && Closed(s).lanes == s.lanes
  {
    hide ItemsInv, EnqueuePlace, UniqueKeys, NoPendingKey, OutcomeInv, HandlerInv, AbortedInv, DrainedInv, RecoveryInv,
      LaneCore, NothingStartable;
    CloseKeepsLanes(s);
  }

  lemma CloseKeepsLanes(s: State)
    requires LaneCore(s)
    ensures LaneCore(Closed(s))
  {
    hide PlacesInv, QueueKeys, CountInv, FifoInv;
  }

  lemma KeepInv(s: State, e: Event)
    requires Inv(s) && Next(s, e).Some?
    ensures Inv(Next(s, e).value)
  {
    hide Core, CheckStep, StoreStep, InsertStep, StartStep, FirstStep, Passed, Recovered, AbortStep, BeginStep, RecordStep,
      AdmitStep, InvokeStep, ReturnStep, GiveUpStep, ReleaseStep, WaitStep, NothingStartable;
    match e
    case EnqueueCheck(req, joinRunning) => KeepEnqueueCheck(s, req, joinRunning);
    case EnqueueStore => KeepEnqueueStore(s);
    case EnqueueInsert => KeepEnqueueInsert(s);
    case Start => KeepStart(s);
    case Recover => RecoverKeeps(s);
    case FirstDispatch => KeepFirstDispatch(s);
    case FinishPass => PassKeeps(s);
    case Cancel => KeepCancel(s);
    case Shutdown => DrainKeepsInv(s);
    case Wait => KeepWait(s);
    case AbortCondemned(id) => KeepAbortCondemned(s, id);
    case BeginRun(id) => KeepBeginRun(s, id);
    case RecordStart(id, ok) => KeepRecordStart(s, id, ok);
    case Admit(id) => KeepAdmit(s, id);
    case Invoke(id) => KeepInvoke(s, id);
    case Return(id, ok) => KeepReturn(s, id, ok);
    case GiveUp(id) => KeepGiveUp(s, id);
    case Release(id) => KeepRelease(s, id);
  }

  /** A fresh process: the previous one's rows have smaller ids. */
  ghost predicate Boot(workers: nat, orphans: set<nat>, firstId: nat) {
    forall id :: id in orphans ==> id < firstId
  }

  lemma {:induction false} RunInv(workers: nat, orphans: set<nat>, firstId: nat, es: seq<Event>)
    requires Boot(workers, orphans, firstId)
    ensures var r := Run(Initial(workers, orphans, firstId), es); r.Some? ==> Inv(r.value)
    decreases |es|
  {
    var start := Initial(workers, orphans, firstId);
    if es == [] {
      assert Exclusive(start.lanes.running) == {} && Shared(start.lanes.running) == {};
    } else {
      RunInv(workers, orphans, firstId, es[..|es| - 1]);
      var before := Run(start, es[..|es| - 1]);
      if before.Some? && Next(before.value, es[|es| - 1]).Some? {
        KeepInv(before.value, es[|es| - 1]);
      }
    }
  }

  // ----- What the queue is for -----

  ghost predicate Reachable(s: State) {
    exists workers, orphans, firstId, es ::
      Boot(workers, orphans, firstId) && Run(Initial(workers, orphans, firstId), es) == Some(s)
  }

  lemma ReachableInv(s: State)
    requires Reachable(s)
    ensures Inv(s)
  {
    var workers, orphans, firstId, es :|
      Boot(workers, orphans, firstId) && Run(Initial(workers, orphans, firstId), es) == Some(s);
    RunInv(workers, orphans, firstId, es);
  }

  /** Lanes: the exclusive lane is busy exactly when one exclusive command runs, there is never a
      second one, and sharedBusy is the number of other running commands, at most `workers`. */
  lemma LanesExact(s: State)
    requires Reachable(s)
    ensures s.lanes.exclusiveBusy <==> exists id :: RunsExclusively(s.lanes.running, id)
    ensures forall a, b :: RunsExclusively(s.lanes.running, a) && RunsExclusively(s.lanes.running, b) ==> a == b
    ensures s.lanes.sharedBusy == |Shared(s.lanes.running)| <= s.lanes.workers
  {
    ReachableInv(s);
    CountsExact(s.lanes.running, s.lanes.exclusiveBusy, s.lanes.sharedBusy, s.lanes.workers);
  }

  predicate RunsExclusively(running: map<nat, Item>, id: nat) {
    id in running && running[id].exclusive
  }

  lemma CountsExact(running: map<nat, Item>, exclusiveBusy: bool, sharedBusy: nat, workers: nat)
    requires CountInv(running, exclusiveBusy, sharedBusy, workers)
    ensures exclusiveBusy <==> exists id :: RunsExclusively(running, id)
    ensures forall a, b :: RunsExclusively(running, a) && RunsExclusively(running, b) ==> a == b
  {
    var ex := Exclusive(running);
    assert forall id :: RunsExclusively(running, id) <==> id in ex;
    if exclusiveBusy {
      var id :| id in ex;
      assert |ex - {id}| == 0;
      forall a | a in ex ensures a == id {
        assert a !in ex - {id};
      }
      assert RunsExclusively(running, id);
    }
  }

  /** No two exclusive handlers ever run at the same time. */
  lemma ExclusiveHandlersAlone(s: State, a: nat, b: nat)
    requires Reachable(s) && At(s.pc, a, Invoking) && At(s.pc, b, Invoking)
    requires a in s.items && b in s.items && s.items[a].exclusive && s.items[b].exclusive
    ensures a == b
  {
    ReachableInv(s);
    LanesExact(s);
    assert OnLane(s.pc[a]) && OnLane(s.pc[b]);
    assert RunsExclusively(s.lanes.running, a) && RunsExclusively(s.lanes.running, b);
  }

  /** Between Start's first pass and the end of its context nothing that could run is left waiting:
      unless a pass is just under way, a waiting command has its lane occupied by running ones. */
  lemma NothingWaitsNeedlessly(s: State, i: nat)
    requires Reachable(s) && s.primed && CanStart(s.lanes) && i < |s.lanes.queue|
    ensures s.lanes.queue[i].exclusive ==> s.passing || exists id :: RunsExclusively(s.lanes.running, id)
    ensures !s.lanes.queue[i].exclusive ==> s.passing || |Shared(s.lanes.running)| == s.lanes.workers
  {
    ReachableInv(s);
    LanesExact(s);
  }

  /** Over a whole run each lane starts commands in the order they were accepted; what it did not
      start is still waiting, in order, or was taken off the queue by shutdown. */
  lemma LanesAreFifo(s: State, exclusive: bool)
    requires Reachable(s)
    ensures Lane(s.accepted, exclusive)
         == Lane(s.lanes.starts, exclusive) + Lane(s.lanes.queue, exclusive) + Lane(s.drained, exclusive)
    ensures s.drained != [] ==> s.lanes.queue == []
  {
    ReachableInv(s);
  }

  /** At most one queued command per name and body. */
  lemma QueuedOnce(s: State, i: nat, j: nat)
    requires Reachable(s) && i < j < |s.lanes.queue|
    ensures !SameKey(s.lanes.queue[i], s.lanes.queue[j])
  {
    ReachableInv(s);
  }

  /** Without EnqueueFresh, at most one unfinished command per name and body, wherever it is: stored,
      waiting, running or about to be aborted. */
  lemma UnfinishedOnce(s: State, a: nat, b: nat)
    requires Reachable(s) && !s.freshUsed
    requires Unfinished(s.items, s.pc, a) && Unfinished(s.items, s.pc, b) && SameKey(s.items[a], s.items[b])
    ensures a == b
  {
    ReachableInv(s);
  }

  /** Handlers: each command's handler is called at most once, never before its start is in the store,
      and never for a command that was aborted before it could start: refused, taken off the queue by
      shutdown, or begun when the context had ended, whether or not the abort is on record by now. */
  lemma HandlerAtMostOnce(s: State, i: nat)
    requires Reachable(s) && i < |s.invoked|
    ensures s.invoked[i] in s.recorded
    ensures s.invoked[i] !in s.aborted && !At(s.pc, s.invoked[i], Condemned)
    ensures forall x <- s.drained :: x.id != s.invoked[i]
    ensures forall j :: 0 <= j < |s.invoked| && s.invoked[j] == s.invoked[i] ==> j == i
  {
    ReachableInv(s);
  }

  /** Outcomes: a finished command has exactly one final state on record, any other command none. */
  lemma OneFinalState(s: State, id: nat)
    requires Reachable(s)
    ensures Done(s.pc, id) <==> exists i :: 0 <= i < |s.finals| && s.finals[i].id == id
    ensures forall i, j :: 0 <= i < |s.finals| && 0 <= j < |s.finals| && s.finals[i].id == s.finals[j].id ==> i == j
  {
    ReachableInv(s);
    if i :| 0 <= i < |s.finals| && s.finals[i].id == id {
      assert Done(s.pc, s.finals[i].id);
    }
  }

  /** No goroutine is left, no pass and no enqueue is under way. */
  ghost predicate Quiet(s: State) {
    !s.passing && s.enq.Idle? && s.lanes.running == map[] && forall a :: !At(s.pc, a, Condemned)
  }

  /** After shutdown, once all is quiet, every command this process ever stored, those that raced the
      shutdown included, has exactly one final state. */
  lemma ShutdownSettlesEverything(s: State, id: nat)
    requires Reachable(s) && s.lanes.stopping && Quiet(s)
    requires id in s.items
    ensures exists i :: 0 <= i < |s.finals| && s.finals[i].id == id
  {
    ReachableInv(s);
    OneFinalState(s, id);
    assert !Queued(s.lanes.queue, id);
    assert id in s.pc && !OnLane(s.pc[id]) && !At(s.pc, id, Created) && !At(s.pc, id, Condemned);
  }

  /** ... and until then some step other than a new request is enabled: nothing gets stuck. */
  lemma NeverStuck(s: State)
    requires Reachable(s) && !Quiet(s)
    ensures exists e: Event :: IsProgress(e) && Next(s, e).Some?
  {
    ReachableInv(s);
    hide Next, IsProgress, Reachable;
    var e: Event;
    if s.passing || !s.enq.Idle? {
      e := LockOrEnqueueStep(s);
    } else if a :| At(s.pc, a, Condemned) {
      e := AbortEnabled(s, a);
    } else {
      var id :| id in s.lanes.running;
      assert id in s.pc ==> OnLane(s.pc[id]);
      e := RunnerStep(s, id);
    }
  }

  lemma LockOrEnqueueStep(s: State) returns (e: Event)
    requires s.passing || !s.enq.Idle?
    ensures IsProgress(e) && Next(s, e).Some?
  {
    e := if s.passing then FinishPass else if s.enq.Checked? then EnqueueStore else EnqueueInsert;
  }

  lemma AbortEnabled(s: State, id: nat) returns (e: Event)
    requires At(s.pc, id, Condemned)
    ensures IsProgress(e) && Next(s, e).Some?
  {
    e := AbortCondemned(id);
  }

  /** The steps of goroutines and calls that are under way. */
  predicate IsProgress(e: Event) {
    && !e.EnqueueCheck? && !e.Start? && !e.Recover? && !e.FirstDispatch?
    && !e.Cancel? && !e.Shutdown? && !e.Wait?
  }

  lemma RunnerStep(s: State, id: nat) returns (e: Event)
    requires !s.passing && id in s.lanes.running && (id in s.pc ==> OnLane(s.pc[id]))
    ensures IsProgress(e) && Next(s, e).Some?
  {
    if id !in s.pc {
      e := BeginRun(id);
    } else {
      e := match s.pc[id]
           case Recording => RecordStart(id, true)
           case Ready => Admit(id)
           case Committed => Invoke(id)
           case Failing => GiveUp(id)
           case Invoking => Return(id, true)
           case Finished => Release(id);
    }
  }

  // ----- How long that can take -----

  /** How many steps a command can still take at most, a pass of its own making included. */
  function PcLeft(pc: Pc): nat {
    match pc
    case Created => 12
    case Recording => 7
    case Ready => 6
    case Committed => 5
    case Invoking => 4
    case Failing => 3
    case Finished => 2
    case Condemned => 1
    case Gone => 0
  }

  ghost function Left(queue: seq<Item>, running: map<nat, Item>, pc: map<nat, Pc>, id: nat): nat {
    if id in pc then PcLeft(pc[id]) else if id in running then 8 else if Queued(queue, id) then 9 else 0
  }

  ghost function Work(queue: seq<Item>, running: map<nat, Item>, pc: map<nat, Pc>, n: nat): nat {
    Total((id: nat) => Left(queue, running, pc, id), n)
  }

  ghost function Todo(s: State): nat {
    Work(s.lanes.queue, s.lanes.running, s.pc, s.nextId) + (if s.passing then 1 else 0) + (if s.enq.Checked? then 13 else 0)
  }

  /** No command has more to do than before. */
  ghost predicate NoneGrows(queue: seq<Item>, running: map<nat, Item>, pc: map<nat, Pc>,
                            q: seq<Item>, r: map<nat, Item>, c: map<nat, Pc>) {
    forall id :: Left(q, r, c, id) <= Left(queue, running, pc, id)
  }

  lemma WorkShrinks(queue: seq<Item>, running: map<nat, Item>, pc: map<nat, Pc>,
                    q: seq<Item>, r: map<nat, Item>, c: map<nat, Pc>, n: nat, id: nat)
    requires NoneGrows(queue, running, pc, q, r, c)
    ensures Work(q, r, c, n) <= Work(queue, running, pc, n)
    ensures id < n ==> Work(q, r, c, n) + Left(queue, running, pc, id) <= Work(queue, running, pc, n) + Left(q, r, c, id)
  {
    var before, after := (k: nat) => Left(queue, running, pc, k), (k: nat) => Left(q, r, c, k);
    hide Left;
    TotalStays(before, after, n);
    if id < n {
      TotalShrinks(before, after, n, id);
    }
  }

  /** A goroutine moves on, or a command that was stored is refused. */
  ghost predicate Moved(s: State, n: State, id: nat) {
    && (id in s.lanes.running || id in s.pc) && id in n.pc && n.pc == s.pc[id := n.pc[id]]
    && n.lanes == s.lanes && n.passing == s.passing && n.nextId == s.nextId
    && (n.enq.Checked? <==> s.enq.Checked?)
    && PcLeft(n.pc[id]) < (if id in s.pc then PcLeft(s.pc[id]) else 8)
  }

  lemma MovesOn(s: State, n: State, id: nat)
    requires Inv(s) && Moved(s, n, id)
    ensures Todo(n) < Todo(s)
  {
    StoredBelow(s, id);
    MoveGrowsNone(s.lanes.queue, s.lanes.running, s.pc, id, n.pc[id]);
    hide Inv, PcLeft, Work, NoneGrows;
    WorkShrinks(s.lanes.queue, s.lanes.running, s.pc, n.lanes.queue, n.lanes.running, n.pc, s.nextId, id);
  }

  lemma MoveGrowsNone(queue: seq<Item>, running: map<nat, Item>, pc: map<nat, Pc>, id: nat, to: Pc)
    requires id in pc || id in running
    requires PcLeft(to) < (if id in pc then PcLeft(pc[id]) else 8)
    ensures NoneGrows(queue, running, pc, queue, running, pc[id := to])
  {
    hide PcLeft, Queued;
  }

  lemma StoredBelow(s: State, id: nat)
    requires Inv(s) && (id in s.pc || id in s.lanes.running)
    ensures id < s.nextId
  {
  }

  lemma AbortMoves(s: State, id: nat)
    requires AbortStep(s, id).Some?
    ensures Moved(s, AbortStep(s, id).value, id)
  {
  }

  lemma BeginMoves(s: State, id: nat)
    requires BeginStep(s, id).Some?
    ensures Moved(s, BeginStep(s, id).value, id)
  {
    if s.lanes.cancelled {
      FinishIs(s, id, Aborted, Finished);
      hide Finish;
    }
  }

  lemma RecordMoves(s: State, id: nat, ok: bool)
    requires RecordStep(s, id, ok).Some?
    ensures Moved(s, RecordStep(s, id, ok).value, id)
  {
  }

  lemma AdmitMoves(s: State, id: nat)
    requires AdmitStep(s, id).Some?
    ensures Moved(s, AdmitStep(s, id).value, id)
  {
  }

  lemma InvokeMoves(s: State, id: nat)
    requires InvokeStep(s, id).Some?
    ensures Moved(s, InvokeStep(s, id).value, id)
  {
  }

  lemma ReturnMoves(s: State, id: nat, ok: bool)
    requires ReturnStep(s, id, ok).Some?
    ensures Moved(s, ReturnStep(s, id, ok).value, id)
  {
  }

  lemma GiveUpMoves(s: State, id: nat)
    requires GiveUpStep(s, id).Some?
    ensures Moved(s, GiveUpStep(s, id).value, id)
  {
  }

  lemma StoreMovesOn(s: State)
    requires Inv(s) && StoreStep(s).Some?
    ensures Todo(StoreStep(s).value) < Todo(s)
  {
    StoreIs(s);
    var n := StoreStep(s).value;
    NewIsNowhere(s);
    StoreLeaves(s.lanes.queue, s.lanes.running, s.pc, s.nextId);
    hide StoreStep, Inv, Left;
    WorkOneMore(s.lanes.queue, s.lanes.running, s.pc, n.pc, s.nextId);
  }

  lemma StoreLeaves(queue: seq<Item>, running: map<nat, Item>, pc: map<nat, Pc>, id: nat)
    ensures forall k: nat | k < id :: Left(queue, running, pc[id := Created], k) == Left(queue, running, pc, k)
    ensures Left(queue, running, pc[id := Created], id) == 12
  {
    hide Queued;
  }

  lemma WorkOneMore(queue: seq<Item>, running: map<nat, Item>, pc: map<nat, Pc>, c: map<nat, Pc>, n: nat)
    requires forall k: nat | k < n :: Left(queue, running, c, k) == Left(queue, running, pc, k)
    ensures Work(queue, running, c, n + 1) == Work(queue, running, pc, n) + Left(queue, running, c, n)
  {
    var before, after := (k: nat) => Left(queue, running, pc, k), (k: nat) => Left(queue, running, c, k);
    hide Left;
    TotalStays(before, after, n);
    TotalStays(after, before, n);
  }

  lemma InsertMovesOn(s: State)
    requires Inv(s) && InsertStep(s).Some?
    ensures Todo(InsertStep(s).value) < Todo(s)
  {
    CreatedIs(s);
    if s.lanes.stopping || s.closed {
      RefusedIs(s);
      hide Inv, Refused, Todo;
      MovesOn(s, Refused(s), s.enq.item.id);
    } else {
      AppendMovesOn(s);
    }
  }

  lemma AppendMovesOn(s: State)
    requires Inv(s) && s.enq.Stored?
    ensures Todo(Dispatching(Appended(s))) < Todo(s)
  {
    var n, item := Appended(s), s.enq.item;
    AppendedIs(s);
    CreatedIs(s);
    hide Inv, Appended, Left, Work, NoneGrows;
    AppendLeaves(s.lanes.queue, s.lanes.running, s.pc, item);
    WorkShrinks(s.lanes.queue, s.lanes.running, s.pc, n.lanes.queue, n.lanes.running, n.pc, s.nextId, item.id);
  }

  lemma AppendLeaves(queue: seq<Item>, running: map<nat, Item>, pc: map<nat, Pc>, item: Item)
    requires At(pc, item.id, Created) && item.id !in running
    ensures NoneGrows(queue, running, pc, queue + [item], running, pc - {item.id})
    ensures Left(queue, running, pc, item.id) == 12 && Left(queue + [item], running, pc - {item.id}, item.id) == 9
  {
    QueuedAtEnd(queue, item);
    hide Queued;
  }

  lemma QueuedAtEnd(queue: seq<Item>, item: Item)
    ensures forall id :: Queued(queue + [item], id) <==> Queued(queue, id) || id == item.id
  {
    var q := queue + [item];
    assert q[|queue|].id == item.id;
    forall id | Queued(queue, id) ensures Queued(q, id) {
      var i :| 0 <= i < |queue| && queue[i].id == id;
      assert q[i].id == id;
    }
  }

  lemma ReleaseMovesOn(s: State, id: nat)
    requires Inv(s) && ReleaseStep(s, id).Some? && !s.passing
    ensures Todo(ReleaseStep(s, id).value) < Todo(s)
  {
    var n := Freed(s, id);
    FreedIs(s, id);
    hide Inv, Freed, Left, Work, NoneGrows;
    FreeLeaves(s.lanes.queue, s.lanes.running, s.pc, id);
    WorkShrinks(s.lanes.queue, s.lanes.running, s.pc, n.lanes.queue, n.lanes.running, n.pc, s.nextId, id);
  }

  lemma FreedIs(s: State, id: nat)
    requires Inv(s) && RunsAs(s, id, Finished)
    ensures id < s.nextId
    ensures var n := Freed(s, id);
            && n.lanes.queue == s.lanes.queue && n.lanes.running == s.lanes.running - {id} && n.pc == s.pc[id := Gone]
            && n.nextId == s.nextId && n.enq == s.enq && n.passing == s.passing
  {
    StoredBelow(s, id);
    assert s.items[id].id == id;
  }

  lemma FreeLeaves(queue: seq<Item>, running: map<nat, Item>, pc: map<nat, Pc>, id: nat)
    requires At(pc, id, Finished)
    ensures NoneGrows(queue, running, pc, queue, running - {id}, pc[id := Gone])
    ensures Left(queue, running, pc, id) == 2 && Left(queue, running - {id}, pc[id := Gone], id) == 0
  {
    hide Queued;
  }

  ghost predicate LaunchesOnly(s: State, m: State) {
    m.pc == s.pc && NoneGrows(s.lanes.queue, s.lanes.running, s.pc, m.lanes.queue, m.lanes.running, m.pc)
  }

  lemma LaunchIsOne(s: State, m: State, k: nat)
    requires LaunchesOnly(s, m) && Launchable(m, k)
    ensures LaunchesOnly(s, Launched(m, k))
  {
    LaunchedIs(m, k);
    LaunchLeaves(m.lanes.queue, k, m.lanes.running, m.pc);
    hide Launched, Left;
  }

  lemma LaunchLeaves(q: seq<Item>, k: nat, running: map<nat, Item>, pc: map<nat, Pc>)
    requires k < |q|
    ensures NoneGrows(q, running, pc, q[..k] + q[k + 1..], running[q[k].id := q[k]], pc)
  {
    var p := q[..k] + q[k + 1..];
    assert Queued(q, q[k].id);
    forall id | Queued(p, id) ensures Queued(q, id) {
      var i :| 0 <= i < |p| && p[i].id == id;
      assert q[if i < k then i else i + 1].id == id;
    }
    hide Queued, PcLeft;
  }

  lemma PassMovesOn(s: State)
    requires s.passing
    ensures Todo(Passed(s)) < Todo(s)
  {
    hide Pass, Left, Work;
    forall m, k | LaunchesOnly(s, m) && Launchable(m, k) ensures LaunchesOnly(s, Launched(m, k)) {
      LaunchIsOne(s, m, k);
    }
    PassInduction(m => LaunchesOnly(s, m), s, |s.lanes.queue|);
    MidEnd(s);
    var n := Passed(s);
    WorkShrinks(s.lanes.queue, s.lanes.running, s.pc, n.lanes.queue, n.lanes.running, n.pc, s.nextId, 0);
  }

  lemma GoroutineMovesOn(s: State, e: Event)
    requires Inv(s) && Next(s, e).Some?
    requires e.AbortCondemned? || e.BeginRun? || e.RecordStart? || e.Admit? || e.Invoke? || e.Return? || e.GiveUp?
    ensures Todo(Next(s, e).value) < Todo(s)
  {
    hide Todo, Moved, AbortStep, BeginStep, RecordStep, AdmitStep, InvokeStep, ReturnStep, GiveUpStep, Inv;
    match e {
      case AbortCondemned(id) => AbortMoves(s, id);
      case BeginRun(id) => BeginMoves(s, id);
      case RecordStart(id, ok) => RecordMoves(s, id, ok);
      case Admit(id) => AdmitMoves(s, id);
      case Invoke(id) => InvokeMoves(s, id);
      case Return(id, ok) => ReturnMoves(s, id, ok);
      case GiveUp(id) => GiveUpMoves(s, id);
    }
    MovesOn(s, Next(s, e).value, e.id);
  }

  lemma ProgressMovesOn(s: State, e: Event)
    requires Inv(s) && IsProgress(e) && Next(s, e).Some?
    ensures Todo(Next(s, e).value) < Todo(s)
  {
    hide Todo, StoreStep, InsertStep, Passed, AbortStep, BeginStep, RecordStep, AdmitStep, InvokeStep, ReturnStep, GiveUpStep,
      ReleaseStep, Core;
    match e
    case EnqueueStore => StoreMovesOn(s);
    case EnqueueInsert => InsertMovesOn(s);
    case FinishPass => PassMovesOn(s);
    case Release(id) => ReleaseMovesOn(s, id);
    case _ => GoroutineMovesOn(s, e);
  }

  /** What is under way comes to an end: from any state on, the goroutines and calls under way take no
      more steps than are to do, in whatever order they take them. */
  lemma {:induction false} ProgressEnds(s: State, es: seq<Event>)
    requires Reachable(s) && Run(s, es).Some? && forall e <- es :: IsProgress(e)
    ensures |es| + Todo(Run(s, es).value) <= Todo(s) && Inv(Run(s, es).value)
    decreases |es|
  {
    hide IsProgress, Next, Inv, Todo, Reachable;
    if es == [] {
      ReachableInv(s);
    } else {
      ProgressEnds(s, es[..|es| - 1]);
      var t, e := Run(s, es[..|es| - 1]).value, es[|es| - 1];
      ProgressMovesOn(t, e);
      KeepInv(t, e);
    }
  }

  // ----- After the end of Start's context -----

  /** From `s`, with the context ended, to `t`: nothing was started but by the pass that was under way,
      and no handler was called but by a goroutine that had already looked at the context. */
  ghost predicate WindsDown(s: State, t: State) {
    && StartsOver(s.lanes, s.passing, t.lanes, t.passing)
    && CallsOver(s.pc, s.invoked, t.pc, t.invoked)
  }

  ghost predicate StartsOver(from: Lanes, wasPassing: bool, to: Lanes, passing: bool) {
    && to.cancelled
    && to.starts == (if wasPassing && !passing then Pass(from, from.queue).starts else from.starts)
    && (passing ==> wasPassing && to == from)
  }

  ghost predicate CallsOver(was: map<nat, Pc>, called: seq<nat>, pc: map<nat, Pc>, invoked: seq<nat>) {
    && called <= invoked
    && (forall i :: |called| <= i < |invoked| ==> At(was, invoked[i], Committed))
    && (forall id :: At(pc, id, Committed) ==> At(was, id, Committed))
  }

  /** Under the lock no pass is under way, and none begins. */
  lemma LocksUnderCancel(t: State, e: Event)
    requires t.lanes.cancelled && Locks(e) && Next(t, e).Some?
    ensures var n := Next(t, e).value;
            n.lanes.cancelled && n.lanes.starts == t.lanes.starts && !n.passing && !t.passing
  {
    hide HasDuplicate, Pass, CheckStep, InsertStep, ReleaseStep, Condemn;
    if e.EnqueueCheck? {
      CheckUnderCancel(t, e.req, e.joinRunning);
    } else if e.EnqueueInsert? {
      InsertUnderCancel(t);
    } else if e.Release? {
      ReleaseUnderCancel(t, e.id);
    }
  }

  lemma CheckUnderCancel(t: State, req: Request, joinRunning: bool)
    requires CheckStep(t, req, joinRunning).Some?
    ensures var n := CheckStep(t, req, joinRunning).value; n.lanes == t.lanes && n.passing == t.passing
  {
    hide HasDuplicate;
  }

  lemma InsertUnderCancel(t: State)
    requires t.lanes.cancelled && InsertStep(t).Some? && !t.passing
    ensures var n := InsertStep(t).value; n.lanes.cancelled && n.lanes.starts == t.lanes.starts && !n.passing
  {
  }

  lemma ReleaseUnderCancel(t: State, id: nat)
    requires t.lanes.cancelled && ReleaseStep(t, id).Some?
    ensures var n := ReleaseStep(t, id).value; n.lanes.cancelled && n.lanes.starts == t.lanes.starts && !n.passing
  {
  }

  lemma LanesUnderCancel(t: State, e: Event)
    requires t.lanes.cancelled && Next(t, e).Some?
    ensures var n := Next(t, e).value;
            if e.FinishPass? then n == Passed(t) && t.passing
            else n.lanes.cancelled && n.lanes.starts == t.lanes.starts && (n.passing ==> t.passing && n.lanes == t.lanes)
                 && (n.passing <== t.passing)
  {
    hide HasDuplicate, Pass, FinishedIds, Condemn, Dispatching, Drain, Appended, Refused, Freed;
    if Locks(e) {
      LocksUnderCancel(t, e);
      hide Next;
    } else if !e.FinishPass? {
      assert Next(t, e).value.lanes == t.lanes && Next(t, e).value.passing == t.passing;
      hide Next;
    }
  }

  lemma CallsUnderCancel(t: State, e: Event)
    requires t.lanes.cancelled && Next(t, e).Some?
    ensures var n := Next(t, e).value; CommitsNothing(t.pc, n.pc) && CallsCommitted(t, n)
  {
    if Locks(e) {
      LocksCommitNothing(t, e);
    } else {
      hide Condemn, Pass, HasDuplicate;
      assert e.Invoke? ==> At(t.pc, e.id, Committed);
    }
  }

  ghost predicate CommitsNothing(was: map<nat, Pc>, pc: map<nat, Pc>) {
    forall id :: At(pc, id, Committed) ==> At(was, id, Committed)
  }

  ghost predicate CallsCommitted(t: State, n: State) {
    n.invoked == t.invoked || (exists id :: At(t.pc, id, Committed) && n.invoked == t.invoked + [id])
  }

  lemma LocksCommitNothing(t: State, e: Event)
    requires Locks(e) && Next(t, e).Some?
    ensures var n := Next(t, e).value; CommitsNothing(t.pc, n.pc) && n.invoked == t.invoked
  {
    if e.EnqueueInsert? {
      InsertCommitsNothing(t);
    } else if e.Release? {
      ReleaseCommitsNothing(t, e.id);
    } else if e.Shutdown? || e.Wait? {
      DrainCommitsNothing(t.pc, t.lanes.queue);
    } else {
      KeepsPcs(t, e);
    }
    hide InsertStep, ReleaseStep, CheckStep, FirstStep, StartStep, Condemn, CommitsNothing;
  }

  lemma KeepsPcs(t: State, e: Event)
    requires e.EnqueueCheck? || e.Start? || e.FirstDispatch?
    requires Next(t, e).Some?
    ensures var n := Next(t, e).value; CommitsNothing(t.pc, n.pc) && n.invoked == t.invoked
  {
    hide HasDuplicate;
    assert Next(t, e).value.pc == t.pc;
  }

  lemma InsertCommitsNothing(t: State)
    requires InsertStep(t).Some?
    ensures var n := InsertStep(t).value; CommitsNothing(t.pc, n.pc) && n.invoked == t.invoked
  {
  }

  lemma ReleaseCommitsNothing(t: State, id: nat)
    requires ReleaseStep(t, id).Some?
    ensures var n := ReleaseStep(t, id).value; CommitsNothing(t.pc, n.pc) && n.invoked == t.invoked
  {
  }

  lemma DrainCommitsNothing(pc: map<nat, Pc>, q: seq<Item>)
    ensures CommitsNothing(pc, Condemn(pc, q))
  {
    var c := Condemn(pc, q);
    forall id | At(c, id, Committed) ensures At(pc, id, Committed) {
      assert c[id] == if id in Ids(q) then Condemned else pc[id];
    }
  }

  lemma WindsDownStep(s: State, t: State, e: Event)
    requires WindsDown(s, t) && Next(t, e).Some?
    ensures WindsDown(s, Next(t, e).value)
  {
    LanesUnderCancel(t, e);
    CallsUnderCancel(t, e);
    hide Next, CallsCommitted, CommitsNothing, CallsOver, Pass;
    CallsOverStep(s.pc, s.invoked, t, Next(t, e).value);
    PassFrame(t.lanes, t.lanes.queue);
  }

  lemma CallsOverStep(was: map<nat, Pc>, called: seq<nat>, t: State, n: State)
    requires CallsOver(was, called, t.pc, t.invoked) && CommitsNothing(t.pc, n.pc) && CallsCommitted(t, n)
    ensures CallsOver(was, called, n.pc, n.invoked)
  {
  }

  /** Once Start's context has ended nothing is started any more, but for what the pass under way starts,
      and every handler called later belongs to a goroutine that had passed its last look at the context. */
  lemma {:induction false} NothingStartsAfterCancel(s: State, es: seq<Event>)
    requires s.lanes.cancelled && Run(s, es).Some?
    ensures WindsDown(s, Run(s, es).value)
    decreases |es|
  {
    if es != [] {
      NothingStartsAfterCancel(s, es[..|es| - 1]);
      WindsDownStep(s, Run(s, es[..|es| - 1]).value, es[|es| - 1]);
    }
  }

  /** A pass that the end of the context interrupts starts just what it would have started. */
  lemma PassIgnoresCancel(s: State)
    ensures Passed(Cancelled(s)).lanes == Passed(s).lanes.(cancelled := true)
  {
    PassUnderCancel(s.lanes, s.lanes.queue);
  }

  lemma {:induction false} PassUnderCancel(l: Lanes, q: seq<Item>)
    ensures Pass(l.(cancelled := true), q) == Pass(l, q).(cancelled := true)
    decreases |q|
  {
    if q != [] {
      PassUnderCancel(l, q[..|q| - 1]);
    }
  }

  /** That is exact: the handler of a command is called later in some run if and only if the command had
      passed its last look. */
  lemma CalledAfterCancelExactly(s: State, id: nat)
    requires Reachable(s) && s.lanes.cancelled && id !in s.invoked
    ensures (exists es :: CalledIn(s, es, id)) <==> At(s.pc, id, Committed)
  {
    if At(s.pc, id, Committed) {
      CallFollows(s, id);
    }
    hide At, Reachable;
    forall es | CalledIn(s, es, id) ensures At(s.pc, id, Committed) {
      NothingStartsAfterCancel(s, es);
    }
  }

  ghost predicate CalledIn(s: State, es: seq<Event>, id: nat) {
    Run(s, es).Some? && id in Run(s, es).value.invoked
  }

  lemma CallFollows(s: State, id: nat)
    requires Reachable(s) && At(s.pc, id, Committed)
    ensures CalledIn(s, [Invoke(id)], id)
  {
    ReachableInv(s);
    assert OnLane(s.pc[id]) && id in s.lanes.running;
    hide Inv, Reachable;
    RunOne(s, Invoke(id));
    hide Run;
    CallCalls(s, id);
  }

  lemma CallCalls(s: State, id: nat)
    requires RunsAs(s, id, Committed)
    ensures Next(s, Invoke(id)).Some? && id in Next(s, Invoke(id)).value.invoked
  {
    assert InvokeStep(s, id).value.invoked[|s.invoked|] == id;
  }

  /** ... and anything is started later in some run if and only if a pass is under way that finds room. */
  lemma StartedAfterCancelExactly(s: State)
    requires s.lanes.cancelled
    ensures (exists es :: Run(s, es).Some? && Run(s, es).value.lanes.starts != s.lanes.starts)
            <==> s.passing && Passed(s).lanes.starts != s.lanes.starts
  {
    if s.passing {
      RunOne(s, FinishPass);
    }
    forall es | Run(s, es).Some? && Run(s, es).value.lanes.starts != s.lanes.starts
      ensures s.passing && Passed(s).lanes.starts != s.lanes.starts
    {
      NothingStartsAfterCancel(s, es);
    }
  }

  lemma RunOne(s: State, e: Event)
    ensures Run(s, [e]) == Next(s, e)
  {
    assert [e][..0] == [];
  }

  /** One command, in a fresh process. */
  const BACKUP := Request("Backup", "{}", false)

  const ITEM := Item(0, "Backup", "{}", false)

  /** One step of a concrete run. */
  lemma Onward(s: State, e: Event) returns (t: State)
    requires Reachable(s) && Next(s, e).Some?
    ensures Some(t) == Next(s, e) && Reachable(t)
  {
    t := Next(s, e).value;
    var workers, orphans, firstId, es :|
      Boot(workers, orphans, firstId) && Run(Initial(workers, orphans, firstId), es) == Some(s);
    assert (es + [e])[..|es|] == es;
    assert Run(Initial(workers, orphans, firstId), es + [e]) == Some(t);
  }

  lemma BeforeEnqueue() returns (s: State)
    ensures Reachable(s) && s.enq.Idle? && s.nextId == 0 && s.recovered && !s.passing && !s.closed
    ensures s.lanes == Lanes(1, true, false, false, [], map[], false, 0, []) && s.pc == map[] && s.invoked == []
  {
    s := BeforeFirstPass();
    hide Run, Reachable, Boot;
    s := Onward(s, FirstDispatch);
    s := Onward(s, FinishPass);
  }

  lemma BeforeFirstPass() returns (s: State)
    ensures Reachable(s) && s.enq.Idle? && s.nextId == 0 && s.recovered && !s.primed && !s.passing && !s.closed
    ensures s.lanes == Lanes(1, true, false, false, [], map[], false, 0, []) && s.pc == map[] && s.invoked == []
  {
    s := Initial(1, {}, 0);
    assert Boot(1, {}, 0) && Run(Initial(1, {}, 0), []) == Some(s);
    hide Run, Reachable, Boot;
    s := Onward(s, Start);
    s := Onward(s, Recover);
  }

  /** A pass has seen the context alive and one command to start. */
  lemma BeforePass() returns (s: State)
    ensures Reachable(s) && s.passing && s.lanes == Lanes(1, true, false, false, [ITEM], map[], false, 0, [])
    ensures s.pc == map[] && s.invoked == []
  {
    s := BeforeEnqueue();
    hide Run, Reachable, Boot;
    s := Onward(s, EnqueueCheck(BACKUP, true));
    s := Onward(s, EnqueueStore);
    s := Onward(s, EnqueueInsert);
  }

  lemma PassesOne(s: State)
    requires s.lanes == Lanes(1, true, false, s.lanes.cancelled, [ITEM], map[], false, 0, [])
    ensures Passed(s).lanes == Lanes(1, true, false, s.lanes.cancelled, [], map[0 := ITEM], false, 1, [ITEM])
  {
    PassOne(s.lanes, [ITEM], 0);
    assert [ITEM][..1] == [ITEM] && [ITEM][..0] == [];
  }

  lemma AfterPass() returns (s: State)
    ensures Reachable(s) && 0 in s.lanes.running && !s.lanes.cancelled && !s.passing && s.pc == map[] && s.invoked == []
  {
    s := BeforePass();
    PassesOne(s);
    hide Pass, Run, Reachable, Boot;
    s := Onward(s, FinishPass);
  }

  /** That command's goroutine has passed its last look. */
  lemma BeforeCall() returns (s: State)
    ensures Reachable(s) && RunsAs(s, 0, Committed) && s.invoked == []
  {
    s := AfterPass();
    hide Pass, HasDuplicate, Run, Reachable, Boot, Dispatching, Condemn, Finish, Occupy;
    s := Onward(s, BeginRun(0));
    s := Onward(s, RecordStart(0, true));
    s := Onward(s, Admit(0));
  }

  /** Both windows are open in real runs. The context ends between a pass's test and what it starts ... */
  lemma StartedAfterCancel()
    ensures exists s :: Reachable(s) && s.lanes.cancelled && s.lanes.starts == [] && StartsNow(s, ITEM)
  {
    var s := BeforePass();
    hide Pass, Run, Reachable, Boot;
    s := Onward(s, Cancel);
    PassesOne(s);
    assert StartsNow(s, ITEM);
  }

  ghost predicate StartsNow(s: State, x: Item) {
    Next(s, FinishPass).Some? && x in Next(s, FinishPass).value.lanes.starts
  }

  /** ... and between a goroutine's last look and the call of its handler. */
  lemma CalledAfterCancel()
    ensures exists s :: Reachable(s) && s.lanes.cancelled && s.invoked == [] && CallsNow(s, 0)
  {
    var s := BeforeCall();
    hide Pass, Run, Reachable, Boot;
    s := Onward(s, Cancel);
    assert CallsNow(s, 0);
  }

  ghost predicate CallsNow(s: State, id: nat) {
    Next(s, Invoke(id)).Some? && id in Next(s, Invoke(id)).value.invoked
  }

  /** Recovery aborts the rows of the previous process, all of them and no others. */
  lemma RecoverySparesOurs(s: State)
    requires Reachable(s)
    ensures s.swept == (if s.recovered then s.orphans else {}) && s.swept !! s.items.Keys
  {
    ReachableInv(s);
  }
}
