/** The two lanes of the command queue: one exclusive command at a time, and up to `workers` others.
    The dispatch pass, release, insertion and the duplicate search, each under the manager's lock. */
module CommandLanes {
  import opened Wrappers

  /** A queued command: its identity in the store, its deduplication key and its lane. */
  datatype Item = Item(id: nat, name: string, canon: string, exclusive: bool)

  predicate SameKey(a: Item, b: Item) {
    a.name == b.name && a.canon == b.canon
  }

  // ----- The lanes -----

  /** The fields the dispatcher works on. `starts` records what was started, in order. */
  datatype Lanes = Lanes(
    workers: nat, started: bool, stopping: bool, cancelled: bool,
    queue: seq<Item>, running: map<nat, Item>, exclusiveBusy: bool, sharedBusy: nat,
    starts: seq<Item>)

  predicate Full(l: Lanes, exclusive: bool) {
    if exclusive then l.exclusiveBusy else l.sharedBusy >= l.workers
  }

  function Occupy(l: Lanes, x: Item): Lanes {
    var busy := if x.exclusive then l.(exclusiveBusy := true) else l.(sharedBusy := l.sharedBusy + 1);
    busy.(running := l.running[x.id := x], starts := l.starts + [x])
  }

  /** The dispatcher's decision about one command: start it, or keep it in the queue. */
  function StartOrKeep(l: Lanes, e: Item): Lanes {
    if Full(l, e.exclusive) then l.(queue := l.queue + [e]) else Occupy(l, e)
  }

  /** The dispatch pass over a queue, front to back. */
  function Pass(l: Lanes, q: seq<Item>): Lanes {
    if q == [] then l.(queue := []) else StartOrKeep(Pass(l, q[..|q| - 1]), q[|q| - 1])
  }

  lemma PassOne(l: Lanes, q: seq<Item>, i: nat)
    requires i < |q|
    ensures Pass(l, q[..i + 1]) == StartOrKeep(Pass(l, q[..i]), q[i])
  {
    assert q[..i + 1][..i] == q[..i];
  }

  /** Commands are only started between Start and the end of its context. */
  predicate CanStart(l: Lanes) {
    l.started && !l.stopping && !l.cancelled
  }

  function Dispatch(l: Lanes): Lanes {
    if CanStart(l) then Pass(l, l.queue) else l
  }

  function FreeLane(l: Lanes, x: Item): Lanes {
    var freed :=
      if x.exclusive then l.(exclusiveBusy := false)
      else if l.sharedBusy > 0 then l.(sharedBusy := l.sharedBusy - 1) else l;
    freed.(running := l.running - {x.id})
  }

  predicate Matches(e: Item, name: string, canon: string) {
    e.name == name && e.canon == canon
  }

  /** A queued (or, when joining is allowed, running) unfinished command with this key. */
  ghost predicate HasDuplicate(l: Lanes, finished: set<nat>, name: string, canon: string, joinRunning: bool) {
    || (joinRunning && exists id :: id in l.running && Matches(l.running[id], name, canon) && id !in finished)
    || (exists i :: 0 <= i < |l.queue| && Matches(l.queue[i], name, canon) && l.queue[i].id !in finished)
  }

  /** The manager's lane state as the program keeps it: the queue lives in a buffer that the dispatch
      pass filters in place. */
  class Manager {
    const workers: nat
    var started: bool
    var stopping: bool
    var cancelled: bool
    var buf: array<Item>
    var len: nat
    var running: map<nat, Item>
    var exclusiveBusy: bool
    var sharedBusy: nat
    ghost var starts: seq<Item>

    ghost predicate Valid()
      reads this
    {
      len <= buf.Length
    }

    /** The lanes when the first n commands of the buffer are the queue. */
    ghost function With(n: nat): Lanes
      reads this, buf
      requires n <= buf.Length
    {
      Lanes(workers, started, stopping, cancelled, buf[..n], running, exclusiveBusy, sharedBusy, starts)
    }

    ghost function State(): Lanes
      reads this, buf
      requires Valid()
    {
      With(len)
    }

    constructor (workers: nat)
      ensures Valid() && fresh(buf)
      ensures State() == Lanes(workers, false, false, false, [], map[], false, 0, [])
    {
      this.workers := workers;
      started, stopping, cancelled := false, false, false;
      buf := new Item[4](_ => Item(0, "", "", false));
      len := 0;
      running := map[];
      exclusiveBusy := false;
      sharedBusy := 0;
      starts := [];
    }

    /** One iteration of the dispatch pass: the command read from the buffer takes its lane when that
        has capacity, else it is kept, in front of everything still unread. */
    method Consider(e: Item, kept: nat) returns (claimed: bool)
      requires kept < buf.Length
      modifies this`running, this`exclusiveBusy, this`sharedBusy, this`starts, buf
      ensures claimed == !Full(old(With(kept)), e.exclusive)
      ensures With(if claimed then kept else kept + 1) == StartOrKeep(old(With(kept)), e)
      ensures forall j :: kept < j < buf.Length ==> buf[j] == old(buf[j])
      ensures starts == old(starts) + if claimed then [e] else []
    {
      if e.exclusive {
        if exclusiveBusy {
          buf[kept] := e;
          return false;
        }
        exclusiveBusy := true;
      } else {
        if sharedBusy >= workers {
          buf[kept] := e;
          return false;
        }
        sharedBusy := sharedBusy + 1;
      }
      running := running[e.id := e];
      starts := starts + [e];
      return true;
    }

    /** The pass has considered the first i commands of the queue, and kept some in front of the rest. */
    ghost predicate Passing(i: nat, kept: nat, before: Lanes, q: seq<Item>)
      reads this, buf
    {
      && kept <= i <= |q| <= buf.Length
      && (forall j :: i <= j < |q| ==> buf[j] == q[j])
      && With(kept) == Pass(before, q[..i])
    }

    lemma PassBegins(before: Lanes, q: seq<Item>)
      requires Valid() && before == State() && q == buf[..len]
      ensures Passing(0, 0, before, q)
    {
    }

    lemma PassEnds(kept: nat, before: Lanes, q: seq<Item>)
      requires Passing(|q|, kept, before, q)
      ensures kept <= buf.Length && With(kept) == Pass(before, q)
    {
      assert q[..|q|] == q;
    }

    method Round(i: nat, kept: nat, ghost before: Lanes, ghost q: seq<Item>) returns (e: Item, claimed: bool)
      requires i < |q| && Passing(i, kept, before, q)
      modifies this`running, this`exclusiveBusy, this`sharedBusy, this`starts, buf
      ensures Passing(i + 1, if claimed then kept else kept + 1, before, q)
      ensures starts == old(starts) + if claimed then [e] else []
    {
      e := buf[i];
      PassOne(before, q, i);
      claimed := Consider(e, kept);
    }

    /** Starts every queued command whose lane has capacity, in order, and keeps the others in the
        same buffer. */
    method DispatchLocked() returns (start: seq<Item>)
      requires Valid()
      modifies this`len, this`running, this`exclusiveBusy, this`sharedBusy, this`starts, buf
      ensures Valid()
      ensures State() == Dispatch(old(State()))
      ensures starts == old(starts) + start
    {
      start := [];
      if !started || stopping || cancelled || len == 0 {
        return;
      }
      ghost var before, q := State(), buf[..len];
      PassBegins(before, q);
      hide Passing;
      var kept := 0;
      for i := 0 to len
        invariant len == |q| && Passing(i, kept, before, q)
        invariant starts == old(starts) + start
      {
        var e, claimed := Round(i, kept, before, q);
        if claimed {
          start := start + [e];
        } else {
          kept := kept + 1;
        }
      }
      PassEnds(kept, before, q);
      len := kept;
    }

    /** Frees the lane of a finished command and starts whatever can run next. */
    method Release(e: Item) returns (start: seq<Item>)
      requires Valid()
      modifies this`len, this`running, this`exclusiveBusy, this`sharedBusy, this`starts, buf
      ensures Valid()
      ensures State() == Dispatch(FreeLane(old(State()), e))
      ensures starts == old(starts) + start
    {
      running := running - {e.id};
      if e.exclusive {
        exclusiveBusy := false;
      } else if sharedBusy > 0 {
        sharedBusy := sharedBusy - 1;
      }
      start := DispatchLocked();
    }

    /** The second critical section of enqueue: refuse when stopping, else append and dispatch. */
    method Insert(e: Item, closed: bool) returns (refused: bool, start: seq<Item>)
      requires Valid()
      modifies this, buf
      ensures Valid() && (buf == old(buf) || fresh(buf))
      ensures refused == (old(stopping) || closed)
      ensures State() == if refused then old(State())
                         else Dispatch(old(State()).(queue := old(State()).queue + [e]))
      ensures starts == old(starts) + start
    {
      start := [];
      refused := stopping || closed;
      if refused {
        return;
      }
      if len == buf.Length {
        var bigger := new Item[2 * len + 1](_ => e);
        assert len <= buf.Length;
        for i := 0 to len
          modifies bigger
          invariant bigger[..i] == buf[..i]
        {
          bigger[i] := buf[i];
        }
        assert bigger[..len] == buf[..len];
        buf := bigger;
        assert buf[..len] == old(buf[..len]);
      }
      buf[len] := e;
      len := len + 1;
      assert buf[..len] == old(buf[..len]) + [e];
      assert State() == old(State()).(queue := old(State()).queue + [e]);
      start := DispatchLocked();
    }

    /** Shutdown: nothing is accepted or started any more; the caller aborts what was queued. */
    method StopAccepting() returns (pending: seq<Item>)
      requires Valid()
      modifies this`stopping, this`len
      ensures Valid()
      ensures pending == old(State()).queue
      ensures State() == old(State()).(stopping := true, queue := [])
    {
      stopping := true;
      pending := buf[..len];
      len := 0;
    }

    /** Finds an unfinished command to join; `finished` holds the entries whose flag is set. */
    method FindDuplicateLocked(name: string, canon: string, joinRunning: bool, finished: set<nat>)
        returns (found: Option<Item>)
      requires Valid()
      ensures found.Some? <==> HasDuplicate(State(), finished, name, canon, joinRunning)
      ensures found.Some? ==>
                && Matches(found.value, name, canon)
                && (|| (joinRunning && exists id :: id in running && running[id] == found.value && id !in finished)
                    || (found.value in State().queue && found.value.id !in finished))
    {
      var left := running.Keys;
      while left != {}
        invariant left <= running.Keys
        invariant forall id :: id in running && id !in left ==>
                    !(joinRunning && Matches(running[id], name, canon) && id !in finished)
        decreases left
      {
        var id :| id in left;
        if joinRunning && running[id].name == name && running[id].canon == canon && id !in finished {
          return Some(running[id]);
        }
        left := left - {id};
      }
      for i := 0 to len
        invariant forall j :: 0 <= j < i ==> !(Matches(buf[j], name, canon) && buf[j].id !in finished)
      {
        if buf[i].name == name && buf[i].canon == canon && buf[i].id !in finished {
          assert State().queue[i] == buf[i];
          return Some(buf[i]);
        }
      }
      return None;
    }
  }
}
