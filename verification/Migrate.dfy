/** Schema migrations: each in its own transaction with its row, by any number of processes that open the
    same file at once. */
module Migrate {
  import opened Wrappers

  type Version = nat

  /** The embedded migrations, sorted, each version once. */
  predicate Sorted(ms: seq<Version>) {
    forall i, j | 0 <= i < j < |ms| :: ms[i] < ms[j]
  }

  function SetOf(ms: seq<Version>): set<Version> {
    set m | m in ms
  }

  lemma TakeOneMore(ms: seq<Version>, i: nat, rows: set<Version>)
    requires i < |ms|
    ensures SetOf(ms[..i + 1]) == SetOf(ms[..i]) + {ms[i]}
    ensures Pending(ms[..i + 1], rows) == Pending(ms[..i], rows) + if ms[i] in rows then [] else [ms[i]]
  {
    assert ms[..i + 1] == ms[..i] + [ms[i]] && ms[..i + 1][..i] == ms[..i];
  }

  // ----- One process -----

  /** The database: the rows of schema_migrations, and the migrations whose SQL was executed, in order. */
  class Database {
    var rows: set<Version>
    var executed: seq<Version>

    constructor (rows: set<Version>)
      ensures this.rows == rows && executed == []
    {
      this.rows, executed := rows, [];
    }

    /** One write transaction: checked again under the write lock, then executed and recorded. */
    method ApplyMigration(m: Version) returns (applied: bool)
      modifies this
      ensures applied <==> m !in old(rows)
      ensures rows == old(rows) + {m}
      ensures executed == old(executed) + if applied then [m] else []
    {
      if m in rows {
        applied := false;
      } else {
        executed := executed + [m];
        rows := rows + {m};
        applied := true;
      }
    }

    /** migrate, with nobody else at it. */
    method MigrateAll(ms: seq<Version>) returns (ok: bool)
      requires Sorted(ms)
      modifies this
      ensures ok <==> forall v <- old(rows) :: v in ms
      ensures !ok ==> rows == old(rows) && executed == old(executed)
      ensures ok ==> rows == SetOf(ms)
      ensures ok ==> executed == old(executed) + Pending(ms, old(rows))
    {
      var applied := rows;
      var known: set<Version> := {};
      for i := 0 to |ms|
        invariant known == SetOf(ms[..i])
        invariant rows == old(rows) && executed == old(executed)
      {
        TakeOneMore(ms, i, {});
        known := known + {ms[i]};
      }
      assert ms[..|ms|] == ms;
      if exists v <- applied :: v !in known {
        return false;
      }
      ApplyPending(ms, applied);
      ok := true;
    }

    /** The loop over the migrations, with the list read before it. */
    method ApplyPending(ms: seq<Version>, applied: set<Version>)
      requires Sorted(ms) && applied == rows
      modifies this
      ensures rows == applied + SetOf(ms)
      ensures executed == old(executed) + Pending(ms, applied)
    {
      for i := 0 to |ms|
        invariant rows == applied + SetOf(ms[..i])
        invariant executed == old(executed) + Pending(ms[..i], applied)
      {
        TakeOneMore(ms, i, applied);
        assert ms[i] !in SetOf(ms[..i]);
        hide SetOf, Pending;
        if ms[i] !in applied {
          var did := ApplyMigration(ms[i]);
        }
      }
      assert ms[..|ms|] == ms;
    }
  }

  /** The migrations not recorded yet, in order. */
  function Pending(ms: seq<Version>, rows: set<Version>): seq<Version> {
    if ms == [] then []
    else
      var rest := Pending(ms[..|ms| - 1], rows);
      if ms[|ms| - 1] in rows then rest else rest + [ms[|ms| - 1]]
  }

  // ----- Any number of processes -----

  /** Where a process is; `applied` is the list it read, `next` the migration it looks at next. */
  datatype Pc = Working(applied: set<Version>, next: nat) | Refused | Finished | Stopped

  datatype State = State(rows: set<Version>, executed: seq<Version>, procs: map<nat, Pc>)

  function Initial(rows: set<Version>): State {
    State(rows, [], map[])
  }

  /** `Open` reads the list; `Step` is one round of the loop; `Stop` is a crash or an error of the SQL,
      whose transaction is rolled back. */
  datatype Event = Open(p: nat) | Step(p: nat) | Stop(p: nat)

  function Next(s: State, e: Event, ms: seq<Version>): Option<State> {
    match e
    case Open(p) =>
      if p in s.procs then None
      else if exists v <- s.rows :: v !in ms then Some(s.(procs := s.procs[p := Refused]))
      else Some(s.(procs := s.procs[p := Working(s.rows, 0)]))
    case Step(p) =>
      if !(p in s.procs && s.procs[p].Working?) then None
      else
        var applied, i := s.procs[p].applied, s.procs[p].next;
        if i >= |ms| then Some(s.(procs := s.procs[p := Finished]))
        else
          var t := s.(procs := s.procs[p := Working(applied, i + 1)]);
          if ms[i] in applied || ms[i] in s.rows then Some(t)
          else Some(t.(rows := s.rows + {ms[i]}, executed := s.executed + [ms[i]]))
    case Stop(p) =>
      if p !in s.procs then None else Some(s.(procs := s.procs[p := Stopped]))
  }

  function Run(s: State, es: seq<Event>, ms: seq<Version>): Option<State>
    decreases |es|
  {
    if es == [] then Some(s)
    else
      match Next(s, es[0], ms)
      case None => None
      case Some(t) => Run(t, es[1..], ms)
  }

  /** All migrations before the one a process looks at are recorded. */
  predicate PcOk(pc: Pc, rows: set<Version>, ms: seq<Version>) {
    match pc
    case Working(applied, next) => applied <= rows && next <= |ms| && forall i | 0 <= i < next :: ms[i] in rows
    case Finished => forall i | 0 <= i < |ms| :: ms[i] in rows
    case _ => true
  }

  /** Ascending, and everything below the last is recorded. */
  predicate ExecutedOk(executed: seq<Version>, rows: set<Version>, ms: seq<Version>) {
    && (forall i, j | 0 <= i < j < |executed| :: executed[i] < executed[j])
    && (forall m <- executed :: m in rows && m in ms)
    && (executed != [] ==> forall i | 0 <= i < |ms| && ms[i] <= executed[|executed| - 1] :: ms[i] in rows)
  }

  ghost predicate Inv(s: State, rows: set<Version>, ms: seq<Version>) {
    && (forall p <- s.procs :: PcOk(s.procs[p], s.rows, ms))
    && ExecutedOk(s.executed, s.rows, ms)
    && s.rows == rows + (set m | m in s.executed)
    && (forall m <- s.executed :: m !in rows)
  }

  lemma NextKeeps(s: State, e: Event, rows: set<Version>, ms: seq<Version>)
    requires Sorted(ms) && Inv(s, rows, ms) && Next(s, e, ms).Some?
    ensures Inv(Next(s, e, ms).value, rows, ms)
  {
    var t := Next(s, e, ms).value;
    forall p | p in t.procs ensures PcOk(t.procs[p], t.rows, ms) {
      if p in s.procs {
        assert PcOk(s.procs[p], s.rows, ms);
      }
    }
    if t.executed != s.executed {
      var i := s.procs[e.p].next;
      assert PcOk(s.procs[e.p], s.rows, ms);
      assert t.executed == s.executed + [ms[i]];
      forall k | 0 <= k < |s.executed| ensures s.executed[k] < ms[i] {
        assert s.executed[k] in s.rows;
        assert s.executed[k] <= s.executed[|s.executed| - 1];
      }
    }
  }

  lemma {:induction false} RunKeeps(s: State, es: seq<Event>, rows: set<Version>, ms: seq<Version>)
    requires Sorted(ms) && Inv(s, rows, ms) && Run(s, es, ms).Some?
    ensures Inv(Run(s, es, ms).value, rows, ms)
    decreases |es|
  {
    if es != [] {
      NextKeeps(s, es[0], rows, ms);
      RunKeeps(Next(s, es[0], ms).value, es[1..], rows, ms);
    }
  }

  /** However processes race, crash or fail: no migration is executed twice, nor one that was recorded
      before; they are executed in ascending order; what is recorded is what was and what was executed;
      and a process that finishes leaves all of them recorded. */
  lemma MigratedOnce(rows: set<Version>, es: seq<Event>, ms: seq<Version>)
    requires Sorted(ms) && Run(Initial(rows), es, ms).Some?
    ensures
      var s := Run(Initial(rows), es, ms).value;
      && (forall i, j | 0 <= i < j < |s.executed| :: s.executed[i] < s.executed[j])
      && (forall m <- s.executed :: m in ms && m !in rows)
      && s.rows == rows + (set m | m in s.executed)
      && (forall p <- s.procs | s.procs[p].Finished? :: forall m <- ms :: m in s.rows)
  {
    RunKeeps(Initial(rows), es, rows, ms);
    var s := Run(Initial(rows), es, ms).value;
    forall p | p in s.procs && s.procs[p].Finished? ensures forall m <- ms :: m in s.rows {
      assert PcOk(s.procs[p], s.rows, ms);
    }
  }

  /** A database written by a newer build is left alone: nobody does anything but refuse it. */
  lemma {:induction false} NewerIsRefused(s: State, es: seq<Event>, ms: seq<Version>)
    requires Run(s, es, ms).Some? && (exists v <- s.rows :: v !in ms)
    requires forall p <- s.procs :: !s.procs[p].Working? && !s.procs[p].Finished?
    ensures
      var t := Run(s, es, ms).value;
      t.rows == s.rows && t.executed == s.executed && forall p <- t.procs :: !t.procs[p].Working? && !t.procs[p].Finished?
    decreases |es|
  {
    if es != [] {
      NewerIsRefused(Next(s, es[0], ms).value, es[1..], ms);
    }
  }

  /** A process that goes on finishes, after one round for each migration and one more. */
  lemma {:induction false} EveryProcessFinishes(s: State, p: nat, ms: seq<Version>)
    requires p in s.procs && s.procs[p].Working? && s.procs[p].next <= |ms|
    ensures
      var t := Run(s, seq(|ms| - s.procs[p].next + 1, _ => Step(p)), ms);
      t.Some? && p in t.value.procs && t.value.procs[p].Finished?
    decreases |ms| - s.procs[p].next
  {
    var n := |ms| - s.procs[p].next;
    var es := seq(n + 1, _ => Step(p));
    var t := Next(s, es[0], ms).value;
    if n == 0 {
      assert es[1..] == [];
    } else {
      assert es[1..] == seq(n, _ => Step(p));
      EveryProcessFinishes(t, p, ms);
    }
  }

  function Rounds(p: nat, n: nat): seq<Event> {
    seq(n, _ => Step(p))
  }

  lemma OneRound(s: State, p: nat, n: nat, ms: seq<Version>)
    requires Next(s, Step(p), ms).Some?
    ensures Run(s, Rounds(p, n + 1), ms) == Run(Next(s, Step(p), ms).value, Rounds(p, n), ms)
    ensures Run(s, Rounds(p, 0), ms) == Some(s)
  {
    hide Next;
    assert Rounds(p, n + 1)[1..] == Rounds(p, n);
  }

  /** A process that has the database to itself refuses a newer one, and otherwise executes just the missing
      migrations, in order, and leaves all recorded: what the loop of MigrateAll does. */
  lemma LoneProcess(s: State, p: nat, ms: seq<Version>)
    requires Sorted(ms) && p !in s.procs
    ensures
      var begun := Next(s, Open(p), ms);
      && begun.Some?
      && (if exists v <- s.rows :: v !in ms then begun.value == s.(procs := s.procs[p := Refused])
          else
            Run(begun.value, Rounds(p, |ms| + 1), ms)
            == Some(State(s.rows + SetOf(ms), s.executed + Pending(ms, s.rows), s.procs[p := Finished])))
  {
    if forall v <- s.rows :: v in ms {
      LoneBegins(s.procs, s.executed, s.rows, p, ms);
      LoneRounds(s.procs, s.executed, s.rows, p, ms, 0);
      hide Run, Lone, Pending, SetOf, Rounds;
    }
  }

  /** Where such a process is when it looks at the i-th migration. */
  function Lone(procs: map<nat, Pc>, executed: seq<Version>, rows: set<Version>, p: nat, ms: seq<Version>, i: nat): State
    requires i <= |ms|
  {
    State(rows + SetOf(ms[..i]), executed + Pending(ms[..i], rows), procs[p := Working(rows, i)])
  }

  lemma LoneBegins(procs: map<nat, Pc>, executed: seq<Version>, rows: set<Version>, p: nat, ms: seq<Version>)
    ensures Lone(procs, executed, rows, p, ms, 0) == State(rows, executed, procs[p := Working(rows, 0)])
  {
    assert ms[..0] == [];
    assert rows + SetOf([]) == rows && executed + [] == executed;
  }

  lemma {:induction false} LoneRounds(procs: map<nat, Pc>, executed: seq<Version>, rows: set<Version>, p: nat,
                                      ms: seq<Version>, i: nat)
    requires Sorted(ms) && i <= |ms|
    ensures
      Run(Lone(procs, executed, rows, p, ms, i), Rounds(p, |ms| - i + 1), ms)
      == Some(State(rows + SetOf(ms), executed + Pending(ms, rows), procs[p := Finished]))
    decreases |ms| - i
  {
    hide Run, Rounds, SetOf, Pending, Next, Lone;
    var s := Lone(procs, executed, rows, p, ms, i);
    if i == |ms| {
      LoneEnds(procs, executed, rows, p, ms);
      OneRound(s, p, 0, ms);
      EmptyRun(Next(s, Step(p), ms).value, p, ms);
    } else {
      LoneRound(procs, executed, rows, p, ms, i);
      OneRound(s, p, |ms| - i, ms);
      LoneRounds(procs, executed, rows, p, ms, i + 1);
    }
  }

  lemma EmptyRun(s: State, p: nat, ms: seq<Version>)
    ensures Run(s, Rounds(p, 0), ms) == Some(s)
  {
  }

  lemma LoneEnds(procs: map<nat, Pc>, executed: seq<Version>, rows: set<Version>, p: nat, ms: seq<Version>)
    ensures
      Next(Lone(procs, executed, rows, p, ms, |ms|), Step(p), ms)
      == Some(State(rows + SetOf(ms), executed + Pending(ms, rows), procs[p := Finished]))
  {
    hide SetOf, Pending;
    assert ms[..|ms|] == ms;
    assert procs[p := Working(rows, |ms|)][p := Finished] == procs[p := Finished];
  }

  lemma LoneRound(procs: map<nat, Pc>, executed: seq<Version>, rows: set<Version>, p: nat, ms: seq<Version>, i: nat)
    requires Sorted(ms) && i < |ms|
    ensures Next(Lone(procs, executed, rows, p, ms, i), Step(p), ms) == Some(Lone(procs, executed, rows, p, ms, i + 1))
  {
    LoneTakes(executed, rows, ms, i);
    hide SetOf, Pending;
    assert procs[p := Working(rows, i)][p := Working(rows, i + 1)] == procs[p := Working(rows, i + 1)];
  }

  lemma LoneTakes(executed: seq<Version>, rows: set<Version>, ms: seq<Version>, i: nat)
    requires Sorted(ms) && i < |ms|
    ensures
      var here, done := rows + SetOf(ms[..i]), executed + Pending(ms[..i], rows);
      && (ms[i] in here <==> ms[i] in rows)
      && rows + SetOf(ms[..i + 1]) == (if ms[i] in rows then here else here + {ms[i]})
      && executed + Pending(ms[..i + 1], rows) == if ms[i] in rows then done else done + [ms[i]]
  {
    TakeOneMore(ms, i, rows);
    assert ms[i] !in SetOf(ms[..i]);
    hide SetOf, Pending;
    assert rows + SetOf(ms[..i + 1]) == rows + SetOf(ms[..i]) + {ms[i]};
    assert executed + Pending(ms[..i + 1], rows) == executed + Pending(ms[..i], rows) + if ms[i] in rows then [] else [ms[i]];
  }
}
