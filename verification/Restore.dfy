/** Swapping a staged restore into place, across crashes.

    The data directory is a map from names to contents. Every rename, remove and marker write is one
    step; the process may die between any two, and the next start runs the apply again. */
module Restore {
  import opened Wrappers

  datatype Base = Db | Config

  datatype Side = Main | Journal | Wal | Shm

  /** The names the apply touches. `Bak(base, stamp, n, side)` is <name>.bak-<stamp>[-n][side]. */
  datatype Path =
    | Live(base: Base, side: Side)
    | Bak(of: Base, stamp: nat, n: nat, part: Side)
    | StageDir                 // the folder of the staged restore itself
    | Staged(what: Base)
    | Unconfirmed              // marker: the restore waits for confirmation
    | Applying                 // marker: the swap has begun; holds the stamp

  datatype Content = Bytes(id: int) | Stamp(stamp: nat)

  type Files = map<Path, Content>

  /** How many names freeName tries. */
  const MAX_NAMES := 100

  /** Old generations kept by pruneRestoreBackups. */
  const KEEP_GENERATIONS := 2

  /** What a piece of the apply does: the states it passes through, and whether it got to its end. */
  datatype Outcome = Outcome(ok: bool, trace: seq<Files>)

  function End(fs: Files, trace: seq<Files>): Files {
    if trace == [] then fs else trace[|trace| - 1]
  }

  function Moved(fs: Files, src: Path, dst: Path): Files
    requires src in fs
  {
    fs[dst := fs[src]] - {src}
  }

  function MoveIfExists(fs: Files, src: Path, dst: Path): Outcome {
    if src !in fs then Outcome(true, [])
    else if dst in fs then Outcome(false, [])
    else Outcome(true, [Moved(fs, src, dst)])
  }

  function Remove(fs: Files, p: Path): Outcome {
    Outcome(true, if p in fs then [fs - {p}] else [])
  }

  /** Two pieces in a row: the second, which begins where the first one ends, only runs if that got to
      its end. */
  function Then(first: Outcome, second: Outcome): Outcome {
    if !first.ok then first else Outcome(second.ok, first.trace + second.trace)
  }

  /** The first free backup name: only the base name counts. */
  function FreeName(fs: Files, base: Base, stamp: nat, i: nat): Option<nat>
    decreases MAX_NAMES - i, stamp
  {
    if i >= MAX_NAMES then None
    else if Bak(base, stamp, i, Main) !in fs then Some(i)
    else FreeName(fs, base, stamp, i + 1)
  }

  /** Moves the live file aside and the staged file into place; nothing to do once it is in place. */
  function SwapIn(fs: Files, base: Base, stamp: nat): Outcome {
    if Staged(base) !in fs then Outcome(true, [])
    else
      match FreeName(fs, base, stamp, 0)
      case None => Outcome(false, [])
      case Some(n) =>
        var sides := if base.Db? then SideFiles(fs, stamp, n) else Outcome(true, []);
        Then(sides, SwapMain(End(fs, sides.trace), base, stamp, n))
  }

  /** The old database's side files go first, so they never meet the restored database. */
  function SideFiles(fs: Files, stamp: nat, n: nat): Outcome {
    var a := MoveIfExists(fs, Live(Db, Journal), Bak(Db, stamp, n, Journal));
    var f := End(fs, a.trace);
    var b := MoveIfExists(f, Live(Db, Wal), Bak(Db, stamp, n, Wal));
    Then(a, Then(b, Remove(End(f, b.trace), Live(Db, Shm))))
  }

  function SwapMain(fs: Files, base: Base, stamp: nat, n: nat): Outcome {
    var a := MoveIfExists(fs, Live(base, Main), Bak(base, stamp, n, Main));
    Then(a, Promote(End(fs, a.trace), base))
  }

  function Promote(fs: Files, base: Base): Outcome {
    if Staged(base) !in fs then Outcome(false, []) else Outcome(true, [Moved(fs, Staged(base), Live(base, Main))])
  }

  function Discarded(fs: Files): Files {
    fs - {StageDir, Staged(Db), Staged(Config), Unconfirmed, Applying}
  }

  /** The stamp of a swap that has begun; anything else in the marker counts as not begun. */
  function BegunWith(fs: Files): Option<nat> {
    if Applying in fs && fs[Applying].Stamp? then Some(fs[Applying].stamp) else None
  }

  predicate Complete(fs: Files) {
    Unconfirmed !in fs && Staged(Db) in fs && Staged(Config) in fs
  }

  function Swap(fs: Files, stamp: nat): Outcome {
    var a := SwapIn(fs, Db, stamp);
    Then(a, FinishSwap(End(fs, a.trace), stamp))
  }

  function FinishSwap(fs: Files, stamp: nat): Outcome {
    var a := SwapIn(fs, Config, stamp);
    Then(a, CleanUp(End(fs, a.trace)))
  }

  function CleanUp(fs: Files): Outcome {
    var a := Remove(fs, Applying);
    Then(a, Outcome(true, [Discarded(End(fs, a.trace))]))
  }

  datatype Applied = Applied(ok: bool, applied: bool, trace: seq<Files>)

  /** applyPendingRestore up to, not including, the pruning of old backups. */
  function Apply(fs: Files, now: nat): Applied {
    if StageDir !in fs then Applied(true, false, [])
    else
      match BegunWith(fs)
      case Some(stamp) =>
        var o := Swap(fs, stamp);
        Applied(o.ok, o.ok, o.trace)
      case None =>
        if !Complete(fs) then Applied(true, false, [Discarded(fs)])
        else
          var o := BeginSwap(fs, now);
          Applied(o.ok, o.ok, o.trace)
  }

  function BeginSwap(fs: Files, stamp: nat): Outcome {
    var marked := fs[Applying := Stamp(stamp)];
    var o := Swap(marked, stamp);
    Outcome(o.ok, [marked] + o.trace)
  }

  // ----- Starts and crashes -----

  /** config.Load runs before the apply, and creates a default config.xml when there is none. */
  function Load(fs: Files, fallback: Content): Files {
    if Live(Config, Main) in fs then fs else fs[Live(Config, Main) := fallback]
  }

  /** One start of the program; `crash` is the number of steps of the apply it survives. */
  datatype Boot = Boot(now: nat, fallback: Content, crash: Option<nat>)

  predicate Survives(fs: Files, b: Boot) {
    b.crash.None? || b.crash.value >= |Apply(Load(fs, b.fallback), b.now).trace|
  }

  function AfterBoot(fs: Files, b: Boot): Files {
    var f := Load(fs, b.fallback);
    var trace := Apply(f, b.now).trace;
    if Survives(fs, b) then End(f, trace) else ([f] + trace)[b.crash.value]
  }

  function AfterBoots(fs: Files, bs: seq<Boot>): Files {
    if bs == [] then fs else AfterBoot(AfterBoots(fs, bs[..|bs| - 1]), bs[|bs| - 1])
  }

  /** A confirmed restore staged by a running program, so config.xml exists; no swap has begun. */
  ghost predicate Ready(fs: Files) {
    StageDir in fs && Complete(fs) && BegunWith(fs).None? && Live(Config, Main) in fs
  }

  // ----- The invariant: every state on the way, for the files `old` it began from -----

  /** Name p now holds what name q held. */
  predicate Holds(fs: Files, p: Path, was: Files, q: Path) {
    p in fs && q in was && fs[p] == was[q]
  }

  predicate Unchanged(fs: Files, p: Path, was: Files) {
    (p in fs <==> p in was) && (p in was ==> fs[p] == was[p])
  }

  /** A side file of the old database is at its live name or beside the backup name. */
  predicate SideAt(was: Files, fs: Files, s: nat, n: nat, side: Side) {
    || SideMoved(was, fs, s, n, side)
    || (Unchanged(fs, Live(Db, side), was) && Unchanged(fs, Bak(Db, s, n, side), was))
  }

  predicate SideMoved(was: Files, fs: Files, s: nat, n: nat, side: Side) {
    && Live(Db, side) !in fs
    && (Live(Db, side) in was ==> Holds(fs, Bak(Db, s, n, side), was, Live(Db, side)))
  }

  predicate SidesGone(was: Files, fs: Files, s: nat, n: nat) {
    SideMoved(was, fs, s, n, Journal) && SideMoved(was, fs, s, n, Wal) && Live(Db, Shm) !in fs
  }

  predicate MainMoved(was: Files, fs: Files, base: Base, s: nat, n: nat) {
    Live(base, Main) in was ==> Holds(fs, Bak(base, s, n, Main), was, Live(base, Main))
  }

  predicate MainInPlace(was: Files, fs: Files, base: Base, s: nat, n: nat) {
    Unchanged(fs, Live(base, Main), was) && Bak(base, s, n, Main) !in fs
  }

  ghost predicate NamesBelowTaken(fs: Files, base: Base, s: nat, n: nat) {
    forall i :: 0 <= i < n ==> Bak(base, s, i, Main) in fs
  }

  ghost predicate DbInv(was: Files, fs: Files, s: nat, n: nat) {
    && NamesBelowTaken(fs, Db, s, n)
    && SideAt(was, fs, s, n, Journal) && SideAt(was, fs, s, n, Wal)
    && if Staged(Db) in fs then
         && Holds(fs, Staged(Db), was, Staged(Db))
         && (|| MainInPlace(was, fs, Db, s, n)
             || (MainMoved(was, fs, Db, s, n) && Live(Db, Main) !in fs && SidesGone(was, fs, s, n)))
       else
         && Holds(fs, Live(Db, Main), was, Staged(Db))
         && MainMoved(was, fs, Db, s, n) && SidesGone(was, fs, s, n)
  }

  ghost predicate ConfigInv(was: Files, fs: Files, s: nat, m: nat) {
    && NamesBelowTaken(fs, Config, s, m)
    && if Staged(Config) in fs then
         && Holds(fs, Staged(Config), was, Staged(Config))
         && (MainInPlace(was, fs, Config, s, m) || MainMoved(was, fs, Config, s, m))
       else
         && Holds(fs, Live(Config, Main), was, Staged(Config))
         && MainMoved(was, fs, Config, s, m)
  }

  /** The database is swapped before the configuration, and both before the folder is removed. */
  ghost predicate OrderInv(was: Files, fs: Files, s: nat) {
    && Unconfirmed !in fs
    && (Staged(Db) in fs ==> Staged(Config) in fs && Holds(fs, Live(Config, Main), was, Live(Config, Main)))
    && (Staged(Config) in fs ==> StageDir in fs && BegunWith(fs) == Some(s))
    && (Applying in fs ==> StageDir in fs && fs[Applying] == Stamp(s))
  }

  /** The backup names of the swap are the first free ones of the files it began from. */
  ghost predicate SwapInv(was: Files, fs: Files, s: nat) {
    && OrderInv(was, fs, s)
    && (match FreeName(was, Db, s, 0)
        case Some(n) => DbInv(was, fs, s, n)
        case None => Staged(Db) in fs && fs == was[Applying := Stamp(s)])
    && (match FreeName(was, Config, s, 0)
        case Some(m) => ConfigInv(was, fs, s, m)
        case None =>
          && Staged(Config) in fs && Holds(fs, Live(Config, Main), was, Live(Config, Main))
          && NamesBelowTaken(fs, Config, s, MAX_NAMES))
  }

  ghost predicate Inv(was: Files, fs: Files) {
    fs == was || exists s :: SwapInv(was, fs, s)
  }

  // ----- Free names -----

  lemma {:induction false} FreeNameSpec(fs: Files, base: Base, s: nat, i: nat)
    requires i <= MAX_NAMES
    ensures match FreeName(fs, base, s, i)
            case Some(n) =>
              && i <= n < MAX_NAMES && Bak(base, s, n, Main) !in fs
              && forall j :: i <= j < n ==> Bak(base, s, j, Main) in fs
            case None => forall j :: i <= j < MAX_NAMES ==> Bak(base, s, j, Main) in fs
    decreases MAX_NAMES - i
  {
    if i < MAX_NAMES && Bak(base, s, i, Main) in fs {
      FreeNameSpec(fs, base, s, i + 1);
    }
  }

  /** While the live database has not been moved, every start finds the same backup name. */
  lemma SameName(was: Files, fs: Files, base: Base, s: nat, n: nat)
    requires FreeName(was, base, s, 0) == Some(n)
    requires NamesBelowTaken(fs, base, s, n) && Bak(base, s, n, Main) !in fs
    ensures FreeName(fs, base, s, 0) == Some(n)
  {
    FreeNameSpec(was, base, s, 0);
    FreeNameSpec(fs, base, s, 0);
  }

  // ----- Every state of the apply keeps the invariant -----

  ghost predicate AllInv(was: Files, trace: seq<Files>, s: nat) {
    forall i :: 0 <= i < |trace| ==> SwapInv(was, trace[i], s)
  }

  lemma MarkBegins(was: Files, now: nat)
    requires Ready(was)
    ensures SwapInv(was, was[Applying := Stamp(now)], now)
  {
    FreeNameSpec(was, Db, now, 0);
    FreeNameSpec(was, Config, now, 0);
  }

  /** The database is still to be swapped, and its files are where they were. */
  ghost predicate DbWaiting(was: Files, fs: Files, s: nat, n: nat) {
    && SwapInv(was, fs, s) && FreeName(was, Db, s, 0) == Some(n)
    && Staged(Db) in fs && MainInPlace(was, fs, Db, s, n)
  }

  lemma SideStep(was: Files, fs: Files, s: nat, n: nat, side: Side)
    requires DbWaiting(was, fs, s, n) && (side == Journal || side == Wal)
    ensures var o := MoveIfExists(fs, Live(Db, side), Bak(Db, s, n, side));
            var f := End(fs, o.trace);
            && AllInv(was, o.trace, s) && DbWaiting(was, f, s, n)
            && (o.ok ==> SideMoved(was, f, s, n, side))
            && (forall other :: other != side && SideMoved(was, fs, s, n, other) ==> SideMoved(was, f, s, n, other))
  {
  }

  lemma ShmStep(was: Files, fs: Files, s: nat, n: nat)
    requires DbWaiting(was, fs, s, n)
    ensures var o := Remove(fs, Live(Db, Shm));
            var f := End(fs, o.trace);
            && AllInv(was, o.trace, s) && DbWaiting(was, f, s, n) && Live(Db, Shm) !in f
            && (forall other :: SideMoved(was, fs, s, n, other) ==> SideMoved(was, f, s, n, other))
  {
  }

  lemma EndOf(fs: Files, a: seq<Files>, b: seq<Files>)
    ensures End(fs, a + b) == End(End(fs, a), b)
  {
    if b == [] {
      assert a + b == a;
    }
  }

  lemma BeginIs(fs: Files, s: nat)
    ensures var marked := fs[Applying := Stamp(s)];
            var o, rest := BeginSwap(fs, s), Swap(marked, s);
            o.ok == rest.ok && End(fs, o.trace) == End(marked, rest.trace) && o.trace == [marked] + rest.trace
  {
    var marked := fs[Applying := Stamp(s)];
    EndOf(fs, [marked], Swap(marked, s).trace);
  }

  lemma SideFilesStep(was: Files, fs: Files, s: nat, n: nat)
    requires DbWaiting(was, fs, s, n)
    ensures var o := SideFiles(fs, s, n);
            var f := End(fs, o.trace);
            AllInv(was, o.trace, s) && (o.ok ==> DbWaiting(was, f, s, n) && SidesGone(was, f, s, n))
  {
    SideStep(was, fs, s, n, Journal);
    var a := MoveIfExists(fs, Live(Db, Journal), Bak(Db, s, n, Journal));
    var f := End(fs, a.trace);
    SideStep(was, f, s, n, Wal);
    var b := MoveIfExists(f, Live(Db, Wal), Bak(Db, s, n, Wal));
    var g := End(f, b.trace);
    ShmStep(was, g, s, n);
    EndOf(f, b.trace, Remove(g, Live(Db, Shm)).trace);
    EndOf(fs, a.trace, b.trace + Remove(g, Live(Db, Shm)).trace);
  }

  /** The old database's files are all aside; only the staged file is left to promote. */
  ghost predicate DbAside(was: Files, fs: Files, s: nat, n: nat) {
    && SwapInv(was, fs, s) && FreeName(was, Db, s, 0) == Some(n) && Staged(Db) in fs
    && MainMoved(was, fs, Db, s, n) && Live(Db, Main) !in fs && SidesGone(was, fs, s, n)
  }

  lemma MoveDbStep(was: Files, fs: Files, s: nat, n: nat)
    requires DbWaiting(was, fs, s, n) && SidesGone(was, fs, s, n)
    ensures var o := MoveIfExists(fs, Live(Db, Main), Bak(Db, s, n, Main));
            o.ok && AllInv(was, o.trace, s) && DbAside(was, End(fs, o.trace), s, n)
  {
    if Live(Db, Main) in fs {
      var f := Moved(fs, Live(Db, Main), Bak(Db, s, n, Main));
      assert SwapInv(was, f, s);
      assert MoveIfExists(fs, Live(Db, Main), Bak(Db, s, n, Main)).trace == [f];
    }
  }

  lemma PromoteDbStep(was: Files, fs: Files, s: nat, n: nat)
    requires DbAside(was, fs, s, n)
    ensures var o := Promote(fs, Db);
            o.ok && AllInv(was, o.trace, s) && SwapInv(was, End(fs, o.trace), s) && Staged(Db) !in End(fs, o.trace)
  {
    assert SwapInv(was, Moved(fs, Staged(Db), Live(Db, Main)), s);
  }

  lemma SwapMainDbStep(was: Files, fs: Files, s: nat, n: nat)
    requires DbWaiting(was, fs, s, n) && SidesGone(was, fs, s, n)
    ensures var o := SwapMain(fs, Db, s, n);
            o.ok && AllInv(was, o.trace, s) && SwapInv(was, End(fs, o.trace), s) && Staged(Db) !in End(fs, o.trace)
  {
    MoveDbStep(was, fs, s, n);
    var a := MoveIfExists(fs, Live(Db, Main), Bak(Db, s, n, Main));
    var f := End(fs, a.trace);
    PromoteDbStep(was, f, s, n);
    EndOf(fs, a.trace, Promote(f, Db).trace);
  }

  /** A start that finds the database moved but not replaced only has the staged file to promote. */
  lemma ResumePromotion(was: Files, fs: Files, s: nat, n: nat)
    requires DbAside(was, fs, s, n)
    ensures var o := SwapIn(fs, Db, s);
            AllInv(was, o.trace, s) && (o.ok ==> SwapInv(was, End(fs, o.trace), s) && Staged(Db) !in End(fs, o.trace))
  {
    PromoteDbStep(was, fs, s, n);
    var k := FreeName(fs, Db, s, 0);
    if k.Some? {
      assert SideFiles(fs, s, k.value) == Outcome(true, []);
      assert SwapMain(fs, Db, s, k.value).trace == Promote(fs, Db).trace;
      assert SwapIn(fs, Db, s).trace == Promote(fs, Db).trace;
    }
  }

  lemma SwapDbKeeps(was: Files, fs: Files, s: nat)
    requires SwapInv(was, fs, s)
    ensures var o := SwapIn(fs, Db, s);
            && AllInv(was, o.trace, s)
            && (o.ok ==> SwapInv(was, End(fs, o.trace), s) && Staged(Db) !in End(fs, o.trace))
  {
    if Staged(Db) in fs {
      match FreeName(was, Db, s, 0)
      case None =>
        FreeNameSpec(was, Db, s, 0);
        FreeNameSpec(fs, Db, s, 0);
      case Some(n) =>
        if MainInPlace(was, fs, Db, s, n) {
          SameName(was, fs, Db, s, n);
          SideFilesStep(was, fs, s, n);
          var a := SideFiles(fs, s, n);
          if a.ok {
            var f := End(fs, a.trace);
            SwapMainDbStep(was, f, s, n);
            EndOf(fs, a.trace, SwapMain(f, Db, s, n).trace);
          }
        } else {
          ResumePromotion(was, fs, s, n);
        }
    }
  }

  lemma MovedConfig(was: Files, fs: Files, s: nat, k: nat)
    requires Live(Config, Main) in was && Live(Config, Main) in fs
    requires SwapInv(was, fs, s) && Staged(Db) !in fs && Staged(Config) in fs && FreeName(fs, Config, s, 0) == Some(k)
    ensures var f := Moved(fs, Live(Config, Main), Bak(Config, s, k, Main));
            && SwapInv(was, f, s)
            && (match FreeName(was, Config, s, 0) case Some(m) => MainMoved(was, f, Config, s, m) case None => false)
  {
    FreeNameSpec(fs, Config, s, 0);
    match FreeName(was, Config, s, 0)
    case None =>
    case Some(m) =>
      if MainInPlace(was, fs, Config, s, m) {
        SameName(was, fs, Config, s, m);
      }
  }

  lemma MoveConfigStep(was: Files, fs: Files, s: nat, k: nat)
    requires Live(Config, Main) in was
    requires SwapInv(was, fs, s) && Staged(Db) !in fs && Staged(Config) in fs && FreeName(fs, Config, s, 0) == Some(k)
    ensures var o := MoveIfExists(fs, Live(Config, Main), Bak(Config, s, k, Main));
            var f := End(fs, o.trace);
            && o.ok && AllInv(was, o.trace, s) && SwapInv(was, f, s)
            && Staged(Db) !in f && Staged(Config) in f
            && (match FreeName(was, Config, s, 0) case Some(m) => MainMoved(was, f, Config, s, m) case None => false)
  {
    FreeNameSpec(fs, Config, s, 0);
    if Live(Config, Main) in fs {
      MovedConfig(was, fs, s, k);
    }
  }

  lemma SwapConfigIs(fs: Files, s: nat, k: nat)
    requires Staged(Config) in fs && FreeName(fs, Config, s, 0) == Some(k)
    requires MoveIfExists(fs, Live(Config, Main), Bak(Config, s, k, Main)).ok
    ensures
      var a := MoveIfExists(fs, Live(Config, Main), Bak(Config, s, k, Main)).trace;
      && Staged(Config) in End(fs, a)
      && var g := Moved(End(fs, a), Staged(Config), Live(Config, Main));
         SwapIn(fs, Config, s) == Outcome(true, a + [g]) && End(fs, a + [g]) == g
  {
    var a := MoveIfExists(fs, Live(Config, Main), Bak(Config, s, k, Main)).trace;
    var g := Moved(End(fs, a), Staged(Config), Live(Config, Main));
    assert SwapMain(fs, Config, s, k) == Outcome(true, a + [g]);
    assert [] + (a + [g]) == a + [g];
    hide FreeName, MoveIfExists, Moved;
  }

  lemma SwapConfigKeeps(was: Files, fs: Files, s: nat)
    requires Live(Config, Main) in was
    requires SwapInv(was, fs, s) && Staged(Db) !in fs
    ensures var o := SwapIn(fs, Config, s);
            && AllInv(was, o.trace, s)
            && (o.ok ==> SwapInv(was, End(fs, o.trace), s)
                         && Staged(Db) !in End(fs, o.trace) && Staged(Config) !in End(fs, o.trace))
  {
    if Staged(Config) in fs && FreeName(fs, Config, s, 0).Some? {
      var k := FreeName(fs, Config, s, 0).value;
      MoveConfigStep(was, fs, s, k);
      var a := MoveIfExists(fs, Live(Config, Main), Bak(Config, s, k, Main));
      var f := End(fs, a.trace);
      var g := Moved(f, Staged(Config), Live(Config, Main));
      assert SwapInv(was, g, s);
      SwapConfigIs(fs, s, k);
      hide SwapInv, SwapIn, MoveIfExists;
    }
  }

  lemma CleanUpKeeps(was: Files, fs: Files, s: nat)
    requires SwapInv(was, fs, s) && Staged(Db) !in fs && Staged(Config) !in fs
    ensures var o := CleanUp(fs);
            && o.ok && AllInv(was, o.trace, s) && SwapInv(was, End(fs, o.trace), s)
            && Staged(Db) !in End(fs, o.trace) && Staged(Config) !in End(fs, o.trace)
  {
    var f := End(fs, Remove(fs, Applying).trace);
    assert SwapInv(was, f, s);
    assert SwapInv(was, Discarded(f), s);
    EndOf(fs, Remove(fs, Applying).trace, [Discarded(f)]);
  }

  lemma SwapKeeps(was: Files, fs: Files, s: nat)
    requires Live(Config, Main) in was && SwapInv(was, fs, s)
    ensures var o := Swap(fs, s);
            && AllInv(was, o.trace, s)
            && (o.ok ==> SwapInv(was, End(fs, o.trace), s)
                         && Staged(Db) !in End(fs, o.trace) && Staged(Config) !in End(fs, o.trace))
  {
    SwapDbKeeps(was, fs, s);
    var a := SwapIn(fs, Db, s);
    if a.ok {
      var f := End(fs, a.trace);
      SwapConfigKeeps(was, f, s);
      var b := SwapIn(f, Config, s);
      if b.ok {
        var g := End(f, b.trace);
        CleanUpKeeps(was, g, s);
        EndOf(f, b.trace, CleanUp(g).trace);
        EndOf(fs, a.trace, b.trace + CleanUp(g).trace);
      }
    }
  }

  lemma LoadKeeps(was: Files, fs: Files, s: nat, fallback: Content)
    requires Live(Config, Main) in was && SwapInv(was, fs, s)
    ensures SwapInv(was, Load(fs, fallback), s)
  {
  }

  /** The restored pair is live, no side file of the old database is, and everything replaced is kept
      under one backup name each, the database with its side files beside it. */
  ghost predicate Restored(was: Files, fs: Files) {
    && Holds(fs, Live(Db, Main), was, Staged(Db))
    && Holds(fs, Live(Config, Main), was, Staged(Config))
    && Live(Db, Journal) !in fs && Live(Db, Wal) !in fs && Live(Db, Shm) !in fs
    && exists s, n, m :: KeptAs(was, fs, s, n, m)
  }

  predicate KeptAs(was: Files, fs: Files, s: nat, n: nat, m: nat) {
    && MainMoved(was, fs, Db, s, n) && MainMoved(was, fs, Config, s, m)
    && SideMoved(was, fs, s, n, Journal) && SideMoved(was, fs, s, n, Wal)
  }

  lemma SwappedIsRestored(was: Files, fs: Files, s: nat)
    requires SwapInv(was, fs, s) && Staged(Db) !in fs && Staged(Config) !in fs
    ensures Restored(was, fs)
  {
    var n, m := FreeName(was, Db, s, 0).value, FreeName(was, Config, s, 0).value;
    assert KeptAs(was, fs, s, n, m);
  }

  lemma DiscardKeeps(was: Files, fs: Files, s: nat)
    requires SwapInv(was, fs, s) && BegunWith(fs).None?
    ensures SwapInv(was, Discarded(fs), s) && Restored(was, Discarded(fs))
  {
    SwappedIsRestored(was, Discarded(fs), s);
  }

  lemma FirstApply(was: Files, now: nat)
    requires Ready(was)
    ensures var a := Apply(was, now);
            && AllInv(was, a.trace, now)
            && (a.ok ==> Restored(was, End(was, a.trace)))
  {
    var marked := was[Applying := Stamp(now)];
    MarkBegins(was, now);
    SwapKeeps(was, marked, now);
    var o := Swap(marked, now);
    EndOf(was, [marked], o.trace);
    if o.ok {
      SwappedIsRestored(was, End(marked, o.trace), now);
    }
  }

  lemma LaterApply(was: Files, fs: Files, now: nat, s: nat)
    requires Ready(was) && SwapInv(was, fs, s)
    ensures var a := Apply(fs, now);
            && AllInv(was, a.trace, s)
            && (a.ok ==> Restored(was, End(fs, a.trace)))
  {
    if StageDir !in fs {
      SwappedIsRestored(was, fs, s);
    } else if BegunWith(fs).Some? {
      SwapKeeps(was, fs, s);
      var o := Swap(fs, s);
      if o.ok {
        SwappedIsRestored(was, End(fs, o.trace), s);
      }
    } else {
      DiscardKeeps(was, fs, s);
    }
  }

  lemma ApplyKeeps(was: Files, fs: Files, now: nat)
    requires Ready(was) && Inv(was, fs)
    ensures var a := Apply(fs, now);
            && (forall i :: 0 <= i < |a.trace| ==> Inv(was, a.trace[i]))
            && (a.ok ==> Restored(was, End(fs, a.trace)))
  {
    if fs == was {
      FirstApply(was, now);
    } else {
      var s :| SwapInv(was, fs, s);
      LaterApply(was, fs, now, s);
    }
  }

  // ----- What the swap is for -----

  /** A start ends in the loaded files or in one of the states of its apply. */
  lemma AfterBootIs(fs: Files, b: Boot) returns (i: nat)
    ensures var f := Load(fs, b.fallback);
            var states := [f] + Apply(f, b.now).trace;
            i < |states| && AfterBoot(fs, b) == states[i]
  {
    hide Apply, Load;
    i := if Survives(fs, b) then |Apply(Load(fs, b.fallback), b.now).trace| else b.crash.value;
  }

  lemma BootKeeps(was: Files, fs: Files, b: Boot)
    requires Ready(was) && Inv(was, fs)
    ensures Inv(was, AfterBoot(fs, b))
  {
    var f := Load(fs, b.fallback);
    LoadedInv(was, fs, b.fallback);
    ApplyKeeps(was, f, b.now);
    var i := AfterBootIs(fs, b);
    assert i > 0 ==> ([f] + Apply(f, b.now).trace)[i] == Apply(f, b.now).trace[i - 1];
  }

  lemma {:induction false} BootsKeep(was: Files, bs: seq<Boot>)
    requires Ready(was)
    ensures Inv(was, AfterBoots(was, bs))
    decreases |bs|
  {
    if bs != [] {
      BootsKeep(was, bs[..|bs| - 1]);
      BootKeeps(was, AfterBoots(was, bs[..|bs| - 1]), bs[|bs| - 1]);
    }
  }

  lemma LoadedInv(was: Files, fs: Files, fallback: Content)
    requires Ready(was) && Inv(was, fs)
    ensures Inv(was, Load(fs, fallback))
  {
    if fs != was {
      var s :| SwapInv(was, fs, s);
      LoadKeeps(was, fs, s, fallback);
    }
  }

  /** However often starts crash, and wherever, a start that gets past the apply sees the restored
      database with the restored configuration: never one of them with the other's old counterpart,
      and never the restored database with a side file of the old one. */
  lemma RestoreIsAtomic(was: Files, crashed: seq<Boot>, last: Boot)
    requires Ready(was)
    requires Survives(AfterBoots(was, crashed), last)
    ensures
      Apply(Load(AfterBoots(was, crashed), last.fallback), last.now).ok ==>
        Restored(was, AfterBoots(was, crashed + [last]))
  {
    var fs := AfterBoots(was, crashed);
    BootsKeep(was, crashed);
    LoadedInv(was, fs, last.fallback);
    ApplyKeeps(was, Load(fs, last.fallback), last.now);
    assert (crashed + [last])[..|crashed|] == crashed;
  }

  /** In every state on the way the old database survives, at its live name or at one backup name, and
      so does each of its side files, beside it once it has been moved. */
  lemma OldDatabaseSurvives(was: Files, bs: seq<Boot>)
    requires Ready(was) && Live(Db, Main) in was
    ensures exists s, n :: OldDatabaseAt(was, AfterBoots(was, bs), s, n)
  {
    BootsKeep(was, bs);
    var fs := AfterBoots(was, bs);
    if fs == was {
      assert OldDatabaseAt(was, fs, 0, 0);
    } else {
      var s :| SwapInv(was, fs, s);
      OldDatabaseKept(was, fs, s);
    }
  }

  /** Wherever the restored database is live, no side file of the old one is. */
  lemma NoOldSideFiles(was: Files, bs: seq<Boot>)
    requires Ready(was)
    ensures var fs := AfterBoots(was, bs);
            Staged(Db) !in fs ==>
              && Holds(fs, Live(Db, Main), was, Staged(Db))
              && Live(Db, Journal) !in fs && Live(Db, Wal) !in fs && Live(Db, Shm) !in fs
  {
    BootsKeep(was, bs);
  }

  lemma OldDatabaseKept(was: Files, fs: Files, s: nat)
    requires SwapInv(was, fs, s) && Live(Db, Main) in was
    ensures exists n :: OldDatabaseAt(was, fs, s, n)
  {
    match FreeName(was, Db, s, 0)
    case None => assert OldDatabaseAt(was, fs, s, 0);
    case Some(n) => assert OldDatabaseAt(was, fs, s, n);
  }

  predicate OldDatabaseAt(was: Files, fs: Files, s: nat, n: nat) {
    && (forall side :: side == Journal || side == Wal ==>
          (Live(Db, side) in was ==>
             Holds(fs, Live(Db, side), was, Live(Db, side)) || Holds(fs, Bak(Db, s, n, side), was, Live(Db, side))))
    && (|| Holds(fs, Live(Db, Main), was, Live(Db, Main))
        || (&& Holds(fs, Bak(Db, s, n, Main), was, Live(Db, Main))
            && SideMoved(was, fs, s, n, Journal) && SideMoved(was, fs, s, n, Wal)))
  }

  // ----- When an apply gets to its end -----

  /** Where swapping the database stops, for any files: no free backup name, or a side file of an
      earlier backup under the name that is free. */
  predicate Blocked(fs: Files, base: Base, s: nat) {
    Staged(base) in fs &&
    match FreeName(fs, base, s, 0)
    case None => true
    case Some(n) =>
      base.Db? && (|| (Live(Db, Journal) in fs && Bak(Db, s, n, Journal) in fs)
                   || (Live(Db, Wal) in fs && Bak(Db, s, n, Wal) in fs))
  }

  lemma SideFilesEnd(fs: Files, s: nat, n: nat)
    ensures var o := SideFiles(fs, s, n);
            var f := End(fs, o.trace);
            && (o.ok <==> !(Live(Db, Journal) in fs && Bak(Db, s, n, Journal) in fs)
                          && !(Live(Db, Wal) in fs && Bak(Db, s, n, Wal) in fs))
            && (forall b :: Staged(b) in f <==> Staged(b) in fs)
            && (forall b, t, i :: Bak(b, t, i, Main) in f <==> Bak(b, t, i, Main) in fs)
  {
    var a := MoveIfExists(fs, Live(Db, Journal), Bak(Db, s, n, Journal));
    var f := End(fs, a.trace);
    var b := MoveIfExists(f, Live(Db, Wal), Bak(Db, s, n, Wal));
    var g := End(f, b.trace);
    EndOf(f, b.trace, Remove(g, Live(Db, Shm)).trace);
    EndOf(fs, a.trace, b.trace + Remove(g, Live(Db, Shm)).trace);
  }

  lemma SwapMainEnd(fs: Files, base: Base, s: nat, n: nat)
    requires Staged(base) in fs && Bak(base, s, n, Main) !in fs
    ensures var o := SwapMain(fs, base, s, n);
            var f := End(fs, o.trace);
            && o.ok
            && (forall b :: b != base ==> (Staged(b) in f <==> Staged(b) in fs))
            && (forall b, t, i :: b != base ==> (Bak(b, t, i, Main) in f <==> Bak(b, t, i, Main) in fs))
  {
    var a := MoveIfExists(fs, Live(base, Main), Bak(base, s, n, Main));
    var f := End(fs, a.trace);
    EndOf(fs, a.trace, Promote(f, base).trace);
  }

  lemma SwapInEndsUnlessBlocked(fs: Files, base: Base, s: nat)
    ensures var o := SwapIn(fs, base, s);
            && (o.ok <==> !Blocked(fs, base, s))
            && (forall b :: b != base ==> (Staged(b) in End(fs, o.trace) <==> Staged(b) in fs))
            && (forall b, t, i :: b != base ==> (Bak(b, t, i, Main) in End(fs, o.trace) <==> Bak(b, t, i, Main) in fs))
  {
    FreeNameSpec(fs, base, s, 0);
    if Staged(base) in fs && FreeName(fs, base, s, 0).Some? {
      var n := FreeName(fs, base, s, 0).value;
      SideFilesEnd(fs, s, n);
      var sides := if base.Db? then SideFiles(fs, s, n) else Outcome(true, []);
      var f := End(fs, sides.trace);
      SwapMainEnd(f, base, s, n);
      EndOf(fs, sides.trace, SwapMain(f, base, s, n).trace);
    }
  }

  /** A swap that has begun gets to its end if and only if neither file is blocked. */
  lemma SwapEndsUnlessBlocked(fs: Files, s: nat)
    ensures Swap(fs, s).ok <==> !Blocked(fs, Db, s) && !Blocked(fs, Config, s)
  {
    SwapInEndsUnlessBlocked(fs, Db, s);
    var f := End(fs, SwapIn(fs, Db, s).trace);
    SwapInEndsUnlessBlocked(f, Config, s);
    SameFreeName(fs, f, Config, s, 0);
  }

  lemma {:induction false} SameFreeName(fs: Files, f: Files, base: Base, s: nat, i: nat)
    requires forall j :: Bak(base, s, j, Main) in f <==> Bak(base, s, j, Main) in fs
    ensures FreeName(f, base, s, i) == FreeName(fs, base, s, i)
    decreases MAX_NAMES - i
  {
    if i < MAX_NAMES {
      SameFreeName(fs, f, base, s, i + 1);
    }
  }

  /** A restore that was never confirmed, or whose staging never completed, is never applied: the
      first start discards it and no live or backup file changes. */
  lemma UnconfirmedIsDiscarded(fs: Files, now: nat)
    requires StageDir in fs && BegunWith(fs).None? && !Complete(fs)
    ensures var a := Apply(fs, now);
            && a.ok && !a.applied && |a.trace| == 1
            && StageDir !in a.trace[0] && Staged(Db) !in a.trace[0] && Staged(Config) !in a.trace[0]
            && forall p: Path :: p.Live? || p.Bak? ==> Unchanged(a.trace[0], p, fs)
  {
  }

  /** The apply reports a restore as applied if and only if one was to be: a swap that had begun, or a complete
      staging that awaits no confirmation; one that could not be ended is an error instead. With nothing
      staged it touches nothing. */
  lemma ApplyTells(fs: Files, now: nat)
    ensures
      var a := Apply(fs, now);
      var due := StageDir in fs && (BegunWith(fs).Some? || (Unconfirmed !in fs && Staged(Db) in fs && Staged(Config) in fs));
      && (a.applied <==> due && a.ok)
      && (!due ==> a.ok && a.trace == if StageDir in fs then [Discarded(fs)] else [])
  {
    hide Swap, BegunWith, Discarded;
  }

}
