/** Does the restore get to its end? Over any starts and crashes: a swap that is blocked stays blocked, and
    exactly which data directories never get blocked. */
module RestoreProgress {
  import opened Wrappers
  import opened Restore

  ghost predicate Begun(fs: Files, s: nat) {
    StageDir in fs && BegunWith(fs) == Some(s)
  }

  // ----- Blocked for good -----

  /** A swap has begun that cannot get to its end. */
  ghost predicate Stuck(fs: Files, s: nat) {
    Begun(fs, s) && (Blocked(fs, Db, s) || Blocked(fs, Config, s))
  }

  lemma LoadKeepsStuck(fs: Files, s: nat, fallback: Content)
    requires Stuck(fs, s)
    ensures Stuck(Load(fs, fallback), s)
  {
    var f := Load(fs, fallback);
    SameFreeName(fs, f, Db, s, 0);
    SameFreeName(fs, f, Config, s, 0);
  }

  lemma StuckFails(fs: Files, s: nat, now: nat)
    requires Stuck(fs, s)
    ensures !Apply(fs, now).ok
  {
    SwapEndsUnlessBlocked(fs, s);
  }

  /** Stuck at the database: at most the journal is moved, and nothing is freed. */
  lemma DbStaysStuck(fs: Files, s: nat)
    requires Begun(fs, s) && Blocked(fs, Db, s)
    ensures
      var o := SwapIn(fs, Db, s);
      !o.ok && forall f <- o.trace :: Begun(f, s) && Blocked(f, Db, s)
  {
    SwapInEndsUnlessBlocked(fs, Db, s);
    if FreeName(fs, Db, s, 0).Some? {
      var n := FreeName(fs, Db, s, 0).value;
      var a := MoveIfExists(fs, Live(Db, Journal), Bak(Db, s, n, Journal));
      if a.ok && a.trace != [] {
        SameFreeName(fs, a.trace[0], Db, s, 0);
      }
      var b := MoveIfExists(End(fs, a.trace), Live(Db, Wal), Bak(Db, s, n, Wal));
      assert !a.ok || !b.ok;
      assert SwapIn(fs, Db, s).trace == a.trace;
    }
  }

  /** The files of one of the two restored files: live, staged and replaced. */
  predicate Of(base: Base, p: Path) {
    match p
    case Live(b, _) => b == base
    case Bak(b, _, _, _) => b == base
    case Staged(b) => b == base
    case _ => false
  }

  /** From `fs` to `f` only files of `base` changed. */
  ghost predicate Only(base: Base, fs: Files, f: Files) {
    forall p: Path :: !Of(base, p) ==> Unchanged(f, p, fs)
  }

  lemma SideFilesOnlyDb(fs: Files, s: nat, n: nat)
    ensures forall f <- SideFiles(fs, s, n).trace :: Only(Db, fs, f)
  {
    var a := MoveIfExists(fs, Live(Db, Journal), Bak(Db, s, n, Journal));
    var f := End(fs, a.trace);
    var b := MoveIfExists(f, Live(Db, Wal), Bak(Db, s, n, Wal));
    var g := End(f, b.trace);
    assert Only(Db, fs, f) && Only(Db, fs, g);
    assert forall h <- Remove(g, Live(Db, Shm)).trace :: Only(Db, fs, h);
  }

  lemma SwapMainOnly(fs: Files, base: Base, s: nat, n: nat)
    ensures forall f <- SwapMain(fs, base, s, n).trace :: Only(base, fs, f)
  {
    var a := MoveIfExists(fs, Live(base, Main), Bak(base, s, n, Main));
    var f := End(fs, a.trace);
    assert Only(base, fs, f);
    assert forall h <- Promote(f, base).trace :: Only(base, fs, h);
  }

  /** Swapping one file leaves everything else alone, in every state on the way. */
  lemma SwapInOnly(fs: Files, base: Base, s: nat)
    ensures forall f <- SwapIn(fs, base, s).trace :: Only(base, fs, f)
    ensures Only(base, fs, End(fs, SwapIn(fs, base, s).trace))
  {
    if Staged(base) in fs && FreeName(fs, base, s, 0).Some? {
      var n := FreeName(fs, base, s, 0).value;
      SideFilesOnlyDb(fs, s, n);
      var sides := if base.Db? then SideFiles(fs, s, n) else Outcome(true, []);
      var f := End(fs, sides.trace);
      assert Only(base, fs, f);
      SwapMainOnly(f, base, s, n);
      assert forall h <- SwapMain(f, base, s, n).trace :: Only(base, fs, h);
    }
  }

  lemma OtherStaysStuck(fs: Files, f: Files, s: nat)
    requires Begun(fs, s) && Only(Db, fs, f)
    ensures Begun(f, s) && (Blocked(f, Config, s) <==> Blocked(fs, Config, s))
  {
    assert Unchanged(f, StageDir, fs) && Unchanged(f, Applying, fs) && Unchanged(f, Staged(Config), fs);
    forall i ensures Bak(Config, s, i, Main) in f <==> Bak(Config, s, i, Main) in fs {
      assert Unchanged(f, Bak(Config, s, i, Main), fs);
    }
    SameFreeName(fs, f, Config, s, 0);
  }

  lemma ApplyStaysStuck(fs: Files, s: nat, now: nat)
    requires Stuck(fs, s)
    ensures forall f <- Apply(fs, now).trace :: Stuck(f, s)
  {
    var a := SwapIn(fs, Db, s);
    if Blocked(fs, Db, s) {
      DbStaysStuck(fs, s);
    } else {
      SwapInEndsUnlessBlocked(fs, Db, s);
      SwapInOnly(fs, Db, s);
      forall f <- a.trace ensures Stuck(f, s) {
        OtherStaysStuck(fs, f, s);
      }
      var f := End(fs, a.trace);
      OtherStaysStuck(fs, f, s);
      SwapInEndsUnlessBlocked(f, Config, s);
      assert FinishSwap(f, s) == SwapIn(f, Config, s) && SwapIn(f, Config, s).trace == [];
    }
  }

  /** A restore that is blocked is blocked for good: however often the program is started, and wherever it
      dies, no start gets past the apply. */
  lemma {:induction false} StuckForGood(fs: Files, s: nat, bs: seq<Boot>, last: Boot)
    requires Stuck(fs, s)
    ensures Stuck(AfterBoots(fs, bs), s)
    ensures !Apply(Load(AfterBoots(fs, bs), last.fallback), last.now).ok
    decreases |bs|
  {
    if bs != [] {
      var b := bs[|bs| - 1];
      StuckForGood(fs, s, bs[..|bs| - 1], b);
      var f := AfterBoots(fs, bs[..|bs| - 1]);
      LoadKeepsStuck(f, s, b.fallback);
      ApplyStaysStuck(Load(f, b.fallback), s, b.now);
      var i := AfterBootIs(f, b);
      assert i > 0 ==> AfterBoot(f, b) in Apply(Load(f, b.fallback), b.now).trace;
    }
    LoadKeepsStuck(AfterBoots(fs, bs), s, last.fallback);
    StuckFails(Load(AfterBoots(fs, bs), last.fallback), s, last.now);
  }

  // ----- Room for a number of crashes -----

  function Free(fs: Files, base: Base, s: nat): set<nat> {
    set i | 0 <= i < MAX_NAMES && Bak(base, s, i, Main) !in fs
  }

  /** Enough free names to survive `c` crashed starts. A start that dies after moving the old database aside
      makes the next one look for another name, and each one that dies after moving config.xml uses up a
      name: the next start creates a default config.xml and moves that aside, too. */
  ghost predicate Room(fs: Files, s: nat, c: nat) {
    && (Staged(Db) in fs ==> !Blocked(fs, Db, s) && (c > 0 && Live(Db, Main) in fs ==> |Free(fs, Db, s)| >= 2))
    && (Staged(Config) in fs ==> |Free(fs, Config, s)| > c)
  }

  ghost predicate Roomy(fs: Files, c: nat) {
    StageDir in fs ==>
      match BegunWith(fs)
      case Some(s) => Room(fs, s, c)
      case None => Complete(fs) ==> forall s :: Room(fs, s, c)
  }

  lemma FreeIs(fs: Files, base: Base, s: nat)
    ensures
      match FreeName(fs, base, s, 0)
      case None => Free(fs, base, s) == {}
      case Some(n) => n in Free(fs, base, s) && |Free(fs, base, s)| > 0 && Bak(base, s, n, Main) !in fs
  {
    FreeNameSpec(fs, base, s, 0);
  }

  /** A start that is not crashed gets past the apply when there is room. */
  lemma RoomyGetsPast(fs: Files, now: nat)
    requires Roomy(fs, 0)
    ensures Apply(fs, now).ok
  {
    if StageDir in fs && (BegunWith(fs).Some? || Complete(fs)) {
      var s := if BegunWith(fs).Some? then BegunWith(fs).value else now;
      var f := if BegunWith(fs).Some? then fs else fs[Applying := Stamp(now)];
      assert Room(fs, s, 0);
      FreeIs(fs, Config, s);
      SameFreeName(fs, f, Db, s, 0);
      SameFreeName(fs, f, Config, s, 0);
      SwapEndsUnlessBlocked(f, s);
    }
  }

  lemma RoomIsMonotone(fs: Files, s: nat, c: nat)
    requires Room(fs, s, c + 1)
    ensures Room(fs, s, c)
  {
  }

  lemma SameNames(fs: Files, f: Files, base: Base, s: nat)
    requires forall i :: Bak(base, s, i, Main) in f <==> Bak(base, s, i, Main) in fs
    ensures Free(f, base, s) == Free(fs, base, s) && FreeName(f, base, s, 0) == FreeName(fs, base, s, 0)
  {
    SameFreeName(fs, f, base, s, 0);
  }

  /** Some of the side files are moved or removed, and nothing else. */
  ghost predicate SidesMoved(fs: Files, f: Files, s: nat, n: nat) {
    && (forall p: Path :: (p.Live? ==> p.side.Main?) && (p.Bak? ==> p.part.Main?) ==> Unchanged(f, p, fs))
    && (forall side :: Live(Db, side) in f && Bak(Db, s, n, side) in f ==> Live(Db, side) in fs && Bak(Db, s, n, side) in fs)
  }

  lemma SidesKeepRoom(fs: Files, f: Files, s: nat, n: nat, c: nat)
    requires Begun(fs, s) && Room(fs, s, c) && FreeName(fs, Db, s, 0) == Some(n) && SidesMoved(fs, f, s, n)
    ensures Begun(f, s) && Room(f, s, c) && FreeName(f, Db, s, 0) == Some(n)
    ensures forall base :: Free(f, base, s) == Free(fs, base, s) && (Staged(base) in f <==> Staged(base) in fs)
    ensures Live(Db, Main) in f <==> Live(Db, Main) in fs
  {
    forall base, i ensures Bak(base, s, i, Main) in f <==> Bak(base, s, i, Main) in fs {
      assert Unchanged(f, Bak(base, s, i, Main), fs);
    }
    SameNames(fs, f, Db, s);
    SameNames(fs, f, Config, s);
    assert forall base :: Unchanged(f, Staged(base), fs);
    assert Unchanged(f, StageDir, fs) && Unchanged(f, Applying, fs) && Unchanged(f, Live(Db, Main), fs);
  }

  lemma SideFilesMove(fs: Files, s: nat, n: nat)
    requires !(Live(Db, Journal) in fs && Bak(Db, s, n, Journal) in fs)
    requires !(Live(Db, Wal) in fs && Bak(Db, s, n, Wal) in fs)
    ensures
      var o := SideFiles(fs, s, n);
      && o.ok && (forall f <- o.trace :: SidesMoved(fs, f, s, n))
      && var f := End(fs, o.trace);
         SidesMoved(fs, f, s, n) && Live(Db, Journal) !in f && Live(Db, Wal) !in f
  {
    SideMoves(fs, fs, s, n, Journal);
    var a := MoveIfExists(fs, Live(Db, Journal), Bak(Db, s, n, Journal));
    var f := End(fs, a.trace);
    SideMoves(fs, f, s, n, Wal);
    var b := MoveIfExists(f, Live(Db, Wal), Bak(Db, s, n, Wal));
    var g := End(f, b.trace);
    var c := Remove(g, Live(Db, Shm));
    ShmGoes(fs, g, s, n);
    EndOf(f, b.trace, c.trace);
    EndOf(fs, a.trace, b.trace + c.trace);
    hide SidesMoved, MoveIfExists, Remove, End;
    assert SideFiles(fs, s, n).trace == a.trace + (b.trace + c.trace);
  }

  lemma ShmGoes(fs: Files, f: Files, s: nat, n: nat)
    requires SidesMoved(fs, f, s, n)
    ensures
      var o := Remove(f, Live(Db, Shm));
      var g := End(f, o.trace);
      && o.ok && (forall h <- o.trace :: SidesMoved(fs, h, s, n)) && SidesMoved(fs, g, s, n)
      && (forall side :: side != Shm ==> Unchanged(g, Live(Db, side), f))
  {
  }

  lemma SideMoves(fs: Files, f: Files, s: nat, n: nat, side: Side)
    requires SidesMoved(fs, f, s, n) && side != Main && !(Live(Db, side) in f && Bak(Db, s, n, side) in f)
    ensures
      var o := MoveIfExists(f, Live(Db, side), Bak(Db, s, n, side));
      var g := End(f, o.trace);
      && o.ok && (forall h <- o.trace :: SidesMoved(fs, h, s, n)) && SidesMoved(fs, g, s, n)
      && Live(Db, side) !in g
      && (forall other :: other != side ==> Unchanged(g, Live(Db, other), f) && Unchanged(g, Bak(Db, s, n, other), f))
  {
  }

  lemma FreeLess(fs: Files, base: Base, s: nat, n: nat)
    requires Live(base, Main) in fs && FreeName(fs, base, s, 0) == Some(n)
    ensures
      var f := Moved(fs, Live(base, Main), Bak(base, s, n, Main));
      |Free(f, base, s)| == |Free(fs, base, s)| - 1
  {
    FreeIs(fs, base, s);
    var f := Moved(fs, Live(base, Main), Bak(base, s, n, Main));
    assert Free(f, base, s) == Free(fs, base, s) - {n};
  }

  ghost predicate AllRoom(trace: seq<Files>, s: nat, c: nat) {
    forall f <- trace :: Begun(f, s) && Room(f, s, c)
  }

  /** The side files are out of the way. */
  lemma DbMainRoom(fs: Files, s: nat, n: nat, c: nat)
    requires Begun(fs, s) && Room(fs, s, c + 1) && FreeName(fs, Db, s, 0) == Some(n) && Staged(Db) in fs
    requires Live(Db, Journal) !in fs && Live(Db, Wal) !in fs
    ensures var o := SwapMain(fs, Db, s, n); o.ok && AllRoom(o.trace, s, c) && Staged(Db) !in End(fs, o.trace)
  {
    FreeIs(fs, Db, s);
    FreeNameSpec(fs, Db, s, 0);
    var a := MoveIfExists(fs, Live(Db, Main), Bak(Db, s, n, Main));
    var f := End(fs, a.trace);
    SameNames(fs, f, Config, s);
    if Live(Db, Main) in fs {
      FreeLess(fs, Db, s, n);
      FreeIs(f, Db, s);
    }
    assert Begun(f, s) && Room(f, s, c);
    var g := Moved(f, Staged(Db), Live(Db, Main));
    SameNames(f, g, Config, s);
    assert Begun(g, s) && Room(g, s, c);
    EndOf(fs, a.trace, [g]);
    assert SwapMain(fs, Db, s, n) == Outcome(true, a.trace + [g]);
  }

  lemma DbSwapRoom(fs: Files, s: nat, c: nat)
    requires Begun(fs, s) && Room(fs, s, c + 1)
    ensures var o := SwapIn(fs, Db, s); o.ok && AllRoom(o.trace, s, c) && Staged(Db) !in End(fs, o.trace)
  {
    if Staged(Db) in fs {
      var n := FreeName(fs, Db, s, 0).value;
      var sides := SideFiles(fs, s, n);
      SideFilesMove(fs, s, n);
      var f := End(fs, sides.trace);
      forall h | h in sides.trace || h == f ensures Begun(h, s) && Room(h, s, c) {
        SidesKeepRoom(fs, h, s, n, c + 1);
        RoomIsMonotone(h, s, c);
      }
      SidesKeepRoom(fs, f, s, n, c + 1);
      DbMainRoom(f, s, n, c);
      EndOf(fs, sides.trace, SwapMain(f, Db, s, n).trace);
      hide AllRoom, Room, SideFiles, SwapMain;
      assert SwapIn(fs, Db, s) == Then(sides, SwapMain(f, Db, s, n));
    }
  }

  lemma ConfigSwapRoom(fs: Files, s: nat, c: nat)
    requires Begun(fs, s) && Staged(Db) !in fs && Room(fs, s, c + 1)
    ensures
      var o := SwapIn(fs, Config, s);
      var f := End(fs, o.trace);
      o.ok && AllRoom(o.trace, s, c) && Begun(f, s) && Staged(Db) !in f && Staged(Config) !in f
  {
    if Staged(Config) in fs {
      FreeIs(fs, Config, s);
      FreeNameSpec(fs, Config, s, 0);
      var k := FreeName(fs, Config, s, 0).value;
      var a := MoveIfExists(fs, Live(Config, Main), Bak(Config, s, k, Main));
      SwapConfigIs(fs, s, k);
      var f := End(fs, a.trace);
      if Live(Config, Main) in fs {
        FreeLess(fs, Config, s, k);
      }
      hide FreeName, SwapIn;
      assert Begun(f, s) && Room(f, s, c);
      var g := Moved(f, Staged(Config), Live(Config, Main));
      assert Begun(g, s) && Room(g, s, c);
    }
  }

  lemma CleanUpRoomy(fs: Files, s: nat, c: nat)
    requires Begun(fs, s) && Staged(Db) !in fs && Staged(Config) !in fs
    ensures forall f <- CleanUp(fs).trace :: Roomy(f, c)
  {
    var f := End(fs, Remove(fs, Applying).trace);
    assert Roomy(f, c) && Roomy(Discarded(f), c);
  }

  lemma SwapRoomy(fs: Files, s: nat, c: nat)
    requires Begun(fs, s) && Room(fs, s, c + 1)
    ensures forall f <- Swap(fs, s).trace :: Roomy(f, c)
  {
    DbSwapRoom(fs, s, c);
    var a := SwapIn(fs, Db, s);
    var f := End(fs, a.trace);
    DbSwapLeavesRoom(fs, s, c);
    ConfigSwapRoom(f, s, c);
    var b := SwapIn(f, Config, s);
    CleanUpRoomy(End(f, b.trace), s, c);
    assert forall h <- a.trace :: Roomy(h, c);
    assert forall h <- b.trace :: Roomy(h, c);
    hide Roomy, SwapIn, CleanUp;
  }

  /** Swapping the database costs no name of the configuration. */
  lemma DbSwapLeavesRoom(fs: Files, s: nat, c: nat)
    requires Begun(fs, s) && Room(fs, s, c + 1)
    ensures
      var f := End(fs, SwapIn(fs, Db, s).trace);
      Begun(f, s) && Room(f, s, c + 1)
  {
    DbSwapRoom(fs, s, c);
    var f := End(fs, SwapIn(fs, Db, s).trace);
    SwapInOnly(fs, Db, s);
    OtherStaysStuck(fs, f, s);
    assert Unchanged(f, Staged(Config), fs);
    forall i ensures Bak(Config, s, i, Main) in f <==> Bak(Config, s, i, Main) in fs {
      assert Unchanged(f, Bak(Config, s, i, Main), fs);
    }
    SameNames(fs, f, Config, s);
  }

  lemma SameRoom(fs: Files, f: Files, s: nat, c: nat)
    requires Room(fs, s, c)
    requires forall p: Path :: p != Applying && p != Live(Config, Main) ==> Unchanged(f, p, fs)
    ensures Room(f, s, c)
  {
    forall base, i ensures Bak(base, s, i, Main) in f <==> Bak(base, s, i, Main) in fs {
      assert Unchanged(f, Bak(base, s, i, Main), fs);
    }
    SameNames(fs, f, Db, s);
    SameNames(fs, f, Config, s);
    assert forall base, side :: base == Db ==> Unchanged(f, Live(base, side), fs);
    assert forall base :: Unchanged(f, Staged(base), fs);
    assert forall n, side :: Unchanged(f, Bak(Db, s, n, side), fs);
  }

  lemma LoadKeepsRoomy(fs: Files, fallback: Content, c: nat)
    requires Roomy(fs, c)
    ensures Roomy(Load(fs, fallback), c)
  {
    var f := Load(fs, fallback);
    forall s | Room(fs, s, c) ensures Room(f, s, c) {
      SameRoom(fs, f, s, c);
    }
  }

  /** Every crashed start takes away at most what one start may. */
  lemma ApplyRoomy(fs: Files, now: nat, c: nat)
    requires Roomy(fs, c + 1)
    ensures forall f <- Apply(fs, now).trace :: Roomy(f, c)
  {
    if StageDir in fs {
      match BegunWith(fs)
      case Some(s) => SwapRoomy(fs, s, c);
      case None =>
        if Complete(fs) {
          var marked := fs[Applying := Stamp(now)];
          SameRoom(fs, marked, now, c + 1);
          SwapRoomy(marked, now, c);
          RoomIsMonotone(marked, now, c);
          assert Roomy(marked, c);
        } else {
          assert Roomy(Discarded(fs), c);
        }
    }
  }

  lemma RoomyIsMonotone(fs: Files, c: nat)
    requires Roomy(fs, c + 1)
    ensures Roomy(fs, c)
  {
    forall s | Room(fs, s, c + 1) ensures Room(fs, s, c) {
      RoomIsMonotone(fs, s, c);
    }
  }

  lemma {:induction false} BootsRoomy(fs: Files, bs: seq<Boot>, c: nat)
    requires Roomy(fs, c + |bs|)
    ensures Roomy(AfterBoots(fs, bs), c)
    decreases |bs|
  {
    if bs != [] {
      BootsRoomy(fs, bs[..|bs| - 1], c + 1);
      var before, b := AfterBoots(fs, bs[..|bs| - 1]), bs[|bs| - 1];
      LoadKeepsRoomy(before, b.fallback, c + 1);
      var f := Load(before, b.fallback);
      RoomyIsMonotone(f, c);
      ApplyRoomy(f, b.now, c);
      var i := AfterBootIs(before, b);
      assert i > 0 ==> AfterBoot(before, b) in Apply(f, b.now).trace;
    }
  }

  // ----- ... and without it some crashes block the restore -----

  /** Some `c` crashed starts lead to one that is not crashed and still does not get past the apply. */
  ghost predicate CanFail(fs: Files, c: nat) {
    exists crashed, last :: |crashed| == c && Fails(fs, crashed, last)
  }

  ghost predicate Fails(fs: Files, crashed: seq<Boot>, last: Boot) {
    var f := AfterBoots(fs, crashed);
    Survives(f, last) && !Apply(Load(f, last.fallback), last.now).ok
  }

  lemma {:induction false} BootsCons(fs: Files, b: Boot, rest: seq<Boot>)
    ensures AfterBoots(fs, [b] + rest) == AfterBoots(AfterBoot(fs, b), rest)
    decreases |rest|
  {
    hide AfterBoot;
    if rest == [] {
      assert [b] + rest == [b] && [b][..0] == [];
      assert AfterBoots(fs, [b]) == AfterBoot(AfterBoots(fs, []), b);
    } else {
      BootsCons(fs, b, rest[..|rest| - 1]);
      assert ([b] + rest)[..|rest|] == [b] + rest[..|rest| - 1];
    }
  }

  lemma FailsLater(fs: Files, b: Boot, c: nat)
    requires CanFail(AfterBoot(fs, b), c)
    ensures CanFail(fs, c + 1)
  {
    var crashed, last :| |crashed| == c && Fails(AfterBoot(fs, b), crashed, last);
    BootsCons(fs, b, crashed);
    hide AfterBoots;
    assert |[b] + crashed| == c + 1 && Fails(fs, [b] + crashed, last);
  }

  lemma StuckCanFail(fs: Files, s: nat, c: nat)
    requires Stuck(fs, s)
    ensures CanFail(fs, c)
  {
    var b := Boot(0, Bytes(0), None);
    var crashed := seq(c, _ => b);
    StuckForGood(fs, s, crashed, b);
    assert |crashed| == c && Fails(fs, crashed, b);
  }

  /** A start in the middle of the swap that dies after moving config.xml aside. */
  lemma ConfigMovedThenDead(fs: Files, s: nat, k: nat) returns (b: Boot)
    requires Begun(fs, s) && Staged(Db) !in fs && Staged(Config) in fs && FreeName(fs, Config, s, 0) == Some(k)
    ensures
      var f := Load(fs, b.fallback);
      AfterBoot(fs, b) == Moved(f, Live(Config, Main), Bak(Config, s, k, Main))
  {
    b := Boot(0, Bytes(0), Some(1));
    var f := Load(fs, b.fallback);
    SameNames(fs, f, Config, s);
    FreeIs(f, Config, s);
    hide FreeName;
    ConfigFirst(f, s, k, b.now);
    hide Apply, Load;
  }

  /** With the database swapped, the first thing an apply does is move config.xml aside. */
  lemma ConfigFirst(f: Files, s: nat, k: nat, now: nat)
    requires Begun(f, s) && Staged(Db) !in f && Staged(Config) in f && Live(Config, Main) in f
    requires FreeName(f, Config, s, 0) == Some(k) && Bak(Config, s, k, Main) !in f
    ensures
      var trace := Apply(f, now).trace;
      |trace| > 1 && trace[0] == Moved(f, Live(Config, Main), Bak(Config, s, k, Main))
  {
    SwapConfigIs(f, s, k);
    assert SwapIn(f, Db, s) == Outcome(true, []);
    hide SwapIn, CleanUp, FreeName;
    assert FinishSwap(f, s).trace == SwapIn(f, Config, s).trace + CleanUp(End(f, SwapIn(f, Config, s).trace)).trace;
    assert Apply(f, now).trace == FinishSwap(f, s).trace;
  }

  lemma {:induction false} NamesRunOut(fs: Files, s: nat, c: nat)
    requires Begun(fs, s) && Staged(Db) !in fs && Staged(Config) in fs && |Free(fs, Config, s)| <= c
    ensures CanFail(fs, c)
    decreases c
  {
    FreeIs(fs, Config, s);
    match FreeName(fs, Config, s, 0)
    case None => StuckCanFail(fs, s, c);
    case Some(k) =>
      var b := ConfigMovedThenDead(fs, s, k);
      var f := Load(fs, b.fallback);
      SameNames(fs, f, Config, s);
      FreeLess(f, Config, s, k);
      NamesRunOut(AfterBoot(fs, b), s, c - 1);
      FailsLater(fs, b, c - 1);
  }

  lemma BlockedFails(was: Files, s: nat, c: nat)
    requires Ready(was) && (Blocked(was, Db, s) || Blocked(was, Config, s))
    ensures CanFail(was, c)
  {
    var marked := was[Applying := Stamp(s)];
    SameNames(was, marked, Db, s);
    SameNames(was, marked, Config, s);
    assert Stuck(marked, s);
    if c == 0 {
      SwapEndsUnlessBlocked(marked, s);
      var last := Boot(s, Bytes(0), None);
      var none: seq<Boot> := [];
      assert |none| == c && Fails(was, none, last);
    } else {
      var b := Boot(s, Bytes(0), Some(1));
      BootAt(was, s, marked, 0, b);
      StuckCanFail(marked, s, c - 1);
      FailsLater(was, b, c - 1);
    }
  }

  /** The first start, dying after a given state of its apply. */
  lemma BootAt(was: Files, s: nat, state: Files, i: nat, b: Boot)
    requires Ready(was) && b.now == s && b.crash == Some(i + 1)
    requires i < |Apply(was, s).trace| && Apply(was, s).trace[i] == state
    ensures i + 1 < |Apply(was, s).trace| || state == End(was, Apply(was, s).trace)
    ensures AfterBoot(was, b) == state
  {
    hide Apply;
    assert Load(was, b.fallback) == was;
  }

  lemma FirstTrace(was: Files, s: nat)
    requires Ready(was)
    ensures Apply(was, s).trace == [was[Applying := Stamp(s)]] + Swap(was[Applying := Stamp(s)], s).trace
  {
  }

  /** The last free name for the old database is used up when the first start dies right after moving it. */
  lemma LastDbNameFails(was: Files, s: nat, c: nat)
    requires Ready(was) && c > 0 && !Blocked(was, Db, s) && Live(Db, Main) in was && |Free(was, Db, s)| < 2
    ensures CanFail(was, c)
  {
    var marked := was[Applying := Stamp(s)];
    SameNames(was, marked, Db, s);
    FreeIs(marked, Db, s);
    var n := FreeName(marked, Db, s, 0).value;
    SideFilesMove(marked, s, n);
    var sides := SideFiles(marked, s, n);
    var f := End(marked, sides.trace);
    SidesAside(marked, f, s, n);
    var g := Moved(f, Live(Db, Main), Bak(Db, s, n, Main));
    FreeLess(f, Db, s, n);
    FreeIs(g, Db, s);
    assert Stuck(g, s);
    FirstTrace(was, s);
    DbTrace(marked, s, n);
    var i := 1 + |sides.trace|;
    var b := Boot(s, Bytes(0), Some(i + 1));
    assert Apply(was, s).trace[i] == g;
    BootAt(was, s, g, i, b);
    StuckCanFail(g, s, c - 1);
    FailsLater(was, b, c - 1);
  }

  lemma SidesAside(fs: Files, f: Files, s: nat, n: nat)
    requires Begun(fs, s) && FreeName(fs, Db, s, 0) == Some(n) && SidesMoved(fs, f, s, n) && Staged(Db) in fs
    ensures Begun(f, s) && FreeName(f, Db, s, 0) == Some(n) && Free(f, Db, s) == Free(fs, Db, s) && Staged(Db) in f
    ensures Live(Db, Main) in f <==> Live(Db, Main) in fs
  {
    forall i ensures Bak(Db, s, i, Main) in f <==> Bak(Db, s, i, Main) in fs {
      assert Unchanged(f, Bak(Db, s, i, Main), fs);
    }
    SameNames(fs, f, Db, s);
    assert Unchanged(f, StageDir, fs) && Unchanged(f, Applying, fs) && Unchanged(f, Live(Db, Main), fs)
           && Unchanged(f, Staged(Db), fs);
  }

  /** Where the old database is moved in the trace of a swap. */
  lemma DbTrace(fs: Files, s: nat, n: nat)
    requires Staged(Db) in fs && FreeName(fs, Db, s, 0) == Some(n)
    requires
      var o := SideFiles(fs, s, n);
      var f := End(fs, o.trace);
      o.ok && Live(Db, Main) in f && Bak(Db, s, n, Main) !in f
    ensures
      var o := SideFiles(fs, s, n);
      var f := End(fs, o.trace);
      && |Swap(fs, s).trace| > |o.trace|
      && Swap(fs, s).trace[|o.trace|] == Moved(f, Live(Db, Main), Bak(Db, s, n, Main))
  {
    var o := SideFiles(fs, s, n);
    var f := End(fs, o.trace);
    var m := MoveIfExists(f, Live(Db, Main), Bak(Db, s, n, Main));
    var p := Promote(End(f, m.trace), Db);
    assert SwapMain(f, Db, s, n).trace == m.trace + p.trace;
    assert SwapIn(fs, Db, s).trace == o.trace + (m.trace + p.trace);
    hide SwapIn, SideFiles, FinishSwap, MoveIfExists, Promote, FreeName;
    assert SwapIn(fs, Db, s).trace <= Swap(fs, s).trace;
  }

  /** The names for config.xml run out when enough starts die after moving it aside. */
  lemma ConfigNamesFail(was: Files, s: nat, c: nat)
    requires Ready(was) && !Blocked(was, Db, s) && 0 < |Free(was, Config, s)| <= c
    ensures CanFail(was, c)
  {
    var b, g := DiesAtConfig(was, s);
    NamesRunOut(g, s, c - 1);
    FailsLater(was, b, c - 1);
  }

  /** The first start dies right after moving config.xml aside. */
  lemma DiesAtConfig(was: Files, s: nat) returns (b: Boot, g: Files)
    requires Ready(was) && !Blocked(was, Db, s) && |Free(was, Config, s)| > 0
    ensures AfterBoot(was, b) == g && Begun(g, s) && Staged(Db) !in g && Staged(Config) in g
    ensures |Free(g, Config, s)| == |Free(was, Config, s)| - 1
  {
    var marked := was[Applying := Stamp(s)];
    MarkedIs(was, s);
    hide SwapIn, Swap, FreeName, Apply, Blocked, Ready;
    SwapInEndsUnlessBlocked(marked, Db, s);
    var a := SwapIn(marked, Db, s);
    var f := End(marked, a.trace);
    DbSwapped(marked, s);
    FreeIs(f, Config, s);
    var k := FreeName(f, Config, s, 0).value;
    FreeLess(f, Config, s, k);
    g := Moved(f, Live(Config, Main), Bak(Config, s, k, Main));
    FirstTrace(was, s);
    ConfigTrace(marked, s, k);
    var i := 1 + |a.trace|;
    b := Boot(s, Bytes(0), Some(i + 1));
    BootAt(was, s, g, i, b);
  }

  lemma MarkedIs(was: Files, s: nat)
    requires Ready(was)
    ensures
      var marked := was[Applying := Stamp(s)];
      && Begun(marked, s) && Live(Config, Main) in marked && Staged(Config) in marked
      && (Blocked(marked, Db, s) <==> Blocked(was, Db, s))
      && (forall base :: Free(marked, base, s) == Free(was, base, s))
  {
    var marked := was[Applying := Stamp(s)];
    SameNames(was, marked, Db, s);
    SameNames(was, marked, Config, s);
    hide FreeName;
  }

  lemma DbSwapped(fs: Files, s: nat)
    requires Begun(fs, s) && !Blocked(fs, Db, s) && Live(Config, Main) in fs && Staged(Config) in fs
    ensures
      var f := End(fs, SwapIn(fs, Db, s).trace);
      && Begun(f, s) && Staged(Db) !in f && Staged(Config) in f && Live(Config, Main) in f
      && Free(f, Config, s) == Free(fs, Config, s)
  {
    var f := End(fs, SwapIn(fs, Db, s).trace);
    SwapInOnly(fs, Db, s);
    assert Unchanged(f, Live(Config, Main), fs) && Unchanged(f, Staged(Config), fs);
    OtherStaysStuck(fs, f, s);
    forall i ensures Bak(Config, s, i, Main) in f <==> Bak(Config, s, i, Main) in fs {
      assert Unchanged(f, Bak(Config, s, i, Main), fs);
    }
    SameNames(fs, f, Config, s);
    if Staged(Db) in fs {
      var n := FreeName(fs, Db, s, 0).value;
      SideFilesMove(fs, s, n);
      var sides := SideFiles(fs, s, n);
      SidesAside(fs, End(fs, sides.trace), s, n);
      FreeNameSpec(End(fs, sides.trace), Db, s, 0);
      DbPromoted(End(fs, sides.trace), s, n);
      EndOf(fs, sides.trace, SwapMain(End(fs, sides.trace), Db, s, n).trace);
    }
  }

  lemma DbPromoted(fs: Files, s: nat, n: nat)
    requires Staged(Db) in fs && Bak(Db, s, n, Main) !in fs
    ensures Staged(Db) !in End(fs, SwapMain(fs, Db, s, n).trace)
  {
    var m := MoveIfExists(fs, Live(Db, Main), Bak(Db, s, n, Main));
    EndOf(fs, m.trace, Promote(End(fs, m.trace), Db).trace);
  }

  lemma ConfigTrace(fs: Files, s: nat, k: nat)
    requires
      var a := SwapIn(fs, Db, s);
      var f := End(fs, a.trace);
      a.ok && Staged(Config) in f && Live(Config, Main) in f && FreeName(f, Config, s, 0) == Some(k)
      && Bak(Config, s, k, Main) !in f
    ensures
      var a := SwapIn(fs, Db, s).trace;
      |Swap(fs, s).trace| > |a| && Swap(fs, s).trace[|a|] == Moved(End(fs, a), Live(Config, Main), Bak(Config, s, k, Main))
  {
    var a := SwapIn(fs, Db, s);
    var f := End(fs, a.trace);
    SwapConfigIs(f, s, k);
    var b := SwapIn(f, Config, s).trace;
    assert b[0] == Moved(f, Live(Config, Main), Bak(Config, s, k, Main));
    hide SwapIn, CleanUp, FreeName;
    assert Swap(fs, s).trace == a.trace + FinishSwap(f, s).trace;
    assert b <= FinishSwap(f, s).trace;
  }

  // ----- Main results -----

  lemma ReadyIsRoomy(was: Files, c: nat)
    requires Ready(was) && forall s :: Room(was, s, c)
    ensures Roomy(was, c)
  {
    hide Room;
  }

  lemma RoomSuffices(was: Files, crashed: seq<Boot>, last: Boot)
    requires Ready(was) && forall s :: Room(was, s, |crashed|)
    ensures !Fails(was, crashed, last)
  {
    hide Room, Apply, Load, AfterBoots, AfterBoot, Ready, Roomy, Survives;
    var f := AfterBoots(was, crashed);
    ReadyIsRoomy(was, |crashed|);
    BootsRoomy(was, crashed, 0);
    LoadKeepsRoomy(f, last.fallback, 0);
    RoomyGetsPast(Load(f, last.fallback), last.now);
  }

  /** Exactly when a confirmed restore gets to its end whatever happens: the first start that survives,
      after any `c` crashed ones, gets past the apply if and only if there is room for `c` crashes under
      every stamp. */
  lemma GetsPastExactly(was: Files, c: nat)
    requires Ready(was)
    ensures !CanFail(was, c) <==> forall s :: Room(was, s, c)
  {
    hide Room, Fails;
    if forall s :: Room(was, s, c) {
      forall crashed, last | |crashed| == c ensures !Fails(was, crashed, last) {
        RoomSuffices(was, crashed, last);
      }
    } else {
      var s :| !Room(was, s, c);
      NoRoomFails(was, s, c);
    }
  }

  lemma NoRoomFails(was: Files, s: nat, c: nat)
    requires Ready(was) && !Room(was, s, c)
    ensures CanFail(was, c)
  {
    FreeIs(was, Config, s);
    if Blocked(was, Db, s) || Blocked(was, Config, s) {
      BlockedFails(was, s, c);
    } else if |Free(was, Config, s)| <= c {
      ConfigNamesFail(was, s, c);
    } else {
      LastDbNameFails(was, s, c);
    }
  }

  /** With room, the first start that survives ends with the restore done. */
  lemma SurvivorRestores(was: Files, crashed: seq<Boot>, last: Boot)
    requires Ready(was) && (forall s :: Room(was, s, |crashed|)) && Survives(AfterBoots(was, crashed), last)
    ensures Restored(was, AfterBoots(was, crashed + [last]))
  {
    GetsPastExactly(was, |crashed|);
    assert !Fails(was, crashed, last);
    RestoreIsAtomic(was, crashed, last);
  }

  /** A directory with one backup that stands in the way: a journal beside the first free name. No start
      at that second gets past the apply, nor does any later one. */
  const WITH_STRAY_JOURNAL: Files := map[
    StageDir := Bytes(0), Staged(Db) := Bytes(1), Staged(Config) := Bytes(2),
    Live(Db, Main) := Bytes(3), Live(Db, Journal) := Bytes(4), Live(Config, Main) := Bytes(5),
    Bak(Db, 7, 0, Journal) := Bytes(6)]

  lemma StrayJournalBlocks(bs: seq<Boot>, last: Boot)
    ensures Ready(WITH_STRAY_JOURNAL)
    ensures
      var b := Boot(7, Bytes(8), None);
      !Apply(Load(AfterBoots(WITH_STRAY_JOURNAL, [b] + bs), last.fallback), last.now).ok
  {
    var was, b := WITH_STRAY_JOURNAL, Boot(7, Bytes(8), None);
    StrayIsFound();
    MarkedAndStuck(was, 7, b);
    BootsCons(was, b, bs);
    StuckForGood(was[Applying := Stamp(7)], 7, bs, last);
  }

  lemma StrayIsFound()
    ensures Ready(WITH_STRAY_JOURNAL) && FreeName(WITH_STRAY_JOURNAL, Db, 7, 0) == Some(0)
    ensures Live(Db, Journal) in WITH_STRAY_JOURNAL && Bak(Db, 7, 0, Journal) in WITH_STRAY_JOURNAL
  {
  }

  /** A journal that cannot be moved stops the first start before it moves anything. */
  lemma MarkedAndStuck(was: Files, s: nat, b: Boot)
    requires Ready(was) && FreeName(was, Db, s, 0) == Some(0) && b.now == s && b.crash.None?
    requires Live(Db, Journal) in was && Bak(Db, s, 0, Journal) in was
    ensures var marked := was[Applying := Stamp(s)]; AfterBoot(was, b) == marked && Stuck(marked, s)
  {
    var marked := was[Applying := Stamp(s)];
    SameNames(was, marked, Db, s);
    assert SideFiles(marked, s, 0) == Outcome(false, []);
    assert SwapIn(marked, Db, s).trace == [] && !SwapIn(marked, Db, s).ok;
    FirstTrace(was, s);
    hide SwapIn, SideFiles, FreeName;
  }

  // ----- A restore nobody confirmed -----

  /** Nothing is staged, or what is staged was never confirmed or never complete, and no swap has begun. */
  ghost predicate Unapplied(fs: Files) {
    StageDir in fs ==> BegunWith(fs).None? && !Complete(fs)
  }

  /** Live and backup files are as they were; a missing config.xml may have been created. */
  ghost predicate Untouched(was: Files, fs: Files) {
    forall p: Path | p.Live? || p.Bak? ::
      Unchanged(fs, p, was) || (p == Live(Config, Main) && p !in was)
  }

  lemma UnappliedBoot(was: Files, fs: Files, b: Boot)
    requires Unapplied(fs) && Untouched(was, fs)
    ensures Unapplied(AfterBoot(fs, b)) && Untouched(was, AfterBoot(fs, b)) && !Apply(Load(fs, b.fallback), b.now).applied
  {
    var f := Load(fs, b.fallback);
    assert Unapplied(f) && Untouched(was, f);
    var i := AfterBootIs(fs, b);
    if i > 0 {
      UnconfirmedIsDiscarded(f, b.now);
      assert AfterBoot(fs, b) == Discarded(f);
    }
  }

  /** Over any starts and crashes a restore that was not confirmed, or whose staging never completed, is
      never applied, and no live or backup file changes. */
  lemma {:induction false} UnconfirmedIsNeverApplied(was: Files, bs: seq<Boot>)
    requires Unapplied(was)
    ensures var fs := AfterBoots(was, bs); Unapplied(fs) && Untouched(was, fs)
    ensures bs != [] ==>
              var b := bs[|bs| - 1];
              !Apply(Load(AfterBoots(was, bs[..|bs| - 1]), b.fallback), b.now).applied
    decreases |bs|
  {
    if bs != [] {
      UnconfirmedIsNeverApplied(was, bs[..|bs| - 1]);
      UnappliedBoot(was, AfterBoots(was, bs[..|bs| - 1]), bs[|bs| - 1]);
    }
  }
}
