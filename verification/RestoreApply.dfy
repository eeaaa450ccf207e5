/** The apply as the program runs it, step by step on the data directory. `history` records every
    state the directory passes through, so a crash leaves it in one of them. */
module RestoreApply {
  import opened Wrappers
  import opened Restore
  import opened RestorePrune

  class DataDir {
    var files: Files
    ghost var history: seq<Files>

    constructor (files: Files)
      ensures this.files == files && history == []
    {
      this.files := files;
      history := [];
    }

    /** What a piece of the apply did is exactly what `o` says, state by state. */
    twostate predicate Did(o: Outcome)
      reads this
    {
      files == End(old(files), o.trace) && history == old(history) + o.trace
    }

    method Rename(src: Path, dst: Path)
      requires src in files
      modifies this
      ensures files == Moved(old(files), src, dst) && history == old(history) + [files]
    {
      files := files[dst := files[src]] - {src};
      history := history + [files];
    }

    method Unlink(p: Path)
      modifies this
      ensures Did(Remove(old(files), p))
    {
      if p in files {
        files := files - {p};
        history := history + [files];
      }
    }

    method RemoveStageDir()
      modifies this
      ensures files == Discarded(old(files)) && history == old(history) + [files]
    {
      files := files - {StageDir, Staged(Db), Staged(Config), Unconfirmed, Applying};
      history := history + [files];
    }

    method WriteMarker(stamp: nat)
      modifies this
      ensures files == old(files)[Applying := Stamp(stamp)] && history == old(history) + [files]
    {
      files := files[Applying := Stamp(stamp)];
      history := history + [files];
    }

    method MoveIfExists(src: Path, dst: Path) returns (ok: bool)
      modifies this
      ensures var o := Restore.MoveIfExists(old(files), src, dst); ok == o.ok && Did(o)
    {
      if src !in files {
        return true;
      }
      if dst in files {
        return false;
      }
      Rename(src, dst);
      return true;
    }

    /** The first of p, p-1, p-2, ... that does not exist. */
    method FreeName(base: Base, stamp: nat) returns (n: Option<nat>)
      ensures n == Restore.FreeName(files, base, stamp, 0)
    {
      for i := 0 to MAX_NAMES
        invariant Restore.FreeName(files, base, stamp, 0) == Restore.FreeName(files, base, stamp, i)
      {
        if Bak(base, stamp, i, Main) !in files {
          return Some(i);
        }
      }
      return None;
    }

    method SideFiles(stamp: nat, n: nat) returns (ok: bool)
      modifies this
      ensures var o := Restore.SideFiles(old(files), stamp, n); ok == o.ok && Did(o)
    {
      ghost var f := files;
      ok := MoveIfExists(Live(Db, Journal), Bak(Db, stamp, n, Journal));
      if !ok {
        return;
      }
      ghost var g := files;
      ok := MoveIfExists(Live(Db, Wal), Bak(Db, stamp, n, Wal));
      if !ok {
        EndOf(f, Restore.MoveIfExists(f, Live(Db, Journal), Bak(Db, stamp, n, Journal)).trace,
              Restore.MoveIfExists(g, Live(Db, Wal), Bak(Db, stamp, n, Wal)).trace);
        return;
      }
      ghost var h := files;
      Unlink(Live(Db, Shm));
      EndOf(g, Restore.MoveIfExists(g, Live(Db, Wal), Bak(Db, stamp, n, Wal)).trace, Remove(h, Live(Db, Shm)).trace);
      EndOf(f, Restore.MoveIfExists(f, Live(Db, Journal), Bak(Db, stamp, n, Journal)).trace,
            Restore.MoveIfExists(g, Live(Db, Wal), Bak(Db, stamp, n, Wal)).trace + Remove(h, Live(Db, Shm)).trace);
    }

    /** Moves the live file aside and the staged file into place. */
    method SwapIn(base: Base, stamp: nat) returns (ok: bool)
      modifies this
      ensures var o := Restore.SwapIn(old(files), base, stamp); ok == o.ok && Did(o)
    {
      hide Restore.SideFiles, Restore.SwapMain, Restore.FreeName;
      if Staged(base) !in files {
        return true;
      }
      var name := FreeName(base, stamp);
      if name == None {
        return false;
      }
      var n := name.value;
      ghost var f := files;
      if base == Db {
        ok := SideFiles(stamp, n);
        if !ok {
          return;
        }
      }
      ghost var sides := if base.Db? then Restore.SideFiles(f, stamp, n) else Outcome(true, []);
      ok := SwapMain(base, stamp, n);
      EndOf(f, sides.trace, Restore.SwapMain(End(f, sides.trace), base, stamp, n).trace);
    }

    method SwapMain(base: Base, stamp: nat, n: nat) returns (ok: bool)
      modifies this
      ensures var o := Restore.SwapMain(old(files), base, stamp, n); ok == o.ok && Did(o)
    {
      ghost var f := files;
      ok := MoveIfExists(Live(base, Main), Bak(base, stamp, n, Main));
      if !ok {
        return;
      }
      if Staged(base) !in files {
        return false;
      }
      ghost var g := files;
      Rename(Staged(base), Live(base, Main));
      EndOf(f, Restore.MoveIfExists(f, Live(base, Main), Bak(base, stamp, n, Main)).trace, Promote(g, base).trace);
    }

    /** applyPendingRestore: resumes a swap that has begun, discards a staged restore that is not
        complete or not confirmed, and swaps both files in. */
    method ApplyPendingRestore(now: nat) returns (ok: bool, applied: bool)
      modifies this
      ensures var a := Apply(old(files), now);
              ok == a.ok && applied == a.applied && Did(Outcome(a.ok, a.trace))
    {
      if StageDir !in files {
        return true, false;
      }
      var begun := BegunWith(files);
      var stamp := now;
      if begun != None {
        stamp := begun.value;
        ok := Swap(stamp);
        return ok, ok;
      }
      if Unconfirmed in files || Staged(Config) !in files || Staged(Db) !in files {
        RemoveStageDir();
        return true, false;
      }
      ok := BeginSwap(stamp);
      return ok, ok;
    }

    method BeginSwap(stamp: nat) returns (ok: bool)
      modifies this
      ensures var o := Restore.BeginSwap(old(files), stamp); ok == o.ok && Did(o)
    {
      hide Restore.Swap;
      WriteMarker(stamp);
      ok := Swap(stamp);
      BeginIs(old(files), stamp);
    }

    method Swap(stamp: nat) returns (ok: bool)
      modifies this
      ensures var o := Restore.Swap(old(files), stamp); ok == o.ok && Did(o)
    {
      ghost var f := files;
      hide Restore.SwapIn, Restore.FinishSwap;
      ghost var a, b := Restore.SwapIn(f, Db, stamp), Outcome(true, []);
      ok := SwapIn(Db, stamp);
      if ok {
        b := Restore.FinishSwap(files, stamp);
        ok := FinishSwap(stamp);
      }
      EndOf(f, a.trace, b.trace);
    }

    method FinishSwap(stamp: nat) returns (ok: bool)
      modifies this
      ensures var o := Restore.FinishSwap(old(files), stamp); ok == o.ok && Did(o)
    {
      ghost var f := files;
      ok := SwapIn(Config, stamp);
      if !ok {
        return;
      }
      ghost var g := files;
      CleanUp();
      EndOf(f, Restore.SwapIn(f, Config, stamp).trace, Restore.CleanUp(g).trace);
    }

    method CleanUp()
      modifies this
      ensures Did(Restore.CleanUp(old(files)))
    {
      ghost var f := files;
      Unlink(Applying);
      ghost var g := files;
      RemoveStageDir();
      EndOf(f, Remove(f, Applying).trace, [Discarded(g)]);
    }

    /** Removes files one after another. */
    method UnlinkAll(paths: set<Path>)
      requires paths <= files.Keys
      modifies this
      ensures files == old(files) - paths && old(history) <= history
      ensures forall k | |old(history)| <= k < |history| :: files.Items <= history[k].Items <= old(files).Items
    {
      ghost var before := files;
      var left := paths;
      while left != {}
        invariant left <= paths && files == before - (paths - left)
        invariant old(history) <= history
        invariant forall k | |old(history)| <= k < |history| ::
                    (before - paths).Items <= history[k].Items <= before.Items
        decreases |left|
      {
        var p :| p in left;
        Unlink(p);
        left := left - {p};
        assert files == before - (paths - left);
      }
      assert paths - left == paths;
    }

    static lemma NoPaths(fs: Files)
      ensures fs - PathsOf(fs, SetOf([])) == fs
    {
    }

    static lemma PathsMore(fs: Files, stamps: seq<nat>, keep: nat, i: nat)
      requires keep <= i < |stamps|
      ensures
        var some := PathsOf(fs, SetOf(stamps[keep..i]));
        && fs - PathsOf(fs, SetOf(stamps[keep..i + 1])) == (fs - some) - PathsOf(fs - some, {stamps[i]})
        && PathsOf(fs - some, {stamps[i]}) <= (fs - some).Keys
    {
      assert stamps[keep..i + 1] == stamps[keep..i] + [stamps[i]];
      assert SetOf(stamps[keep..i + 1]) == SetOf(stamps[keep..i]) + {stamps[i]};
    }

    /** pruneRestoreBackups: a generation after another, in their order. */
    method PruneRestoreBackups(keep: nat, current: nat)
      modifies this
      ensures files == Pruned(old(files), keep, current) && old(history) <= history
      ensures forall k | |old(history)| <= k < |history| ::
                Pruned(old(files), keep, current).Items <= history[k].Items <= old(files).Items
    {
      ghost var before := files;
      var stamps := GenerationOrder(Generations(files), current);
      DroppedIsTail(files, stamps, keep, current);
      NoPaths(files);
      for i := 0 to |stamps|
        invariant files == before - PathsOf(before, SetOf(stamps[if keep <= i then keep else i..i]))
        invariant old(history) <= history
        invariant forall k | |old(history)| <= k < |history| :: files.Items <= history[k].Items <= before.Items
      {
        assert i < keep ==> stamps[i..i] == [] && stamps[i + 1..i + 1] == [];
        if i >= keep {
          PathsMore(before, stamps, keep, i);
          hide PathsOf, SetOf;
          UnlinkAll(PathsOf(files, {stamps[i]}));
        }
      }
      if keep <= |stamps| {
        assert stamps[keep..|stamps|] == stamps[keep..];
      }
    }
  }
}
