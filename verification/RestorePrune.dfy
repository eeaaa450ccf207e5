/** Which backups of replaced files are kept after a restore: the newest generations, and always the one
    just made. */
module RestorePrune {
  import opened Wrappers
  import opened Restore

  /** A file that an apply keeps: a generation is all such files with one stamp. */
  predicate OfGeneration(p: Path, stamp: nat) {
    p.Bak? && p.stamp == stamp && !p.part.Shm?
  }

  function Generations(fs: Files): set<nat> {
    set p | p in fs && p.Bak? && !p.part.Shm? :: p.stamp
  }

  /** How many generations come before this one: the current one, then newer ones. */
  function Rank(gens: set<nat>, current: nat, stamp: nat): nat {
    if stamp == current then 0
    else |Newer(gens - {current}, stamp)| + if current in gens then 1 else 0
  }

  function Newer(gens: set<nat>, stamp: nat): set<nat> {
    set g | g in gens && g > stamp
  }

  function Dropped(fs: Files, keep: nat, current: nat): set<Path> {
    set p | p in fs && p.Bak? && !p.part.Shm? && Rank(Generations(fs), current, p.stamp) >= keep
  }

  function Pruned(fs: Files, keep: nat, current: nat): Files {
    fs - Dropped(fs, keep, current)
  }

  // ----- The order of the generations -----

  predicate Descending(s: seq<nat>) {
    forall i, j | 0 <= i < j < |s| :: s[i] > s[j]
  }

  /** The current generation first, the others newest first. */
  predicate Ordered(s: seq<nat>, current: nat) {
    if s != [] && s[0] == current then Descending(s[1..]) && current !in s[1..]
    else Descending(s) && current !in s
  }

  function SetOf(s: seq<nat>): set<nat> {
    set x | x in s
  }

  lemma {:induction false} DistinctSize(s: seq<nat>)
    requires forall i, j | 0 <= i < j < |s| :: s[i] != s[j]
    ensures |SetOf(s)| == |s|
  {
    if s != [] {
      var n := |s| - 1;
      DistinctSize(s[..n]);
      assert SetOf(s) == SetOf(s[..n]) + {s[n]};
    }
  }

  /** In a descending list what is greater than an element is what comes before it. */
  lemma GreaterIsBefore(s: seq<nat>, i: nat)
    requires Descending(s) && i < |s|
    ensures |Newer(SetOf(s), s[i])| == i
  {
    var newer := Newer(SetOf(s), s[i]);
    forall g ensures g in newer <==> g in SetOf(s[..i]) {
      if g in newer {
        var k :| 0 <= k < |s| && s[k] == g;
        assert k < i && s[..i][k] == g;
      }
      if g in s[..i] {
        var k :| 0 <= k < i && s[..i][k] == g;
        assert s[k] == g;
      }
    }
    assert newer == SetOf(s[..i]);
    DistinctSize(s[..i]);
  }

  /** Where a generation stands in that order is its rank. */
  lemma RankIsPlace(s: seq<nat>, current: nat, i: nat)
    requires Ordered(s, current) && i < |s|
    ensures Rank(SetOf(s), current, s[i]) == i
  {
    if s[0] == current {
      assert s == [current] + s[1..];
      if i > 0 {
        assert s[i] == s[1..][i - 1];
        GreaterIsBefore(s[1..], i - 1);
        assert SetOf(s) - {current} == SetOf(s[1..]);
      }
    } else {
      GreaterIsBefore(s, i);
      assert s[i] in s && SetOf(s) - {current} == SetOf(s);
    }
  }

  function PathsOf(fs: Files, gens: set<nat>): set<Path> {
    set p | p in fs && p.Bak? && !p.part.Shm? && p.stamp in gens
  }

  /** What is dropped is what the order has from place `keep` on. */
  lemma DroppedIsTail(fs: Files, s: seq<nat>, keep: nat, current: nat)
    requires Ordered(s, current) && SetOf(s) == Generations(fs)
    ensures Dropped(fs, keep, current) == if keep <= |s| then PathsOf(fs, SetOf(s[keep..])) else {}
  {
    forall p | p in fs && p.Bak? && !p.part.Shm?
      ensures Rank(Generations(fs), current, p.stamp) >= keep <==> keep <= |s| && p.stamp in s[keep..]
    {
      assert p.stamp in SetOf(s);
      var i :| 0 <= i < |s| && s[i] == p.stamp;
      RankIsPlace(s, current, i);
      if i >= keep {
        assert s[keep..][i - keep] == p.stamp;
      }
      if keep <= |s| && p.stamp in s[keep..] {
        var j :| 0 <= j < |s[keep..]| && s[keep..][j] == p.stamp;
        RankIsPlace(s, current, keep + j);
      }
    }
  }

  predicate IsMax(gens: set<nat>, m: nat) {
    m in gens && forall x <- gens :: x <= m
  }

  lemma {:induction false} HasMax(gens: set<nat>)
    requires gens != {}
    ensures exists m :: IsMax(gens, m)
  {
    var y :| y in gens;
    var rest := gens - {y};
    if rest == {} {
      assert gens == {y};
      assert IsMax(gens, y);
    } else {
      HasMax(rest);
      var m :| IsMax(rest, m);
      MaxOfMore(gens, y, m);
    }
  }

  lemma MaxOfMore(gens: set<nat>, y: nat, m: nat)
    requires y in gens && IsMax(gens - {y}, m)
    ensures IsMax(gens, if y > m then y else m)
  {
    assert forall x <- gens :: x == y || x in gens - {y};
  }

  lemma SnocDescending(s: seq<nat>, m: nat)
    requires Descending(s) && forall x <- SetOf(s) :: x > m
    ensures Descending(s + [m]) && SetOf(s + [m]) == SetOf(s) + {m}
  {
    assert forall i | 0 <= i < |s| :: s[i] in SetOf(s);
  }

  method SortDescending(gens: set<nat>) returns (s: seq<nat>)
    ensures Descending(s) && SetOf(s) == gens
  {
    s := [];
    var left := gens;
    while left != {}
      invariant left <= gens && Descending(s) && SetOf(s) == gens - left
      invariant forall x, y | x in SetOf(s) && y in left :: x > y
      decreases |left|
    {
      HasMax(left);
      var m :| IsMax(left, m);
      SnocDescending(s, m);
      assert gens - (left - {m}) == (gens - left) + {m};
      hide Descending, SetOf;
      s := s + [m];
      left := left - {m};
    }
  }

  /** Newest first, but the current generation before all. */
  method GenerationOrder(gens: set<nat>, current: nat) returns (s: seq<nat>)
    ensures Ordered(s, current) && SetOf(s) == gens
  {
    s := SortDescending(gens);
    for i := 0 to |s|
      invariant current !in s[..i]
    {
      if s[i] == current {
        ghost var all := s;
        var rest := s[..i] + s[i + 1..];
        assert forall j | 0 <= j < |rest| :: rest[j] == if j < i then s[j] else s[j + 1];
        assert s == s[..i] + [s[i]] + s[i + 1..];
        s := [current] + rest;
        assert s[1..] == rest;
        return;
      }
    }
    assert s[..|s|] == s;
  }

  // ----- How many stay -----

  lemma {:induction false} DescendingExists(gens: set<nat>) returns (s: seq<nat>)
    ensures Descending(s) && SetOf(s) == gens
    decreases |gens|
  {
    if gens == {} {
      s := [];
    } else {
      HasMax(gens);
      var m :| IsMax(gens, m);
      var rest := DescendingExists(gens - {m});
      s := [m] + rest;
      ConsDescending(m, rest);
      assert gens == {m} + (gens - {m});
      hide Descending, SetOf;
    }
  }

  lemma ConsDescending(m: nat, s: seq<nat>)
    requires Descending(s) && forall x <- SetOf(s) :: x < m
    ensures Descending([m] + s) && SetOf([m] + s) == {m} + SetOf(s)
  {
    assert forall i | 0 <= i < |s| :: s[i] in SetOf(s);
  }

  lemma OrderExists(gens: set<nat>, current: nat) returns (s: seq<nat>)
    ensures Ordered(s, current) && SetOf(s) == gens && |s| == |gens|
  {
    var rest := DescendingExists(gens - {current});
    assert current !in SetOf(rest);
    DistinctSize(rest);
    if current in gens {
      s := [current] + rest;
      assert s[1..] == rest;
      assert SetOf(s) == {current} + SetOf(rest);
    } else {
      s := rest;
      assert gens - {current} == gens;
    }
  }

  /** The generations of the first `keep` places. */
  lemma RanksBelow(gens: set<nat>, current: nat, keep: nat)
    ensures |set g | g in gens && Rank(gens, current, g) < keep| == if keep < |gens| then keep else |gens|
  {
    var s := OrderExists(gens, current);
    var n := if keep < |s| then keep else |s|;
    var below := set g | g in gens && Rank(gens, current, g) < keep;
    hide Rank, Ordered;
    forall g ensures g in below <==> g in SetOf(s[..n]) {
      if g in gens {
        assert g in SetOf(s);
        var i :| 0 <= i < |s| && s[i] == g;
        RankIsPlace(s, current, i);
        if g in s[..n] {
          var j :| 0 <= j < n && s[..n][j] == g;
          RankIsPlace(s, current, j);
        }
        assert i < n ==> s[..n][i] == g;
      } else {
        assert g !in SetOf(s);
      }
    }
    assert below == SetOf(s[..n]);
    OrderedDistinct(s, current);
    DistinctSize(s[..n]);
  }

  lemma OrderedDistinct(s: seq<nat>, current: nat)
    requires Ordered(s, current)
    ensures forall i, j | 0 <= i < j < |s| :: s[i] != s[j]
  {
    if s != [] && s[0] == current {
      assert s == [current] + s[1..];
    }
  }

  // ----- Main results -----

  /** The generation just made survives, with every other file that is no backup. */
  lemma CurrentGenerationSurvives(fs: Files, keep: nat, current: nat, p: Path)
    requires keep >= 1 && p in fs && (OfGeneration(p, current) || !p.Bak?)
    ensures p in Pruned(fs, keep, current) && Pruned(fs, keep, current)[p] == fs[p]
  {
  }

  /** Pruning never undoes the restore's way back: the old database stays where the restore put it, in
      every state pruning passes through. */
  lemma PruneKeepsOldDatabase(was: Files, fs: Files, s: nat, n: nat, on: Files)
    requires OldDatabaseAt(was, fs, s, n)
    requires Pruned(fs, KEEP_GENERATIONS, s).Items <= on.Items <= fs.Items
    ensures OldDatabaseAt(was, on, s, n)
  {
    forall p | p in fs && (OfGeneration(p, s) || !p.Bak?) ensures p in on && on[p] == fs[p] {
      CurrentGenerationSurvives(fs, KEEP_GENERATIONS, s, p);
      assert (p, fs[p]) in Pruned(fs, KEEP_GENERATIONS, s).Items;
      assert (p, fs[p]) in on.Items;
    }
    forall p | p in on ensures p in fs && on[p] == fs[p] {
      assert (p, on[p]) in on.Items;
    }
    hide Pruned;
  }

  /** `keep` generations stay, or all when there are fewer, and none that is newer than one that stays goes
      (but the current one stays whatever the clock says). */
  lemma NewestGenerationsStay(fs: Files, keep: nat, current: nat)
    requires keep >= 1
    ensures
      var kept := Generations(Pruned(fs, keep, current));
      && kept <= Generations(fs) && |kept| == (if keep < |Generations(fs)| then keep else |Generations(fs)|)
      && (forall g, h | g in Generations(fs) - kept && h in kept && h != current :: g < h)
      && (current in Generations(fs) ==> current in kept)
      && (forall p <- fs :: p.Bak? && !p.part.Shm? && p.stamp in kept ==> p in Pruned(fs, keep, current))
  {
    var gens := Generations(fs);
    var kept := Generations(Pruned(fs, keep, current));
    forall p | p in fs && p.Bak? && !p.part.Shm? ensures p.stamp in kept <==> Rank(gens, current, p.stamp) < keep {
      if Rank(gens, current, p.stamp) < keep {
        assert p in Pruned(fs, keep, current);
      }
    }
    KeptIsRanked(fs, keep, current);
    RanksBelow(gens, current, keep);
    forall g, h | g in gens - kept && h in kept && h != current ensures g < h {
      var p :| p in fs && p.Bak? && !p.part.Shm? && p.stamp == g;
      var q :| q in fs && q.Bak? && !q.part.Shm? && q.stamp == h;
      if h < g && g != current {
        OlderRanksLater(gens, current, h, g);
      }
    }
  }

  lemma KeptIsRanked(fs: Files, keep: nat, current: nat)
    ensures Generations(Pruned(fs, keep, current))
            == set g | g in Generations(fs) && Rank(Generations(fs), current, g) < keep
  {
    var gens := Generations(fs);
    hide Rank;
    forall g | g in gens && Rank(gens, current, g) < keep ensures g in Generations(Pruned(fs, keep, current)) {
      var p :| p in fs && p.Bak? && !p.part.Shm? && p.stamp == g;
      assert p in Pruned(fs, keep, current);
    }
  }

  lemma OlderRanksLater(gens: set<nat>, current: nat, older: nat, newer: nat)
    requires older < newer && older != current && newer != current && newer in gens
    ensures Rank(gens, current, newer) < Rank(gens, current, older)
  {
    var a, b := Newer(gens - {current}, newer), Newer(gens - {current}, older);
    assert a + {newer} <= b;
    SubsetSize(a + {newer}, b);
  }
}
