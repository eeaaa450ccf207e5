/** Replacing nil lists and maps by empty ones before a value is encoded: which types need it, decided
    by a search of the graph of types, and what it does to a value. */
module NonNil {
  import opened Wrappers

  type Id = nat

  datatype Member = Member(visible: bool, t: Id)   // visible: exported and not tagged "-"

  datatype Kind =
    | Slice(elem: Id) | MapOf(elem: Id) | Interface | Pointer(elem: Id) | Array(elem: Id)
    | Struct(members: seq<Member>) | Byte | Other

  /** `custom`: the type encodes itself. */
  datatype Def = Def(custom: bool, kind: Kind)

  /** Types may be recursive: the graph has cycles. */
  type Graph = map<Id, Def>

  function At(g: Graph, t: Id): Def {
    if t in g then g[t] else Def(false, Other)
  }

  // ----- Which types can hold a nil list or map -----

  /** Within `n` steps, none of them into a type that encodes itself, there is a list that is no byte
      list, a map or an interface. */
  ghost predicate Reaches(g: Graph, t: Id, n: nat)
    decreases n
  {
    && n > 0 && !At(g, t).custom
    && match At(g, t).kind
       case Slice(e) => !At(g, e).kind.Byte?
       case MapOf(_) => true
       case Interface => true
       case Pointer(e) => Reaches(g, e, n - 1)
       case Array(e) => Reaches(g, e, n - 1)
       case Struct(ms) => exists m <- ms :: m.visible && Reaches(g, m.t, n - 1)
       case _ => false
  }

  ghost predicate Needs(g: Graph, t: Id) {
    exists n: nat :: Reaches(g, t, n)
  }

  lemma {:induction false} ReachesMore(g: Graph, t: Id, m: nat, n: nat)
    requires m <= n && Reaches(g, t, m)
    ensures Reaches(g, t, n)
    decreases m
  {
    match At(g, t).kind
    case Pointer(e) => ReachesMore(g, e, m - 1, n - 1);
    case Array(e) => ReachesMore(g, e, m - 1, n - 1);
    case Struct(ms) =>
      var f :| f in ms && f.visible && Reaches(g, f.t, m - 1);
      ReachesMore(g, f.t, m - 1, n - 1);
    case _ =>
  }

  /** Answers found before; every one of them right. */
  ghost predicate CacheOk(g: Graph, cache: map<Id, bool>) {
    forall t <- cache :: cache[t] <==> Needs(g, t)
  }

  /** The search. A type already being visited counts as "no" for the branch that re-enters it. */
  function Search(g: Graph, cache: map<Id, bool>, t: Id, visiting: set<Id>): bool
    decreases |g.Keys - visiting|, 1, 0
  {
    if t in cache then cache[t]
    else if t in visiting || t !in g || g[t].custom then false
    else
      Smaller(g.Keys, visiting, t);
      match g[t].kind
      case Slice(e) => !At(g, e).kind.Byte?
      case MapOf(_) => true
      case Interface => true
      case Pointer(e) => Search(g, cache, e, visiting + {t})
      case Array(e) => Search(g, cache, e, visiting + {t})
      case Struct(ms) => SearchMembers(g, cache, ms, visiting + {t})
      case _ => false
  }

  /** The members of a struct in order, until one says yes. */
  function SearchMembers(g: Graph, cache: map<Id, bool>, ms: seq<Member>, visiting: set<Id>): bool
    decreases |g.Keys - visiting|, 2, |ms|
  {
    ms != []
    && ((ms[0].visible && Search(g, cache, ms[0].t, visiting)) || SearchMembers(g, cache, ms[1..], visiting))
  }

  lemma Smaller(all: set<Id>, visiting: set<Id>, t: Id)
    requires t in all && t !in visiting
    ensures |all - (visiting + {t})| < |all - visiting|
  {
    assert all - (visiting + {t}) == (all - visiting) - {t};
  }

  lemma {:induction false} MembersExist(g: Graph, cache: map<Id, bool>, ms: seq<Member>, visiting: set<Id>)
    ensures SearchMembers(g, cache, ms, visiting) <==> exists m <- ms :: m.visible && Search(g, cache, m.t, visiting)
    decreases |ms|
  {
    if ms != [] {
      MembersExist(g, cache, ms[1..], visiting);
      assert ms == [ms[0]] + ms[1..];
    }
  }

  /** A yes is never wrong. */
  lemma {:induction false} SearchIsSound(g: Graph, cache: map<Id, bool>, t: Id, visiting: set<Id>)
    requires CacheOk(g, cache) && Search(g, cache, t, visiting)
    ensures Needs(g, t)
    decreases |g.Keys - visiting|, 0
  {
    if t !in cache {
      Smaller(g.Keys, visiting, t);
      match g[t].kind
      case Pointer(e) => Follow(g, cache, t, e, visiting + {t});
      case Array(e) => Follow(g, cache, t, e, visiting + {t});
      case Struct(ms) =>
        MembersExist(g, cache, ms, visiting + {t});
        var m :| m in ms && m.visible && Search(g, cache, m.t, visiting + {t});
        Follow(g, cache, t, m.t, visiting + {t});
      case Slice(_) => assert Reaches(g, t, 1);
      case MapOf(_) => assert Reaches(g, t, 1);
      case Interface => assert Reaches(g, t, 1);
      case _ =>
    }
  }

  lemma {:induction false} Follow(g: Graph, cache: map<Id, bool>, t: Id, child: Id, visiting: set<Id>)
    requires CacheOk(g, cache) && Search(g, cache, child, visiting)
    requires t in g && !g[t].custom
    requires match g[t].kind
             case Pointer(e) => child == e
             case Array(e) => child == e
             case Struct(ms) => exists m <- ms :: m.visible && m.t == child
             case _ => false
    ensures Needs(g, t)
    decreases |g.Keys - visiting|, 1
  {
    SearchIsSound(g, cache, child, visiting);
    var n: nat :| Reaches(g, child, n);
    assert Reaches(g, t, n + 1);
  }

  /** What is reached by a shortest way is found: that way re-enters nothing. */
  lemma {:induction false} SearchIsComplete(g: Graph, cache: map<Id, bool>, t: Id, visiting: set<Id>, n: nat)
    requires CacheOk(g, cache) && Reaches(g, t, n) && forall v <- visiting :: !Reaches(g, v, n)
    ensures Search(g, cache, t, visiting)
    decreases n
  {
    if t in cache {
      assert Needs(g, t);
    } else if Reaches(g, t, n - 1) {
      forall v | v in visiting ensures !Reaches(g, v, n - 1) {
        if Reaches(g, v, n - 1) {
          ReachesMore(g, v, n - 1, n);
        }
      }
      SearchIsComplete(g, cache, t, visiting, n - 1);
    } else {
      forall v | v in visiting + {t} ensures !Reaches(g, v, n - 1) {
        if v in visiting && Reaches(g, v, n - 1) {
          ReachesMore(g, v, n - 1, n);
        }
      }
      Smaller(g.Keys, visiting, t);
      match g[t].kind
      case Pointer(e) => SearchIsComplete(g, cache, e, visiting + {t}, n - 1);
      case Array(e) => SearchIsComplete(g, cache, e, visiting + {t}, n - 1);
      case Struct(ms) =>
        var m :| m in ms && m.visible && Reaches(g, m.t, n - 1);
        SearchIsComplete(g, cache, m.t, visiting + {t}, n - 1);
        MembersExist(g, cache, ms, visiting + {t});
      case _ =>
    }
  }

  /** The search over a cyclic graph decides reachability, whatever right answers it finds cached. */
  lemma SearchDecides(g: Graph, cache: map<Id, bool>, t: Id)
    requires CacheOk(g, cache)
    ensures Search(g, cache, t, {}) <==> Needs(g, t)
  {
    if Search(g, cache, t, {}) {
      SearchIsSound(g, cache, t, {});
    }
    if Needs(g, t) {
      var n: nat :| Reaches(g, t, n);
      SearchIsComplete(g, cache, t, {}, n);
    }
  }

  /** The search as the program runs it: the set of types being visited is changed in place and restored,
      and what a search from the top finds is cached. */
  class Fixer {
    const g: Graph
    var cache: map<Id, bool>
    var visiting: set<Id>

    constructor (g: Graph)
      ensures this.g == g && cache == map[] && visiting == {}
    {
      this.g, cache, visiting := g, map[], {};
    }

    method ComputeNeedsFix(t: Id) returns (needs: bool)
      modifies this`visiting
      ensures needs == Search(g, cache, t, old(visiting)) && visiting == old(visiting)
      decreases |g.Keys - visiting|, 1
    {
      if t in cache {
        return cache[t];
      }
      if t in visiting || t !in g {
        return false;
      }
      Smaller(g.Keys, visiting, t);
      ghost var before := visiting;
      visiting := visiting + {t};
      needs := false;
      if !g[t].custom {
        match g[t].kind {
          case Slice(e) => needs := At(g, e).kind != Byte;
          case MapOf(_) => needs := true;
          case Interface => needs := true;
          case Pointer(e) => needs := ComputeNeedsFix(e);
          case Array(e) => needs := ComputeNeedsFix(e);
          case Struct(ms) => needs := AnyMember(ms);
          case _ =>
        }
      }
      visiting := visiting - {t};
      assert visiting == before;
    }

    method AnyMember(ms: seq<Member>) returns (needs: bool)
      modifies this`visiting
      ensures needs == SearchMembers(g, cache, ms, old(visiting)) && visiting == old(visiting)
      decreases |g.Keys - visiting|, 2
    {
      for i := 0 to |ms|
        invariant visiting == old(visiting)
        invariant SearchMembers(g, cache, ms, visiting) == SearchMembers(g, cache, ms[i..], visiting)
      {
        assert ms[i..][1..] == ms[i + 1..];
        if ms[i].visible {
          var found := ComputeNeedsFix(ms[i].t);
          if found {
            return true;
          }
        }
      }
      needs := false;
    }

    method NeedsFix(t: Id) returns (needs: bool)
      requires CacheOk(g, cache) && visiting == {}
      modifies this
      ensures CacheOk(g, cache) && visiting == {}
      ensures needs <==> Needs(g, t)
      ensures t in cache && forall u <- old(cache) :: u in cache && cache[u] == old(cache)[u]
    {
      SearchDecides(g, cache, t);
      if t in cache {
        return cache[t];
      }
      needs := ComputeNeedsFix(t);
      cache := cache[t := needs];
    }
  }

  // ----- Fixing a value -----

  type Key = nat

  /** A value with the type it has; an interface holds a value of any type. */
  datatype Val =
    | List(t: Id, isNil: bool, items: seq<Val>)
    | Dict(t: Id, isNil: bool, entries: map<Key, Val>)
    | Ref(t: Id, target: Option<Val>)
    | Any(t: Id, held: Option<Val>)
    | Fixed(t: Id, items: seq<Val>)
    | Record(t: Id, members: seq<Val>)
    | Leaf(t: Id, data: nat)

  ghost predicate Typed(g: Graph, v: Val)
    decreases v
  {
    match v
    case List(t, isNil, items) =>
      At(g, t).kind.Slice? && (isNil ==> items == [])
      && forall i | 0 <= i < |items| :: items[i].t == At(g, t).kind.elem && Typed(g, items[i])
    case Dict(t, isNil, entries) =>
      At(g, t).kind.MapOf? && (isNil ==> entries == map[])
      && forall k | k in entries :: entries[k].t == At(g, t).kind.elem && Typed(g, entries[k])
    case Ref(t, target) =>
      At(g, t).kind.Pointer? && (target.Some? ==> target.value.t == At(g, t).kind.elem && Typed(g, target.value))
    case Any(t, held) => At(g, t).kind.Interface? && (held.Some? ==> Typed(g, held.value))
    case Fixed(t, items) =>
      At(g, t).kind.Array?
      && forall i | 0 <= i < |items| :: items[i].t == At(g, t).kind.elem && Typed(g, items[i])
    case Record(t, members) =>
      At(g, t).kind.Struct? && |members| == |At(g, t).kind.members|
      && forall i | 0 <= i < |members| :: members[i].t == At(g, t).kind.members[i].t && Typed(g, members[i])
    case Leaf(t, _) => At(g, t).kind.Byte? || At(g, t).kind.Other?
  }

  const MAX_DEPTH := 64

  function NeedsFixing(g: Graph, t: Id): bool {
    Search(g, map[], t, {})
  }

  function Fix(g: Graph, v: Val, depth: nat): (w: Val)
    requires Typed(g, v)
    ensures w.t == v.t
    decreases v
  {
    if depth > MAX_DEPTH || !NeedsFixing(g, v.t) then v
    else
      match v
      case List(t, isNil, items) =>
        if isNil then List(t, false, [])
        else List(t, false, seq(|items|, i requires 0 <= i < |items| => Fix(g, items[i], depth + 1)))
      case Dict(t, isNil, entries) =>
        if isNil then Dict(t, false, map[])
        else Dict(t, false, map k | k in entries :: Fix(g, entries[k], depth + 1))
      case Ref(t, target) => if target.None? then v else Ref(t, Some(Fix(g, target.value, depth + 1)))
      case Any(t, held) => if held.None? then v else Any(t, Some(Fix(g, held.value, depth + 1)))
      case Fixed(t, items) =>
        Fixed(t, seq(|items|, i requires 0 <= i < |items| => Fix(g, items[i], depth + 1)))
      case Record(t, members) =>
        Record(t, seq(|members|, i requires 0 <= i < |members| =>
          if At(g, t).kind.members[i].visible then Fix(g, members[i], depth + 1) else members[i]))
      case Leaf(_, _) => v
  }

  /** No list or map that the encoder looks at is nil, down to the depth bound. */
  ghost predicate NoNil(g: Graph, v: Val, depth: nat)
    decreases v
  {
    depth > MAX_DEPTH || At(g, v.t).custom
    || match v
       case List(t, isNil, items) =>
         (At(g, t).kind.Slice? && At(g, At(g, t).kind.elem).kind.Byte?)
         || (!isNil && forall i | 0 <= i < |items| :: NoNil(g, items[i], depth + 1))
       case Dict(t, isNil, entries) => !isNil && forall k | k in entries :: NoNil(g, entries[k], depth + 1)
       case Ref(_, target) => target.Some? ==> NoNil(g, target.value, depth + 1)
       case Any(_, held) => held.Some? ==> NoNil(g, held.value, depth + 1)
       case Fixed(_, items) => forall i | 0 <= i < |items| :: NoNil(g, items[i], depth + 1)
       case Record(t, members) =>
         At(g, t).kind.Struct?
         && forall i | 0 <= i < |members| && i < |At(g, t).kind.members| ::
              At(g, t).kind.members[i].visible ==> NoNil(g, members[i], depth + 1)
       case Leaf(_, _) => true
  }

  /** `w` is `v` with nil lists and maps filled in, where the encoder looks; the rest is the same. */
  ghost predicate Filled(g: Graph, v: Val, w: Val)
    decreases v
  {
    v == w
    || (!At(g, v.t).custom && w.t == v.t
        && match v
           case List(t, isNil, items) =>
             w.List? && !w.isNil && !(At(g, t).kind.Slice? && At(g, At(g, t).kind.elem).kind.Byte?)
             && |w.items| == |items| && forall i | 0 <= i < |items| :: Filled(g, items[i], w.items[i])
           case Dict(_, isNil, entries) =>
             w.Dict? && !w.isNil && w.entries.Keys == entries.Keys
             && forall k | k in entries :: Filled(g, entries[k], w.entries[k])
           case Ref(_, target) => w.Ref? && target.Some? && w.target.Some? && Filled(g, target.value, w.target.value)
           case Any(_, held) => w.Any? && held.Some? && w.held.Some? && Filled(g, held.value, w.held.value)
           case Fixed(_, items) =>
             w.Fixed? && |w.items| == |items| && forall i | 0 <= i < |items| :: Filled(g, items[i], w.items[i])
           case Record(t, members) =>
             w.Record? && |w.members| == |members| && At(g, t).kind.Struct?
             && forall i | 0 <= i < |members| ::
                  if i < |At(g, t).kind.members| && At(g, t).kind.members[i].visible
                  then Filled(g, members[i], w.members[i]) else w.members[i] == members[i]
           case Leaf(_, _) => false)
  }

  lemma NeedsFixingDecides(g: Graph, t: Id)
    ensures NeedsFixing(g, t) <==> Needs(g, t)
  {
    SearchDecides(g, map[], t);
  }

  /** A value whose type cannot reach a list or map has none the encoder looks at. */
  lemma {:induction false} NothingToFix(g: Graph, v: Val, depth: nat)
    requires Typed(g, v) && !Needs(g, v.t)
    ensures NoNil(g, v, depth)
    decreases v
  {
    if !At(g, v.t).custom && depth <= MAX_DEPTH {
      match v
      case List(t, _, _) => assert Reaches(g, t, 1) || At(g, At(g, t).kind.elem).kind.Byte?;
      case Dict(t, _, _) => assert Reaches(g, t, 1);
      case Ref(t, target) =>
        if target.Some? {
          NotNeeded(g, t, target.value.t);
          NothingToFix(g, target.value, depth + 1);
        }
      case Any(t, _) => assert Reaches(g, t, 1);
      case Fixed(t, items) =>
        forall i | 0 <= i < |items| ensures NoNil(g, items[i], depth + 1) {
          NotNeeded(g, t, items[i].t);
          NothingToFix(g, items[i], depth + 1);
        }
      case Record(t, members) =>
        forall i | 0 <= i < |members| && At(g, t).kind.members[i].visible ensures NoNil(g, members[i], depth + 1) {
          assert At(g, t).kind.members[i] in At(g, t).kind.members;
          NotNeeded(g, t, members[i].t);
          NothingToFix(g, members[i], depth + 1);
        }
      case Leaf(_, _) =>
    }
  }

  lemma NotNeeded(g: Graph, t: Id, child: Id)
    requires !Needs(g, t) && !At(g, t).custom
    requires match At(g, t).kind
             case Pointer(e) => child == e
             case Array(e) => child == e
             case Struct(ms) => exists m <- ms :: m.visible && m.t == child
             case _ => false
    ensures !Needs(g, child)
  {
    if n: nat :| Reaches(g, child, n) {
      assert Reaches(g, t, n + 1);
    }
  }

  lemma CustomIsLeftAlone(g: Graph, t: Id)
    requires At(g, t).custom
    ensures !NeedsFixing(g, t)
  {
  }

  lemma ByteListIsLeftAlone(g: Graph, t: Id)
    requires At(g, t).kind.Slice? && At(g, At(g, t).kind.elem).kind.Byte?
    ensures !NeedsFixing(g, t)
  {
  }

  /** The fixed value has no nil list or map left, down to the depth bound. */
  lemma {:induction false} FixLeavesNoNil(g: Graph, v: Val, depth: nat)
    requires Typed(g, v)
    ensures NoNil(g, Fix(g, v, depth), depth)
    decreases v
  {
    NeedsFixingDecides(g, v.t);
    if depth <= MAX_DEPTH {
      if !NeedsFixing(g, v.t) {
        NothingToFix(g, v, depth);
      } else {
        match v
        case List(_, _, items) =>
          forall i | 0 <= i < |items| ensures NoNil(g, Fix(g, items[i], depth + 1), depth + 1) {
            FixLeavesNoNil(g, items[i], depth + 1);
          }
        case Dict(_, _, entries) =>
          forall k | k in entries ensures NoNil(g, Fix(g, entries[k], depth + 1), depth + 1) {
            FixLeavesNoNil(g, entries[k], depth + 1);
          }
        case Ref(_, target) => if target.Some? { FixLeavesNoNil(g, target.value, depth + 1); }
        case Any(_, held) => if held.Some? { FixLeavesNoNil(g, held.value, depth + 1); }
        case Fixed(_, items) =>
          forall i | 0 <= i < |items| ensures NoNil(g, Fix(g, items[i], depth + 1), depth + 1) {
            FixLeavesNoNil(g, items[i], depth + 1);
          }
        case Record(_, members) =>
          forall i | 0 <= i < |members| ensures NoNil(g, Fix(g, members[i], depth + 1), depth + 1) {
            FixLeavesNoNil(g, members[i], depth + 1);
          }
        case Leaf(_, _) =>
      }
    }
  }

  /** Everything inside is only filled. */
  ghost predicate PartsFilled(g: Graph, v: Val, depth: nat)
    requires Typed(g, v)
  {
    match v
    case List(_, _, items) => forall i | 0 <= i < |items| :: Filled(g, items[i], Fix(g, items[i], depth + 1))
    case Dict(_, _, entries) => forall k | k in entries :: Filled(g, entries[k], Fix(g, entries[k], depth + 1))
    case Ref(_, target) => target.Some? ==> Filled(g, target.value, Fix(g, target.value, depth + 1))
    case Any(_, held) => held.Some? ==> Filled(g, held.value, Fix(g, held.value, depth + 1))
    case Fixed(_, items) => forall i | 0 <= i < |items| :: Filled(g, items[i], Fix(g, items[i], depth + 1))
    case Record(_, members) => forall i | 0 <= i < |members| :: Filled(g, members[i], Fix(g, members[i], depth + 1))
    case Leaf(_, _) => true
  }

  lemma FilledFromParts(g: Graph, v: Val, depth: nat)
    requires Typed(g, v) && PartsFilled(g, v, depth)
    ensures Filled(g, v, Fix(g, v, depth))
  {
    if depth <= MAX_DEPTH && NeedsFixing(g, v.t) {
      if At(g, v.t).custom {
        CustomIsLeftAlone(g, v.t);
      }
      if v.List? && At(g, At(g, v.t).kind.elem).kind.Byte? {
        ByteListIsLeftAlone(g, v.t);
      }
    }
  }

  /** And it changes nothing else: types that encode themselves, byte lists, hidden members and nil
      pointers are as they were. */
  lemma {:induction false} FixOnlyFills(g: Graph, v: Val, depth: nat)
    requires Typed(g, v)
    ensures Filled(g, v, Fix(g, v, depth))
    decreases v
  {
    hide Filled, Fix;
    match v {
      case List(_, _, items) =>
        forall i | 0 <= i < |items| ensures Filled(g, items[i], Fix(g, items[i], depth + 1)) {
          FixOnlyFills(g, items[i], depth + 1);
        }
      case Dict(_, _, entries) =>
        forall k | k in entries ensures Filled(g, entries[k], Fix(g, entries[k], depth + 1)) {
          FixOnlyFills(g, entries[k], depth + 1);
        }
      case Ref(_, target) => if target.Some? { FixOnlyFills(g, target.value, depth + 1); }
      case Any(_, held) => if held.Some? { FixOnlyFills(g, held.value, depth + 1); }
      case Fixed(_, items) =>
        forall i | 0 <= i < |items| ensures Filled(g, items[i], Fix(g, items[i], depth + 1)) {
          FixOnlyFills(g, items[i], depth + 1);
        }
      case Record(_, members) =>
        forall i | 0 <= i < |members| ensures Filled(g, members[i], Fix(g, members[i], depth + 1)) {
          FixOnlyFills(g, members[i], depth + 1);
        }
      case Leaf(_, _) =>
    }
    FilledFromParts(g, v, depth);
  }

  /** A value with nothing to fill in comes back equal. */
  lemma {:induction false} FixKeepsGood(g: Graph, v: Val, depth: nat)
    requires Typed(g, v) && NoNil(g, v, depth)
    ensures Fix(g, v, depth) == v
    decreases v
  {
    if depth <= MAX_DEPTH && NeedsFixing(g, v.t) {
      if At(g, v.t).custom {
        CustomIsLeftAlone(g, v.t);
      }
      match v
      case List(t, _, items) =>
        if At(g, At(g, t).kind.elem).kind.Byte? {
          ByteListIsLeftAlone(g, t);
        }
        forall i | 0 <= i < |items| ensures Fix(g, items[i], depth + 1) == items[i] {
          FixKeepsGood(g, items[i], depth + 1);
        }
        assert Fix(g, v, depth).items == items;
      case Dict(_, _, entries) =>
        forall k | k in entries ensures Fix(g, entries[k], depth + 1) == entries[k] {
          FixKeepsGood(g, entries[k], depth + 1);
        }
        assert Fix(g, v, depth).entries == entries;
      case Ref(_, target) => if target.Some? { FixKeepsGood(g, target.value, depth + 1); }
      case Any(_, held) => if held.Some? { FixKeepsGood(g, held.value, depth + 1); }
      case Fixed(_, items) =>
        forall i | 0 <= i < |items| ensures Fix(g, items[i], depth + 1) == items[i] {
          FixKeepsGood(g, items[i], depth + 1);
        }
        assert Fix(g, v, depth).items == items;
      case Record(t, members) =>
        forall i | 0 <= i < |members| && At(g, t).kind.members[i].visible ensures Fix(g, members[i], depth + 1) == members[i] {
          FixKeepsGood(g, members[i], depth + 1);
        }
        assert Fix(g, v, depth).members == members;
      case Leaf(_, _) =>
    }
  }
}
