/** What each transaction answers, and what it leaves in the tables, told by what was in them before. */
module ActionAnswers {
  import opened Wrappers
  import opened ActionStore

  predicate Finishing(s: ActionStatus) {
    s.Succeeded? || s.DryRun? || s.Skipped? || s.Failed?
  }

  // ----- Creating and updating a removal -----

  /** A row is created unless it is to be queued for a version that is not marked for removal. */
  lemma CreateAnswers(db: Db, a: Action)
    ensures
      var (t, r) := Create(db, a);
      && (r.Done? || r.NotRemovable?)
      && (r.NotRemovable? <==> IsQueued(a.status) && !Removable(db.groups, a.groupId, a.fileId, a.versionKey))
      && (if r.Done? then t == db.(actions := db.actions[db.nextAction := a], nextAction := db.nextAction + 1) else t == db)
  {
  }

  /** Is the row written whatever its target is by now? A removal may always end, and one that runs may
      report; one that is queued may be cancelled. */
  predicate WrittenAnyway(was: ActionStatus, to: ActionStatus) {
    Finishing(to) || (was.Running? && to.Running?) || (to.Cancelled? && (IsQueued(was) || was.Cancelled?))
  }

  /** Is it written if its target is marked for removal? It may start once, and wait again unless it is
      done or cancelled. */
  predicate WrittenIfMarked(was: ActionStatus, to: ActionStatus) {
    (was.Pending? && to.Running?) || (to.Pending? && !was.Cancelled? && !was.Succeeded?)
  }

  /** What an update answers. An accepted one writes just the row; one that finds its target no longer
      marked cancels a queued row and nothing else; every other refusal leaves the tables as they were. */
  lemma UpdateAnswers(db: Db, id: nat, a: Action, now: int)
    ensures
      var (t, r) := Update(db, id, a, now);
      var marked := Removable(db.groups, a.groupId, a.fileId, a.versionKey);
      && (r.NotFound? <==> id !in db.actions)
      && !r.Refused?
      && (id in db.actions ==>
            var was := db.actions[id];
            && (r.Done? <==> WrittenAnyway(was.status, a.status) || (WrittenIfMarked(was.status, a.status) && marked))
            && (r.CancelledInstead? <==> WrittenIfMarked(was.status, a.status) && !marked && IsQueued(was.status))
            && (r.NotRemovable? <==> WrittenIfMarked(was.status, a.status) && !marked && !IsQueued(was.status))
            && (r.Done? ==> t.actions == db.actions[id := a])
            && (r.CancelledInstead? ==>
                  t.actions == db.actions[id := was.(status := Cancelled, finishedAt := Some(now), message := STALE)])
            && (r.Done? && !a.status.Cancelled? ==> t.groups == db.groups))
      && (r.NotFound? || r.NotPending? || r.NotRemovable? ==> t == db)
      && (t.ids, t.nextAction, t.nextGroup, t.nextFile) == (db.ids, db.nextAction, db.nextGroup, db.nextFile)
  {
    hide Removable, Reopen;
    if id in db.actions {
      assert CancelRows(db.actions, {id}, STALE, now)
          == db.actions[id := db.actions[id].(status := Cancelled, finishedAt := Some(now), message := STALE)];
      hide CancelRows;
    }
  }

  /** Of the groups an update touches at most the one whose removal it ends, to reopen it. */
  lemma UpdateReopens(db: Db, id: nat, a: Action, now: int, g: nat)
    requires g in db.groups
    ensures
      var (t, r) := Update(db, id, a, now);
      && SettledAs(t, g, db.groups[g])
      && (t.groups[g] != db.groups[g] ==>
            if r.Done? then a.status.Cancelled? && !db.actions[id].status.Cancelled? && g == a.groupId
            else r.CancelledInstead? && g == db.actions[id].groupId)
  {
    CancelSettles(db, {id}, STALE, now, g);
    if id in db.actions {
      GroupsHit(db.actions, {id}, db.actions[id].groupId);
    }
    hide Cancel, Removable, Active, GroupsOf;
  }

  predicate Reports(e: Event, id: nat) {
    e.UpdateAction? && e.id == id
  }

  /** The updates of one row: progress while it runs, and at most one end. */
  ghost predicate Executes(es: seq<Event>, id: nat) {
    && (forall i | 0 <= i < |es| && Reports(es[i], id) :: es[i].a.status.Running? || Finishing(es[i].a.status))
    && (forall i, j | 0 <= i < j < |es| && Reports(es[i], id) && Reports(es[j], id) :: es[i].a.status.Running?)
  }

  /** What was reported last. */
  function LastReport(a: Action, es: seq<Event>, id: nat): Action
    decreases |es|
  {
    if es == [] then a
    else
      var e := es[|es| - 1];
      if e.UpdateAction? && e.id == id then e.a else LastReport(a, es[..|es| - 1], id)
  }

  lemma NoReport(a: Action, es: seq<Event>, id: nat)
    requires forall e <- es :: !Reports(e, id)
    ensures LastReport(a, es, id) == a
    decreases |es|
  {
    if es != [] {
      assert es[|es| - 1] in es;
      NoReport(a, es[..|es| - 1], id);
    }
  }

  lemma {:induction false} LastReportAfter(a: Action, es: seq<Event>, id: nat)
    requires es != []
    ensures LastReport(a, es, id) == LastReport(if Reports(es[0], id) then es[0].a else a, es[1..], id)
    decreases |es|
  {
    if |es| > 1 {
      assert es[1..][..|es| - 2] == es[..|es| - 1][1..];
      LastReportAfter(a, es[..|es| - 1], id);
    }
  }

  /** A row that is over is touched by nothing but an update of its own. */
  lemma FinishedIsLeftAlone(db: Db, e: Event, id: nat)
    requires id in db.actions && !db.actions[id].status.Pending? && id < db.nextAction && !Reports(e, id)
    ensures
      var t := Next(db, e);
      id in t.actions && t.actions[id] == db.actions[id] && id < t.nextAction
  {
    NextIdGrows(db, e);
    if e.UpdateAction? {
      UpdateAnswers(db, e.id, e.a, e.now);
    } else if !e.CreateAction? {
      RowsOnlyCancelled(db, e, id);
    }
    hide Update, Cancel, Upsert, SetOverride, ResolveUnseen, DeleteGroup, AfterStatusChange;
  }

  lemma NextIdGrows(db: Db, e: Event)
    ensures db.nextAction <= Next(db, e).nextAction
  {
  }

  /** An execution is not interrupted: while its reports say that it runs, and at last how it ended, the
      row of a running removal is what was reported last, whatever is re-scanned, overridden, ignored,
      deleted or cancelled meanwhile. */
  lemma {:induction false} ExecutionIsNotInterrupted(db: Db, es: seq<Event>, id: nat)
    requires id in db.actions && id < db.nextAction
    requires db.actions[id].status.Running? || (!db.actions[id].status.Pending? && forall e <- es :: !Reports(e, id))
    requires Executes(es, id)
    ensures id in Run(db, es).actions && Run(db, es).actions[id] == LastReport(db.actions[id], es, id)
    decreases |es|
  {
    if es != [] {
      var e, t := es[0], Next(db, es[0]);
      LastReportAfter(db.actions[id], es, id);
      if Reports(e, id) {
        UpdateAnswers(db, id, e.a, e.now);
        forall f | f in es[1..] && !e.a.status.Running? ensures !Reports(f, id) {
          var j :| 0 <= j < |es| - 1 && es[1..][j] == f;
          assert es[j + 1] == f;
        }
      } else {
        FinishedIsLeftAlone(db, e, id);
        assert forall f <- es[1..] :: f in es;
      }
      hide Next, Finishing;
      ExecutesOn(es, id);
      ExecutionIsNotInterrupted(t, es[1..], id);
    }
  }

  lemma ExecutesOn(es: seq<Event>, id: nat)
    requires es != [] && Executes(es, id)
    ensures Executes(es[1..], id)
  {
    var rest := es[1..];
    assert forall i | 0 <= i < |rest| :: rest[i] == es[i + 1];
  }

  // ----- What is cancelled -----

  /** A group with one of these statuses has nothing waiting to be removed. */
  const BLOCKING := {Ignored, Resolved, Review, Deferred, Protected}

  /** The groups whose pending removals a step cancels altogether. */
  ghost predicate EmptiesGroup(db: Db, e: Event, g: nat) {
    match e
    case CancelGroup(id, _, _) => g == id
    case Cover(covered, _, _) => g in covered
    case SetStatus(id, status, _, _, _) => g == id && g in db.groups && status in BLOCKING
    case SetStatusIf(id, from, status, _, _, _) =>
      g == id && g in db.groups && db.groups[g].status in from && status in BLOCKING
    case Unseen(unseen, _, _, _) => g in unseen && g in db.groups && db.groups[g].status !in {Ignored, Resolved}
    case Delete(id, _, _) => g == id && g in db.groups
    case Scan(key, _, _, incoming, _, _) =>
      && !Blank(key) && WellFormed(incoming) && key in db.ids && g == db.ids[key]
      && g in Next(db, e).groups && Next(db, e).groups[g].status in BLOCKING
    case _ => false
  }

  /** The groups whose pending removals a step looks through for those that lost their target. */
  ghost predicate Reviews(db: Db, e: Event, g: nat) {
    match e
    case Override(id, _, choice, _) => g == id && choice.Keep?
    case Scan(key, _, _, _, _, _) => key in db.ids && g == db.ids[key]
    case _ => false
  }

  /** A row is cancelled if and only if it is hit. */
  ghost predicate Hit(db: Db, t: Db, id: nat, hit: bool)
    requires id in db.actions
  {
    id in t.actions && (if hit then t.actions[id].status.Cancelled? else t.actions[id] == db.actions[id])
  }

  lemma CancelHits(db: Db, hits: set<nat>, message: string, now: int, id: nat)
    requires id in db.actions
    ensures Hit(db, Cancel(db, hits, message, now), id, id in hits)
  {
  }

  lemma StatusHits(db: Db, e: Event, id: nat)
    requires id in db.actions && (e.SetStatus? || e.SetStatusIf?)
    ensures Hit(db, Next(db, e), id, db.actions[id].status.Pending? && EmptiesGroup(db, e, db.actions[id].groupId))
  {
    if e.id in db.groups {
      var t := db.(groups := db.groups[e.id := db.groups[e.id].(status := e.status, reason := e.reason)]);
      CancelHits(t, PendingIn(t.actions, {e.id}), e.message, e.now, id);
      hide Cancel, BlocksRemovals;
    }
  }

  lemma UnseenHits(db: Db, e: Event, id: nat)
    requires id in db.actions && e.Unseen?
    ensures Hit(db, Next(db, e), id, db.actions[id].status.Pending? && EmptiesGroup(db, e, db.actions[id].groupId))
  {
    var ids := set g | g in e.unseen && g in db.groups && !Closed(db.groups[g].status);
    var groups := map g | g in db.groups ::
      if g in ids then db.groups[g].(status := Resolved, reason := e.reason) else db.groups[g];
    CancelHits(db.(groups := groups), PendingIn(db.actions, ids), e.message, e.now, id);
    hide Cancel, Closed;
  }

  lemma DeleteHits(db: Db, e: Event, id: nat)
    requires id in db.actions && e.Delete?
    ensures Hit(db, Next(db, e), id, db.actions[id].status.Pending? && EmptiesGroup(db, e, db.actions[id].groupId))
  {
    if e.id in db.groups {
      var t := db.(groups := db.groups - {e.id}, ids := db.ids - {db.groups[e.id].key});
      CancelHits(t, PendingIn(t.actions, {e.id}), e.message, e.now, id);
      hide Cancel;
    }
  }

  lemma OverrideHits(db: Db, e: Event, id: nat)
    requires Inv(db) && id in db.actions && e.Override?
    ensures
      var a := db.actions[id];
      Hit(db, Next(db, e), id,
          a.status.Pending? && Reviews(db, e, a.groupId) && !Targets(Next(db, e).groups[a.groupId], a))
  {
    var a := db.actions[id];
    assert a.status.Pending? ==> TargetMarked(db.groups, a);
    hide Inv, Targets, ChooseFile;
    if SetOverride(db, e.id, e.fileId, e.choice, e.now).1.Done? && e.choice.Keep? {
      var g := db.groups[e.id];
      var t := db.(groups := db.groups[e.id := g.(files := ChooseFile(g.files, e.fileId, e.choice))]);
      CancelHits(t, StaleIn(t, e.id), STALE, e.now, id);
      CancelKeepsRows(t, StaleIn(t, e.id), STALE, e.now);
      hide Cancel;
      SameFilesSameTargets(t.groups[e.id], Next(db, e).groups[e.id], a);
    }
  }

  lemma SameFilesSameTargets(g: Group, h: Group, a: Action)
    requires g.files == h.files
    ensures Targets(g, a) <==> Targets(h, a)
  {
  }

  lemma BlockingIs(status: GroupStatus)
    ensures BlocksRemovals(status) <==> status in BLOCKING
  {
  }

  lemma SettleHits(db: Db, g: nat, message: string, now: int, id: nat)
    requires g in db.groups && id in db.actions
    ensures
      var a, t := db.actions[id], Settle(db, g, message, now);
      && g in t.groups
      && Hit(db, t, id, a.status.Pending? && a.groupId == g && (t.groups[g].status in BLOCKING || !Targets(t.groups[g], a)))
  {
    var a, first := db.actions[id], PendingIn(db.actions, {g});
    BlockingIs(db.groups[g].status);
    NeverBlocks();
    hide Cancel, Targets, BlocksRemovals, BLOCKING;
    var u := AfterStatusChange(db, g, db.groups[g].status, message, now);
    CancelHits(db, first, message, now, id);
    CancelKeepsRows(db, first, message, now);
    CancelHits(u, StaleIn(u, g), STALE, now, id);
    CancelKeepsRows(u, StaleIn(u, g), STALE, now);
    var t := Settle(db, g, message, now);
    SameFilesSameTargets(u.groups[g], db.groups[g], a);
    SameFilesSameTargets(t.groups[g], db.groups[g], a);
  }

  lemma NeverBlocks()
    ensures Queued !in BLOCKING && ToDecide !in BLOCKING
  {
  }

  lemma ScanHits(db: Db, e: Event, id: nat)
    requires Inv(db) && id in db.actions && e.Scan?
    ensures
      var a := db.actions[id];
      Hit(db, Next(db, e), id,
          a.status.Pending?
          && (EmptiesGroup(db, e, a.groupId)
              || (Reviews(db, e, a.groupId) && !Targets(Next(db, e).groups[a.groupId], a))))
  {
    var a := db.actions[id];
    assert a.status.Pending? ==> TargetMarked(db.groups, a);
    if !Blank(e.key) && WellFormed(e.incoming) && e.key in db.ids {
      hide Inv, Targets, Settle, Written, Rows, BlocksRemovals, Blank, WellFormed;
      var g := db.ids[e.key];
      var written := Written(Stored(db, e.key), Wanted(e.wanted), e.reason, e.incoming, db.nextFile);
      var t := db.(nextFile := Rows(Stored(db, e.key), e.incoming, db.nextFile).1, groups := db.groups[g := written]);
      assert Next(db, e) == Settle(t, g, e.message, e.now);
      SettleHits(t, g, e.message, e.now, id);
    } else {
      hide Targets, Inv, Settle, Written, Rows, Blank, WellFormed;
    }
  }

  /** Just the rows that must be cancelled are: of the pending removals, those of a group that is emptied,
      those that a step leaves without a version marked for removal, and the one that was asked for. */
  lemma CancelledExactly(db: Db, e: Event, id: nat)
    requires Inv(db) && id in db.actions && !e.CreateAction? && !e.UpdateAction?
    ensures
      var t := Next(db, e);
      var a := db.actions[id];
      && id in t.actions
      && (t.actions[id] == a || (a.status.Pending? && t.actions[id].status.Cancelled?))
      && (t.actions[id] != a <==>
            && a.status.Pending?
            && (|| EmptiesGroup(db, e, a.groupId)
                || (Reviews(db, e, a.groupId) && !Targets(t.groups[a.groupId], a))
                || (e.CancelOne? && e.id == id)))
  {
    match e {
      case SetStatus(_, _, _, _, _) => StatusHits(db, e, id);
      case SetStatusIf(_, _, _, _, _, _) => StatusHits(db, e, id);
      case Scan(_, _, _, _, _, _) => ScanHits(db, e, id);
      case Override(_, _, _, _) => OverrideHits(db, e, id);
      case Unseen(_, _, _, _) => UnseenHits(db, e, id);
      case Delete(_, _, _) => DeleteHits(db, e, id);
      case CancelOne(u, now) => CancelHits(db, {u}, BY_USER, now, id);
      case CancelGroup(g, message, now) => CancelHits(db, PendingIn(db.actions, {g}), message, now, id);
      case Cover(covered, message, now) => CancelHits(db, PendingIn(db.actions, covered), message, now, id);
    }
    hide Inv, Cancel, Upsert, SetOverride, ResolveUnseen, DeleteGroup, UpdateStatus, UpdateStatusIf, Targets;
  }

  // ----- What becomes of the groups -----

  /** A group after its removals were cancelled: as it was, or reopened because nothing is left to run. */
  ghost predicate SettledAs(t: Db, g: nat, expected: Group) {
    && g in t.groups
    && (t.groups[g] == expected
        || (expected.status.Queued? && !Active(t.actions, g) && t.groups[g] == expected.(status := ToDecide, reason := REOPENED)))
  }

  lemma CancelSettles(db: Db, hits: set<nat>, message: string, now: int, g: nat)
    requires g in db.groups
    ensures SettledAs(Cancel(db, hits, message, now), g, db.groups[g])
    ensures g !in GroupsOf(db.actions, hits) ==> Cancel(db, hits, message, now).groups[g] == db.groups[g]
  {
    hide Active;
  }

  lemma GroupsHit(actions: map<nat, Action>, hits: set<nat>, g: nat)
    requires forall a <- hits | a in actions :: actions[a].groupId == g
    ensures GroupsOf(actions, hits) <= {g}
  {
  }

  lemma StatusSets(db: Db, id: nat, status: GroupStatus, reason: string, message: string, now: int, g: nat)
    requires g in db.groups
    ensures
      var (t, r) := UpdateStatus(db, id, status, reason, message, now);
      && (r == if id in db.groups then Done else NotFound)
      && g in t.groups
      && t.groups[g] == if g == id then db.groups[g].(status := status, reason := reason) else db.groups[g]
  {
    if id in db.groups {
      var t := db.(groups := db.groups[id := db.groups[id].(status := status, reason := reason)]);
      CancelSettles(t, PendingIn(t.actions, {id}), message, now, g);
      GroupsHit(t.actions, PendingIn(t.actions, {id}), id);
      hide Cancel, SettledAs, PendingIn;
      CancelSettlesOpen(t, PendingIn(t.actions, {id}), message, now, g, status);
    }
  }

  /** Only a queued group is reopened. */
  lemma CancelSettlesOpen(db: Db, hits: set<nat>, message: string, now: int, g: nat, status: GroupStatus)
    requires g in db.groups && SettledAs(Cancel(db, hits, message, now), g, db.groups[g])
    ensures !db.groups[g].status.Queued? ==> Cancel(db, hits, message, now).groups[g] == db.groups[g]
  {
    hide Cancel;
  }

  lemma StatusSetsIf(db: Db, id: nat, from: set<GroupStatus>, status: GroupStatus, reason: string, message: string, now: int,
                     g: nat)
    requires g in db.groups
    ensures
      var (t, r) := UpdateStatusIf(db, id, from, status, reason, message, now);
      && (r.Done? <==> id in db.groups && db.groups[id].status in from)
      && (!r.Done? ==> t == db)
      && g in t.groups
      && t.groups[g] == if r.Done? && g == id then db.groups[g].(status := status, reason := reason) else db.groups[g]
  {
    StatusSets(db, id, status, reason, message, now, g);
    hide UpdateStatus;
    if id in db.groups && db.groups[id].status in from {
      assert UpdateStatus(db, id, status, reason, message, now).1.Done?;
    }
  }

  /** An override stores the choice for the version that was named; "keep" also decides to keep it. */
  lemma OverrideSets(db: Db, id: nat, fileId: nat, choice: Decision, now: int, k: string)
    ensures
      var (t, r) := SetOverride(db, id, fileId, choice, now);
      && (r == if id in db.groups && exists k <- db.groups[id].files :: db.groups[id].files[k].id == fileId then Done else NotFound)
      && (!r.Done? ==> t == db)
      && t.groups.Keys == db.groups.Keys
      && (r.Done? ==>
            && t.groups[id].files.Keys == db.groups[id].files.Keys
            && (k in db.groups[id].files ==>
                  var f := db.groups[id].files[k];
                  t.groups[id].files[k]
                  == if f.id != fileId then f
                     else if choice.Keep? then f.(choice := Keep, decision := Keep) else f.(choice := choice)))
  {
    if id in db.groups {
      var g := db.groups[id];
      var t := db.(groups := db.groups[id := g.(files := ChooseFile(g.files, fileId, choice))]);
      CancelKeepsRows(t, StaleIn(t, id), STALE, now);
      hide Cancel, StaleIn;
    }
  }

  lemma UnseenSets(db: Db, unseen: set<nat>, reason: string, message: string, now: int, g: nat)
    requires g in db.groups
    ensures
      var t := ResolveUnseen(db, unseen, reason, message, now);
      && g in t.groups
      && t.groups[g] == if g in unseen && db.groups[g].status !in {Ignored, Resolved}
                        then db.groups[g].(status := Resolved, reason := reason) else db.groups[g]
  {
    var ids := set g | g in unseen && g in db.groups && !Closed(db.groups[g].status);
    var groups := map g | g in db.groups ::
      if g in ids then db.groups[g].(status := Resolved, reason := reason) else db.groups[g];
    var u, hits := db.(groups := groups), PendingIn(db.actions, ids);
    CancelSettles(u, hits, message, now, g);
    CancelSettlesOpen(u, hits, message, now, g, Resolved);
    assert GroupsOf(u.actions, hits) <= ids;
    hide Cancel, SettledAs, PendingIn;
  }

  /** The expected status of a group that is scanned: an ignored one stays so, and one that would be open
      without a version to keep goes to review. */
  function ScannedStatus(was: Group, wanted: GroupStatus, rows: map<string, File>): GroupStatus {
    if was.status.Ignored? then Ignored
    else if wanted !in {Ignored, Resolved} && rows != map[] && (forall k <- rows :: !rows[k].decision.Keep?) then Review
    else wanted
  }

  /** How a scan writes one version. */
  predicate ScannedRow(was: Group, f: Incoming, row: File, nextFile: nat) {
    var k := f.versionKey;
    && row.guarded == f.guarded
    && (if k in was.files then row.id == was.files[k].id else row.id >= nextFile)
    && row.choice == (if k in was.files then was.files[k].choice
                      else if k in was.retained && !was.retained[k].Unset? then was.retained[k]
                      else f.choice)
    && row.decision == (if row.guarded || row.choice.Keep? || (row.choice.Unset? && f.engine.Keep?) then Keep else f.decision)
  }

  /** The ids of rows: a known version keeps its own, new ones get different ones. */
  predicate IdsKept(g: Group, rows: map<string, File>, nextFile: nat, next: nat) {
    && next >= nextFile
    && (forall k <- rows :: if k in g.files then rows[k].id == g.files[k].id else nextFile <= rows[k].id < next)
    && (forall k, l | k in rows && l in rows && k != l && k !in g.files && l !in g.files :: rows[k].id != rows[l].id)
  }

  lemma OneMoreRow(g: Group, rows: map<string, File>, nextFile: nat, next: nat, k: string, row: File, after: nat)
    requires IdsKept(g, rows, nextFile, next) && k !in rows
    requires if k in g.files then row.id == g.files[k].id && after == next else row.id == next && after == next + 1
    ensures IdsKept(g, rows[k := row], nextFile, after)
  {
  }

  lemma {:induction false} RowsIds(g: Group, incoming: seq<Incoming>, nextFile: nat)
    requires WellFormed(incoming)
    ensures
      var (rows, next) := Rows(g, incoming, nextFile);
      rows.Keys == Keys(incoming) && IdsKept(g, rows, nextFile, next)
    decreases |incoming|
  {
    RowsKeys(g, incoming, nextFile);
    if incoming != [] {
      var n := |incoming| - 1;
      RowsIds(g, incoming[..n], nextFile);
      var (rows, next) := Rows(g, incoming[..n], nextFile);
      var (all, after) := Rows(g, incoming, nextFile);
      var k := incoming[n].versionKey;
      assert k !in rows;
      hide WellFormed, DecisionFor, ChoiceFor, IdsKept;
      OneMoreRow(g, rows, nextFile, next, k, all[k], after);
    }
  }

  lemma RowsScanned(g: Group, incoming: seq<Incoming>, nextFile: nat, f: Incoming)
    requires WellFormed(incoming) && f in incoming
    ensures var rows := Rows(g, incoming, nextFile).0; f.versionKey in rows && ScannedRow(g, f, rows[f.versionKey], nextFile)
  {
    var i :| 0 <= i < |incoming| && incoming[i] == f;
    RowsFind(g, incoming, nextFile, i);
    RowsIds(g, incoming, nextFile);
    hide WellFormed, Rows, Keys;
  }

  lemma SettleSettles(db: Db, g: nat, message: string, now: int)
    requires g in db.groups
    ensures SettledAs(Settle(db, g, message, now), g, db.groups[g])
  {
    var first := PendingIn(db.actions, {g});
    var u := AfterStatusChange(db, g, db.groups[g].status, message, now);
    CancelSettles(db, first, message, now, g);
    CancelSettlesOpen(db, first, message, now, g, db.groups[g].status);
    CancelKeepsRows(db, first, message, now);
    CancelSettles(u, StaleIn(u, g), STALE, now, g);
    hide Cancel, StaleIn, PendingIn, SettledAs;
  }

  lemma SettleTouchesOne(db: Db, g: nat, message: string, now: int, h: nat)
    requires g in db.groups && h in db.groups && h != g
    ensures h in Settle(db, g, message, now).groups && Settle(db, g, message, now).groups[h] == db.groups[h]
  {
    var first := PendingIn(db.actions, {g});
    var u := AfterStatusChange(db, g, db.groups[g].status, message, now);
    CancelSettles(db, first, message, now, h);
    GroupsHit(db.actions, first, g);
    CancelKeepsRows(db, first, message, now);
    CancelSettles(u, StaleIn(u, g), STALE, now, h);
    GroupsHit(u.actions, StaleIn(u, g), g);
    hide Cancel, Targets, GroupsOf;
  }

  /** What a scan leaves of the group it writes: just the versions it found, each with its choice and its
      protection, decided as the user, the protection or the engine have it; a known version keeps its id,
      a new one gets one of its own. The group's status is the one asked for, but for an ignored group, and
      for an open one without a version to keep. */
  ghost predicate Scanned(was: Group, g: Group, status: GroupStatus, incoming: seq<Incoming>, nextFile: nat) {
    && g.key == was.key && g.files.Keys == Keys(incoming)
    && (forall f <- incoming :: f.versionKey in g.files && ScannedRow(was, f, g.files[f.versionKey], nextFile))
    && (forall k, l | k in g.files && l in g.files && k != l && k !in was.files && l !in was.files ::
          g.files[k].id != g.files[l].id)
    && g.status == ScannedStatus(was, status, g.files)
  }

  lemma WrittenIsScanned(was: Group, status: GroupStatus, reason: string, incoming: seq<Incoming>, nextFile: nat)
    requires WellFormed(incoming)
    ensures Scanned(was, Written(was, status, reason, incoming, nextFile), status, incoming, nextFile)
  {
    var rows := Rows(was, incoming, nextFile).0;
    RowsIds(was, incoming, nextFile);
    forall f | f in incoming ensures f.versionKey in rows && ScannedRow(was, f, rows[f.versionKey], nextFile) {
      RowsScanned(was, incoming, nextFile, f);
    }
    NoKeeperRows(was, incoming, nextFile);
    hide WellFormed, Rows, Keys, ScannedRow, NoKeeper, Retained;
  }

  lemma NoKeeperRows(was: Group, incoming: seq<Incoming>, nextFile: nat)
    requires WellFormed(incoming)
    ensures
      var rows := Rows(was, incoming, nextFile).0;
      NoKeeper(was, incoming) <==> rows != map[] && forall k <- rows :: !rows[k].decision.Keep?
  {
    var rows := Rows(was, incoming, nextFile).0;
    RowsKeys(was, incoming, nextFile);
    forall i | 0 <= i < |incoming|
      ensures
        incoming[i].versionKey in rows && rows[incoming[i].versionKey].decision == DecisionFor(was, incoming[i])
    {
      RowsFind(was, incoming, nextFile, i);
    }
    hide WellFormed, Rows, DecisionFor;
    if incoming != [] {
      assert incoming[0].versionKey in rows;
    } else {
      assert rows.Keys == {};
    }
  }

  /** A scan is accepted exactly when its key and every version have a name that is not blank, and no two
      versions have the same; else nothing changes. */
  lemma ScanAccepts(db: Db, key: string, status: Option<GroupStatus>, reason: string, incoming: seq<Incoming>,
                    message: string, now: int)
    ensures
      var (t, r) := Upsert(db, key, status, reason, incoming, message, now);
      && (r.Done? <==>
            && (exists c <- key :: c !in " \t\n\r")
            && (forall f <- incoming :: exists c <- f.versionKey :: c !in " \t\n\r")
            && (forall i, j | 0 <= i < |incoming| && 0 <= j < |incoming| ::
                  incoming[i].versionKey == incoming[j].versionKey ==> i == j))
      && (!r.Done? ==> r.Refused? && t == db)
  {
    BlankMeans(key);
    forall f | f in incoming ensures Blank(f.versionKey) <==> !exists c <- f.versionKey :: c !in " \t\n\r" {
      BlankMeans(f.versionKey);
    }
    hide Blank, WriteGroup;
  }

  lemma BlankMeans(s: string)
    ensures Blank(s) <==> !exists c <- s :: c !in " \t\n\r"
  {
  }

  /** A scan with a key and proper versions is accepted, and writes the group of that key so; no other group
      is touched, and the group is reopened only if nothing of it is left to run. */
  lemma ScanStores(db: Db, key: string, status: Option<GroupStatus>, reason: string, incoming: seq<Incoming>,
                   message: string, now: int)
    requires Inv(db) && !Blank(key) && WellFormed(incoming)
    ensures
      var (t, r) := Upsert(db, key, status, reason, incoming, message, now);
      var id := if key in db.ids then db.ids[key] else db.nextGroup;
      var was := if key in db.ids then db.groups[id] else Group(key, ToDecide, "", map[], map[]);
      && r.Done? && t.ids == db.ids[key := id]
      && (forall h <- db.groups | h != id :: h in t.groups && t.groups[h] == db.groups[h])
      && exists g :: Scanned(was, g, Wanted(status), incoming, db.nextFile) && SettledAs(t, id, g)
  {
    hide Written, Rows, Scanned, Settle, Wrote, WellFormed, Blank, SettledAs;
    WrittenIsScanned(Stored(db, key), Wanted(status), reason, incoming, db.nextFile);
    ScanWrites(db, key, Wanted(status), reason, incoming, message, now);
    SavedSettles(db, key, Written(Stored(db, key), Wanted(status), reason, incoming, db.nextFile),
                 Rows(Stored(db, key), incoming, db.nextFile).1, message, now);
  }

  lemma SavedSettles(db: Db, key: string, written: Group, nextFile: nat, message: string, now: int)
    requires key in db.ids ==> db.ids[key] in db.groups
    ensures
      var t, id := Saved(db.(nextFile := nextFile), key, written, message, now), IdFor(db, key);
      && SettledAs(t, id, written)
      && forall h <- db.groups | h != id :: h in t.groups && t.groups[h] == db.groups[h]
  {
    var id := IdFor(db, key);
    var t := db.(nextFile := nextFile, groups := db.groups[id := written]);
    if key in db.ids {
      SettleSettles(t, id, message, now);
      forall h | h in db.groups && h != id ensures h in t.groups && Settle(t, id, message, now).groups[h] == db.groups[h] {
        SettleTouchesOne(t, id, message, now, h);
      }
      hide Settle, SettledAs;
    }
  }
}
