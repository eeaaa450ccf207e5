/** The tables of removal actions and duplicate groups, one function per transaction.

    A row of `group_files` sits in its group under its version key, which is unique there. */
module ActionStore {
  import opened Wrappers

  datatype ActionStatus = Pending | Running | Succeeded | DryRun | Skipped | Failed | Cancelled

  /** ToDecide is "pending", Broken is "failed". */
  datatype GroupStatus =
    | ToDecide | Review | Deferred | Protected | Queued | Resolved | Ignored | Broken

  datatype Decision = Unset | Keep | Remove

  /** `rest` is every other column; an update replaces it too. */
  datatype Action = Action(
    groupId: nat, fileId: nat, versionKey: string, status: ActionStatus, message: string,
    finishedAt: Option<int>, rest: nat)

  /** `choice` is the user's override, `guarded` a protection. */
  datatype File = File(id: nat, decision: Decision, choice: Decision, guarded: bool)

  datatype Group = Group(
    key: string, status: GroupStatus, reason: string, files: map<string, File>,
    retained: map<string, Decision>)   // choices about versions that left the group

  /** `ids` is the unique index on the groups' keys; ids are never reused. */
  datatype Db = Db(
    actions: map<nat, Action>, groups: map<nat, Group>, ids: map<string, nat>,
    nextAction: nat, nextGroup: nat, nextFile: nat)

  const EMPTY := Db(map[], map[], map[], 1, 1, 1)

  const REOPENED := "Queued removals were cancelled; check the decisions and approve again"
  const STALE := "Cancelled: the version is no longer marked for removal (re-evaluated, overridden to keep, protected or gone)"
  const BY_USER := "Cancelled by user"
  const NO_KEEPER := "Safety: no version of this group is marked keep; check the decisions"

  predicate IsQueued(s: ActionStatus) {
    s.Pending? || s.Running?
  }

  predicate Closed(s: GroupStatus) {
    s.Ignored? || s.Resolved?
  }

  predicate BlocksRemovals(s: GroupStatus) {
    s.Ignored? || s.Resolved? || s.Review? || s.Deferred? || s.Protected?
  }

  /** Is the version an action names marked for removal now? Both names must match when both are set. */
  predicate Removable(groups: map<nat, Group>, groupId: nat, fileId: nat, versionKey: string) {
    && (fileId != 0 || versionKey != "")
    && groupId in groups && !Closed(groups[groupId].status)
    && exists k <- groups[groupId].files ::
         var f := groups[groupId].files[k];
         && f.decision.Remove? && !f.guarded
         && (fileId == 0 || f.id == fileId) && (versionKey == "" || k == versionKey)
  }

  // ----- Cancelling -----

  predicate Active(actions: map<nat, Action>, groupId: nat) {
    exists a <- actions :: actions[a].groupId == groupId && IsQueued(actions[a].status)
  }

  function CancelRows(actions: map<nat, Action>, hits: set<nat>, message: string, now: int): map<nat, Action> {
    map a | a in actions ::
      if a in hits then actions[a].(status := Cancelled, finishedAt := Some(now), message := message) else actions[a]
  }

  /** Queued groups among `touched` with nothing left to run. */
  function Reopen(groups: map<nat, Group>, actions: map<nat, Action>, touched: set<nat>): map<nat, Group> {
    map g | g in groups ::
      if g in touched && groups[g].status.Queued? && !Active(actions, g)
      then groups[g].(status := ToDecide, reason := REOPENED)
      else groups[g]
  }

  function GroupsOf(actions: map<nat, Action>, hits: set<nat>): set<nat> {
    set a | a in hits && a in actions :: actions[a].groupId
  }

  function Cancel(db: Db, hits: set<nat>, message: string, now: int): Db {
    var actions := CancelRows(db.actions, hits, message, now);
    db.(actions := actions, groups := Reopen(db.groups, actions, GroupsOf(db.actions, hits)))
  }

  function PendingIn(actions: map<nat, Action>, groupIds: set<nat>): set<nat> {
    set a | a in actions && actions[a].status.Pending? && actions[a].groupId in groupIds
  }

  /** The rule of cancelStaleActions: the version key names the target, or the file id without one. */
  predicate Targets(group: Group, a: Action) {
    exists k <- group.files ::
      group.files[k].decision.Remove? && (if a.versionKey != "" then k == a.versionKey else group.files[k].id == a.fileId)
  }

  function StaleIn(db: Db, groupId: nat): set<nat>
    requires groupId in db.groups
  {
    set a | a in PendingIn(db.actions, {groupId}) && !Targets(db.groups[groupId], db.actions[a])
  }

  // ----- The action repository -----

  datatype Result = Done | NotFound | NotPending | NotRemovable | CancelledInstead | Refused

  function Create(db: Db, a: Action): (Db, Result) {
    if IsQueued(a.status) && !Removable(db.groups, a.groupId, a.fileId, a.versionKey) then (db, NotRemovable)
    else (db.(actions := db.actions[db.nextAction := a], nextAction := db.nextAction + 1), Done)
  }

  /** May a row move from `current` to `next`? Finishing is always accepted. */
  predicate TransitionOk(current: ActionStatus, next: ActionStatus) {
    match next
    case Running => IsQueued(current)
    case Pending => !current.Cancelled? && !current.Succeeded?
    case Cancelled => IsQueued(current) || current.Cancelled?
    case _ => true
  }

  function Update(db: Db, id: nat, a: Action, now: int): (Db, Result) {
    if id !in db.actions then (db, NotFound)
    else
      var current := db.actions[id].status;
      if !TransitionOk(current, a.status) then (db, NotPending)
      else if (a.status.Pending? || (a.status.Running? && current.Pending?))
              && !Removable(db.groups, a.groupId, a.fileId, a.versionKey)
      then
        if IsQueued(current) then (Cancel(db, {id}, STALE, now), CancelledInstead) else (db, NotRemovable)
      else
        var actions := db.actions[id := a];
        if a.status.Cancelled? && !current.Cancelled?
        then (db.(actions := actions, groups := Reopen(db.groups, actions, {a.groupId})), Done)
        else (db.(actions := actions), Done)
  }

  function CancelForGroup(db: Db, groupId: nat, message: string, now: int): Db {
    Cancel(db, PendingIn(db.actions, {groupId}), message, now)
  }

  /** NotPending is the answer "false". */
  function CancelIfPending(db: Db, id: nat, now: int): (Db, Result) {
    if id !in db.actions then (db, NotFound)
    else if !db.actions[id].status.Pending? then (db, NotPending)
    else (Cancel(db, {id}, BY_USER, now), Done)
  }

  /** What an exclusion, or the removal of a media server or *arr instance, does to the queue. */
  function CancelCovered(db: Db, covered: set<nat>, message: string, now: int): Db {
    Cancel(db, PendingIn(db.actions, covered), message, now)
  }

  // ----- The group repository -----

  function AfterStatusChange(db: Db, id: nat, status: GroupStatus, message: string, now: int): Db {
    if BlocksRemovals(status) then CancelForGroup(db, id, message, now) else db
  }

  function UpdateStatus(db: Db, id: nat, status: GroupStatus, reason: string, message: string, now: int): (Db, Result) {
    if id !in db.groups then (db, NotFound)
    else
      var t := db.(groups := db.groups[id := db.groups[id].(status := status, reason := reason)]);
      (AfterStatusChange(t, id, status, message, now), Done)
  }

  /** NotPending is the answer "false": the group has another status. */
  function UpdateStatusIf(db: Db, id: nat, from: set<GroupStatus>, status: GroupStatus, reason: string,
                          message: string, now: int): (Db, Result) {
    if from == {} then (db, NotPending)
    else if id !in db.groups then (db, NotFound)
    else if db.groups[id].status !in from then (db, NotPending)
    else UpdateStatus(db, id, status, reason, message, now)
  }

  function SetOverride(db: Db, groupId: nat, fileId: nat, choice: Decision, now: int): (Db, Result) {
    if groupId !in db.groups || !(exists k <- db.groups[groupId].files :: db.groups[groupId].files[k].id == fileId)
    then (db, NotFound)
    else
      var g := db.groups[groupId];
      var t := db.(groups := db.groups[groupId := g.(files := ChooseFile(g.files, fileId, choice))]);
      (if choice.Keep? then Cancel(t, StaleIn(t, groupId), STALE, now) else t, Done)
  }

  function ChooseFile(files: map<string, File>, fileId: nat, choice: Decision): map<string, File> {
    map k | k in files :: if files[k].id == fileId then Chosen(files[k], choice) else files[k]
  }

  function Chosen(f: File, choice: Decision): File {
    f.(choice := choice, decision := if choice.Keep? then Keep else f.decision)
  }

  function ResolveUnseen(db: Db, unseen: set<nat>, reason: string, message: string, now: int): Db {
    var ids := set g | g in unseen && g in db.groups && !Closed(db.groups[g].status);
    var groups := map g | g in db.groups ::
      if g in ids then db.groups[g].(status := Resolved, reason := reason) else db.groups[g];
    CancelCovered(db.(groups := groups), ids, message, now)
  }

  function DeleteGroup(db: Db, id: nat, message: string, now: int): (Db, Result) {
    if id !in db.groups then (db, NotFound)
    else (CancelForGroup(db.(groups := db.groups - {id}, ids := db.ids - {db.groups[id].key}), id, message, now), Done)
  }

  // ----- Upsert: what a scan writes -----

  datatype Incoming = Incoming(
    versionKey: string, decision: Decision, engine: Decision, choice: Decision, guarded: bool)

  /** The choice stored for an incoming version: its row's, else the one retained, else the caller's. */
  function ChoiceFor(g: Group, f: Incoming): Decision {
    if f.versionKey in g.files then g.files[f.versionKey].choice
    else if f.versionKey in g.retained && !g.retained[f.versionKey].Unset? then g.retained[f.versionKey]
    else f.choice
  }

  function DecisionFor(g: Group, f: Incoming): Decision {
    var choice := ChoiceFor(g, f);
    var effective := if choice.Unset? then f.engine else choice;
    if effective.Keep? || f.guarded then Keep else f.decision
  }

  function Row(g: Group, f: Incoming, id: nat): File {
    File(id, DecisionFor(g, f), ChoiceFor(g, f), f.guarded)
  }

  /** Rows in order: a version keeps its row's id, a new one gets the next. */
  function Rows(g: Group, incoming: seq<Incoming>, nextFile: nat): (map<string, File>, nat)
    decreases |incoming|
  {
    if incoming == [] then (map[], nextFile)
    else
      var (rows, next) := Rows(g, incoming[..|incoming| - 1], nextFile);
      var f := incoming[|incoming| - 1];
      if f.versionKey in g.files then (rows[f.versionKey := Row(g, f, g.files[f.versionKey].id)], next)
      else (rows[f.versionKey := Row(g, f, next)], next + 1)
  }

  function Keys(incoming: seq<Incoming>): set<string> {
    set i | 0 <= i < |incoming| :: incoming[i].versionKey
  }

  /** The choices about versions among `gone` that do not come back with this scan. */
  function Leaving(files: map<string, File>, incoming: seq<Incoming>, gone: set<string>): map<string, Decision> {
    var keys := Keys(incoming);
    map k | k in gone && k in files && k !in keys && !files[k].choice.Unset? :: files[k].choice
  }

  /** Choices about versions that are gone; those that are back have a row again. */
  function Retained(g: Group, incoming: seq<Incoming>): map<string, Decision> {
    g.retained - Keys(incoming) + Leaving(g.files, incoming, g.files.Keys)
  }

  predicate Blank(s: string) {
    forall i | 0 <= i < |s| :: s[i] in " \t\n\r"
  }

  predicate WellFormed(incoming: seq<Incoming>) {
    && (forall i | 0 <= i < |incoming| :: !Blank(incoming[i].versionKey))
    && (forall i, j | 0 <= i < j < |incoming| :: incoming[i].versionKey != incoming[j].versionKey)
  }

  predicate NoKeeper(g: Group, incoming: seq<Incoming>) {
    |incoming| > 0 && forall i | 0 <= i < |incoming| :: !DecisionFor(g, incoming[i]).Keep?
  }

  /** An ignored group stays ignored; one that would keep no version goes to review. */
  function Written(g: Group, status: GroupStatus, reason: string, incoming: seq<Incoming>, nextFile: nat): Group {
    var (status, reason) :=
      if g.status.Ignored? then (Ignored, g.reason)
      else if !Closed(status) && NoKeeper(g, incoming) then (Review, NO_KEEPER)
      else (status, reason);
    Group(g.key, status, reason, Rows(g, incoming, nextFile).0, Retained(g, incoming))
  }

  /** The group as it is stored; a new one starts without versions. */
  function Stored(db: Db, key: string): Group {
    if key in db.ids && db.ids[key] in db.groups then db.groups[db.ids[key]]
    else Group(key, ToDecide, "", map[], map[])
  }

  /** What a rewritten group asks of the queue: its status first, then its versions. */
  function Settle(db: Db, id: nat, message: string, now: int): Db
    requires id in db.groups
  {
    var u := AfterStatusChange(db, id, db.groups[id].status, message, now);
    Cancel(u, StaleIn(u, id), STALE, now)
  }

  function IdFor(db: Db, key: string): nat {
    if key in db.ids then db.ids[key] else db.nextGroup
  }

  function WriteGroup(db: Db, key: string, wanted: GroupStatus, reason: string, incoming: seq<Incoming>,
                      message: string, now: int): Db {
    var written := Written(Stored(db, key), wanted, reason, incoming, db.nextFile);
    Saved(db.(nextFile := Rows(Stored(db, key), incoming, db.nextFile).1), key, written, message, now)
  }

  function Saved(db: Db, key: string, written: Group, message: string, now: int): Db {
    var id := IdFor(db, key);
    var t := db.(groups := db.groups[id := written]);
    if key in db.ids then Settle(t, id, message, now) else t.(ids := t.ids[key := id], nextGroup := id + 1)
  }

  /** No status means "review". */
  function Wanted(status: Option<GroupStatus>): GroupStatus {
    match status case None => Review case Some(s) => s
  }

  function Upsert(db: Db, key: string, status: Option<GroupStatus>, reason: string, incoming: seq<Incoming>,
                  message: string, now: int): (Db, Result) {
    if Blank(key) || !WellFormed(incoming) then (db, Refused)
    else (WriteGroup(db, key, Wanted(status), reason, incoming, message, now), Done)
  }

  // ----- Runs -----

  datatype Event =
    | CreateAction(a: Action)
    | UpdateAction(id: nat, a: Action, now: int)
    | CancelOne(id: nat, now: int)
    | CancelGroup(id: nat, message: string, now: int)
    | Cover(covered: set<nat>, message: string, now: int)
    | SetStatus(id: nat, status: GroupStatus, reason: string, message: string, now: int)
    | SetStatusIf(id: nat, from: set<GroupStatus>, status: GroupStatus, reason: string, message: string, now: int)
    | Scan(key: string, wanted: Option<GroupStatus>, reason: string, incoming: seq<Incoming>, message: string, now: int)
    | Override(id: nat, fileId: nat, choice: Decision, now: int)
    | Unseen(unseen: set<nat>, reason: string, message: string, now: int)
    | Delete(id: nat, message: string, now: int)

  function Next(db: Db, e: Event): Db {
    match e
    case CreateAction(a) => Create(db, a).0
    case UpdateAction(id, a, now) => Update(db, id, a, now).0
    case CancelOne(id, now) => CancelIfPending(db, id, now).0
    case CancelGroup(id, message, now) => CancelForGroup(db, id, message, now)
    case Cover(covered, message, now) => CancelCovered(db, covered, message, now)
    case SetStatus(id, status, reason, message, now) => UpdateStatus(db, id, status, reason, message, now).0
    case SetStatusIf(id, from, status, reason, message, now) =>
      UpdateStatusIf(db, id, from, status, reason, message, now).0
    case Scan(key, wanted, reason, incoming, message, now) => Upsert(db, key, wanted, reason, incoming, message, now).0
    case Override(id, fileId, choice, now) => SetOverride(db, id, fileId, choice, now).0
    case Unseen(unseen, reason, message, now) => ResolveUnseen(db, unseen, reason, message, now)
    case Delete(id, message, now) => DeleteGroup(db, id, message, now).0
  }

  function Run(db: Db, es: seq<Event>): Db
    decreases |es|
  {
    if es == [] then db else Run(Next(db, es[0]), es[1..])
  }

  // ----- What Cancel does and does not do -----

  predicate Stranded(db: Db, g: nat) {
    g in db.groups && db.groups[g].status.Queued? && !Active(db.actions, g)
  }

  /** Cancelling only ends rows and reopens groups. */
  predicate OnlyCancels(s: Db, t: Db, hits: set<nat>) {
    && t.actions.Keys == s.actions.Keys
    && (forall a <- s.actions ::
          if a in hits then t.actions[a].status.Cancelled? && t.actions[a].groupId == s.actions[a].groupId
          else t.actions[a] == s.actions[a])
    && t.groups.Keys == s.groups.Keys
    && (forall g <- s.groups ::
          t.groups[g] == s.groups[g]
          || (Stranded(t.(groups := s.groups), g)
              && t.groups[g] == s.groups[g].(status := ToDecide, reason := REOPENED)))
    && (t.ids, t.nextAction, t.nextGroup, t.nextFile) == (s.ids, s.nextAction, s.nextGroup, s.nextFile)
  }

  lemma CancelSpec(db: Db, hits: set<nat>, message: string, now: int)
    ensures OnlyCancels(db, Cancel(db, hits, message, now), hits)
    ensures forall a <- hits | a in db.actions :: !Stranded(Cancel(db, hits, message, now), db.actions[a].groupId)
    ensures forall g <- db.groups | g !in GroupsOf(db.actions, hits) ::
              Cancel(db, hits, message, now).groups[g] == db.groups[g]
  {
    var t := Cancel(db, hits, message, now);
    forall a | a in hits && a in db.actions ensures !Stranded(t, db.actions[a].groupId) {
      assert db.actions[a].groupId in GroupsOf(db.actions, hits);
    }
  }

  // ----- What every transaction keeps -----

  /** The version a pending action targets is marked for removal, in a group that is still open. */
  predicate TargetMarked(groups: map<nat, Group>, a: Action) {
    a.groupId in groups && !Closed(groups[a.groupId].status) && Targets(groups[a.groupId], a)
  }

  ghost predicate PendingMarked(actions: map<nat, Action>, groups: map<nat, Group>) {
    forall a <- actions | actions[a].status.Pending? :: TargetMarked(groups, actions[a])
  }

  /** What the user keeps, or a protection guards, is decided to be kept. */
  predicate RowSafe(f: File) {
    f.choice.Keep? || f.guarded ==> f.decision.Keep?
  }

  ghost predicate RowsSafe(groups: map<nat, Group>) {
    forall g <- groups, k <- groups[g].files :: RowSafe(groups[g].files[k])
  }

  ghost predicate IndexOk(groups: map<nat, Group>, ids: map<string, nat>, nextGroup: nat) {
    && (forall k <- ids :: ids[k] in groups && groups[ids[k]].key == k)
    && (forall g <- groups :: g < nextGroup && groups[g].key in ids && ids[groups[g].key] == g)
  }

  ghost predicate Sound(db: Db) {
    && (forall a <- db.actions :: a < db.nextAction)
    && RowsSafe(db.groups)
    && IndexOk(db.groups, db.ids, db.nextGroup)
  }

  ghost predicate Inv(db: Db) {
    Sound(db) && PendingMarked(db.actions, db.groups)
  }

  /** Cancelling leaves every version as it is. */
  lemma CancelKeepsVersions(db: Db, hits: set<nat>, message: string, now: int)
    requires Sound(db)
    ensures Sound(Cancel(db, hits, message, now))
  {
    CancelSpec(db, hits, message, now);
    hide Cancel, RowSafe, Stranded, Active;
    var t := Cancel(db, hits, message, now);
    forall g, k | g in t.groups && k in t.groups[g].files ensures RowSafe(t.groups[g].files[k]) {
      assert RowSafe(db.groups[g].files[k]);
    }
  }

  /** Cancelling repairs what a change before it broke, if it hits every row concerned. */
  lemma CancelKeeps(db: Db, hits: set<nat>, message: string, now: int)
    requires Sound(db)
    requires forall a <- db.actions | a !in hits && db.actions[a].status.Pending? :: TargetMarked(db.groups, db.actions[a])
    ensures Inv(Cancel(db, hits, message, now))
  {
    CancelSpec(db, hits, message, now);
    CancelKeepsVersions(db, hits, message, now);
    hide Cancel, Sound, Stranded, Active;
    var t := Cancel(db, hits, message, now);
    forall a | a in t.actions && t.actions[a].status.Pending? ensures TargetMarked(t.groups, t.actions[a]) {
      assert TargetMarked(db.groups, db.actions[a]);
    }
  }

  lemma CancelAnyKeeps(db: Db, hits: set<nat>, message: string, now: int)
    requires Inv(db)
    ensures Inv(Cancel(db, hits, message, now))
  {
    hide Cancel, Sound, TargetMarked;
    CancelKeeps(db, hits, message, now);
  }

  lemma RemovableIsMarked(groups: map<nat, Group>, a: Action)
    requires Removable(groups, a.groupId, a.fileId, a.versionKey)
    ensures TargetMarked(groups, a)
  {
  }

  lemma CreateKeeps(db: Db, a: Action)
    requires Inv(db)
    ensures Inv(Create(db, a).0)
  {
    if a.status.Pending? && Removable(db.groups, a.groupId, a.fileId, a.versionKey) {
      RemovableIsMarked(db.groups, a);
    }
  }

  lemma ReopenKeeps(db: Db, touched: set<nat>)
    requires Inv(db)
    ensures Inv(db.(groups := Reopen(db.groups, db.actions, touched)))
  {
    var t := db.(groups := Reopen(db.groups, db.actions, touched));
    forall a | a in t.actions && t.actions[a].status.Pending? ensures TargetMarked(t.groups, t.actions[a]) {
      assert TargetMarked(db.groups, db.actions[a]);
    }
    forall g, k | g in t.groups && k in t.groups[g].files ensures RowSafe(t.groups[g].files[k]) {
      assert RowSafe(db.groups[g].files[k]);
    }
  }

  lemma UpdateKeeps(db: Db, id: nat, a: Action, now: int)
    requires Inv(db)
    ensures Inv(Update(db, id, a, now).0)
  {
    if id in db.actions {
      CancelKeeps(db, {id}, STALE, now);
      if a.status.Pending? && Removable(db.groups, a.groupId, a.fileId, a.versionKey) {
        RemovableIsMarked(db.groups, a);
      }
      if !a.status.Pending? || Removable(db.groups, a.groupId, a.fileId, a.versionKey) {
        var t := db.(actions := db.actions[id := a]);
        assert Inv(t);
        ReopenKeeps(t, {a.groupId});
      }
    }
  }

  /** A change of one group's row, and then of the queue if the group's new status asks for it. */
  lemma StatusChangeKeeps(db: Db, id: nat, g: Group, message: string, now: int)
    requires Inv(db) && id in db.groups
    requires g.key == db.groups[id].key && g.files == db.groups[id].files
    ensures Inv(AfterStatusChange(db.(groups := db.groups[id := g]), id, g.status, message, now))
  {
    var t := db.(groups := db.groups[id := g]);
    forall h, k | h in t.groups && k in t.groups[h].files ensures RowSafe(t.groups[h].files[k]) {
      assert RowSafe(db.groups[h].files[k]);
    }
    forall a | a in db.actions && db.actions[a].status.Pending?
      ensures TargetMarked(t.groups, db.actions[a]) || (BlocksRemovals(g.status) && db.actions[a].groupId == id)
    {
      assert TargetMarked(db.groups, db.actions[a]);
    }
    if BlocksRemovals(g.status) {
      CancelKeeps(t, PendingIn(t.actions, {id}), message, now);
    }
  }

  /** New files in a group: the rows that lost their target are cancelled. */
  lemma StaleKeeps(s: Db, t: Db, id: nat, now: int)
    requires PendingMarked(s.actions, s.groups) && Sound(t)
    requires t.actions == s.actions && id in t.groups && !Closed(t.groups[id].status)
    requires forall g <- s.groups | g != id :: g in t.groups && t.groups[g] == s.groups[g]
    ensures Inv(Cancel(t, StaleIn(t, id), STALE, now))
  {
    forall a | a in t.actions && a !in StaleIn(t, id) && t.actions[a].status.Pending?
      ensures TargetMarked(t.groups, t.actions[a])
    {
      assert TargetMarked(s.groups, s.actions[a]);
    }
    CancelKeeps(t, StaleIn(t, id), STALE, now);
  }

  lemma ReplaceSound(db: Db, id: nat, g: Group)
    requires Sound(db) && id in db.groups && g.key == db.groups[id].key
    requires forall k <- g.files :: RowSafe(g.files[k])
    ensures Sound(db.(groups := db.groups[id := g]))
  {
    var t := db.(groups := db.groups[id := g]);
    forall h, k | h in t.groups && k in t.groups[h].files ensures RowSafe(t.groups[h].files[k]) {
      if h != id {
        assert RowSafe(db.groups[h].files[k]);
      }
    }
  }

  /** Only an override of "keep" changes what a group's versions are decided to be. */
  lemma SameTargets(g: Group, fileId: nat, choice: Decision, a: Action)
    requires !choice.Keep? && Targets(g, a)
    ensures Targets(g.(files := ChooseFile(g.files, fileId, choice)), a)
  {
    var k :| k in g.files && g.files[k].decision.Remove?
      && (if a.versionKey != "" then k == a.versionKey else g.files[k].id == a.fileId);
    var f := ChooseFile(g.files, fileId, choice)[k];
    assert f.decision.Remove? && f.id == g.files[k].id;
  }

  lemma OverrideKeeps(db: Db, id: nat, fileId: nat, choice: Decision, now: int)
    requires Inv(db)
    ensures Inv(SetOverride(db, id, fileId, choice, now).0)
  {
    if id in db.groups {
      var g := db.groups[id];
      var h := g.(files := ChooseFile(g.files, fileId, choice));
      forall k | k in h.files ensures RowSafe(h.files[k]) {
        assert RowSafe(db.groups[id].files[k]);
      }
      var t := db.(groups := db.groups[id := h]);
      ReplaceSound(db, id, h);
      forall a | a in t.actions && t.actions[a].status.Pending? && (Closed(g.status) || !choice.Keep?)
        ensures TargetMarked(t.groups, t.actions[a])
      {
        assert TargetMarked(db.groups, db.actions[a]);
        if t.actions[a].groupId == id {
          SameTargets(g, fileId, choice, t.actions[a]);
        }
      }
      if Closed(g.status) {
        CancelKeeps(t, StaleIn(t, id), STALE, now);
      } else if choice.Keep? {
        StaleKeeps(db, t, id, now);
      }
    }
  }

  lemma UnseenKeeps(db: Db, unseen: set<nat>, reason: string, message: string, now: int)
    requires Inv(db)
    ensures Inv(ResolveUnseen(db, unseen, reason, message, now))
  {
    var ids := set g | g in unseen && g in db.groups && !Closed(db.groups[g].status);
    var groups := map g | g in db.groups ::
      if g in ids then db.groups[g].(status := Resolved, reason := reason) else db.groups[g];
    var t := db.(groups := groups);
    forall g, k | g in groups && k in groups[g].files ensures RowSafe(groups[g].files[k]) {
      assert RowSafe(db.groups[g].files[k]);
    }
    forall a | a in t.actions && a !in PendingIn(t.actions, ids) && t.actions[a].status.Pending?
      ensures TargetMarked(groups, t.actions[a])
    {
      assert TargetMarked(db.groups, db.actions[a]);
    }
    CancelKeeps(t, PendingIn(t.actions, ids), message, now);
  }

  lemma DeleteKeeps(db: Db, id: nat, message: string, now: int)
    requires Inv(db)
    ensures Inv(DeleteGroup(db, id, message, now).0)
  {
    if id in db.groups {
      var t := db.(groups := db.groups - {id}, ids := db.ids - {db.groups[id].key});
      forall g, k | g in t.groups && k in t.groups[g].files ensures RowSafe(t.groups[g].files[k]) {
        assert RowSafe(db.groups[g].files[k]);
      }
      forall a | a in t.actions && a !in PendingIn(t.actions, {id}) && t.actions[a].status.Pending?
        ensures TargetMarked(t.groups, t.actions[a])
      {
        assert TargetMarked(db.groups, db.actions[a]);
      }
      CancelKeeps(t, PendingIn(t.actions, {id}), message, now);
    }
  }

  lemma {:induction false} RowsAreSafe(g: Group, incoming: seq<Incoming>, nextFile: nat)
    ensures forall k <- Rows(g, incoming, nextFile).0 :: RowSafe(Rows(g, incoming, nextFile).0[k])
    decreases |incoming|
  {
    if incoming != [] {
      RowsAreSafe(g, incoming[..|incoming| - 1], nextFile);
    }
  }

  lemma RewriteKeeps(db: Db, id: nat, written: Group, nextFile: nat, message: string, now: int)
    requires Inv(db) && id in db.groups && written.key == db.groups[id].key
    requires forall k <- written.files :: RowSafe(written.files[k])
    ensures
      var t := db.(groups := db.groups[id := written], nextFile := nextFile);
      Inv(Settle(t, id, message, now))
  {
    var t := db.(groups := db.groups[id := written], nextFile := nextFile);
    ReplaceSound(db, id, written);
    assert Sound(t);
    if BlocksRemovals(written.status) {
      var hits := PendingIn(t.actions, {id});
      forall a | a in t.actions && a !in hits && t.actions[a].status.Pending?
        ensures TargetMarked(t.groups, t.actions[a])
      {
        assert TargetMarked(db.groups, db.actions[a]);
      }
      CancelKeeps(t, hits, message, now);
      CancelSpec(t, hits, message, now);
      var u := CancelForGroup(t, id, message, now);
      CancelKeeps(u, StaleIn(u, id), STALE, now);
    } else {
      StaleKeeps(db, t, id, now);
    }
  }

  /** No action refers to a new group: its id was never used. */
  lemma InsertKeeps(db: Db, g: Group, nextFile: nat)
    requires Inv(db) && g.key !in db.ids
    requires forall k <- g.files :: RowSafe(g.files[k])
    ensures Inv(db.(groups := db.groups[db.nextGroup := g], nextFile := nextFile, ids := db.ids[g.key := db.nextGroup],
                    nextGroup := db.nextGroup + 1))
  {
    var groups := db.groups[db.nextGroup := g];
    forall h, k | h in groups && k in groups[h].files ensures RowSafe(groups[h].files[k]) {
      if h != db.nextGroup {
        assert RowSafe(db.groups[h].files[k]);
      }
    }
    forall a | a in db.actions && db.actions[a].status.Pending? ensures TargetMarked(groups, db.actions[a]) {
      assert TargetMarked(db.groups, db.actions[a]);
    }
  }

  lemma UpsertKeeps(db: Db, key: string, status: Option<GroupStatus>, reason: string, incoming: seq<Incoming>,
                    message: string, now: int)
    requires Inv(db)
    ensures Inv(Upsert(db, key, status, reason, incoming, message, now).0)
  {
    if !Blank(key) && WellFormed(incoming) {
      var g := Stored(db, key);
      var written := Written(g, Wanted(status), reason, incoming, db.nextFile);
      RowsAreSafe(g, incoming, db.nextFile);
      if key in db.ids {
        RewriteKeeps(db, db.ids[key], written, Rows(g, incoming, db.nextFile).1, message, now);
      } else {
        InsertKeeps(db, written, Rows(g, incoming, db.nextFile).1);
      }
    }
  }

  lemma NextKeeps(db: Db, e: Event)
    requires Inv(db)
    ensures Inv(Next(db, e))
  {
    hide Inv, Create, Update, Cancel, Upsert, SetOverride, ResolveUnseen, DeleteGroup, AfterStatusChange, PendingIn;
    match e
    case CreateAction(a) => CreateKeeps(db, a);
    case UpdateAction(id, a, now) => UpdateKeeps(db, id, a, now);
    case CancelOne(id, now) => CancelAnyKeeps(db, {id}, BY_USER, now);
    case CancelGroup(id, message, now) => CancelAnyKeeps(db, PendingIn(db.actions, {id}), message, now);
    case Cover(covered, message, now) => CancelAnyKeeps(db, PendingIn(db.actions, covered), message, now);
    case SetStatus(id, status, reason, message, now) =>
      if id in db.groups {
        StatusChangeKeeps(db, id, db.groups[id].(status := status, reason := reason), message, now);
      }
    case SetStatusIf(id, from, status, reason, message, now) =>
      if id in db.groups {
        StatusChangeKeeps(db, id, db.groups[id].(status := status, reason := reason), message, now);
      }
    case Scan(key, wanted, reason, incoming, message, now) =>
      UpsertKeeps(db, key, wanted, reason, incoming, message, now);
    case Override(id, fileId, choice, now) => OverrideKeeps(db, id, fileId, choice, now);
    case Unseen(unseen, reason, message, now) => UnseenKeeps(db, unseen, reason, message, now);
    case Delete(id, message, now) => DeleteKeeps(db, id, message, now);
  }

  lemma {:induction false} RunKeeps(db: Db, es: seq<Event>)
    requires Inv(db)
    ensures Inv(Run(db, es))
    decreases |es|
  {
    if es != [] {
      NextKeeps(db, es[0]);
      RunKeeps(Next(db, es[0]), es[1..]);
    }
  }

  // ----- Main results -----

  /** In every reachable state, whatever is approved, re-scanned, overridden, ignored or deleted in
      between: a pending removal targets a version now marked for removal, in a group that exists and is
      neither ignored nor resolved; and that version is neither protected nor kept by the user. */
  lemma PendingStaysRemovable(es: seq<Event>, id: nat)
    requires id in Run(EMPTY, es).actions && Run(EMPTY, es).actions[id].status.Pending?
    ensures
      var db := Run(EMPTY, es);
      var a := db.actions[id];
      && a.groupId in db.groups && db.groups[a.groupId].status !in {Ignored, Resolved}
      && exists k <- db.groups[a.groupId].files ::
           var f := db.groups[a.groupId].files[k];
           && f.decision.Remove? && !f.guarded && !f.choice.Keep?
           && (if a.versionKey != "" then k == a.versionKey else f.id == a.fileId)
  {
    RunKeeps(EMPTY, es);
    var db := Run(EMPTY, es);
    var a := db.actions[id];
    assert TargetMarked(db.groups, a);
    var g := db.groups[a.groupId];
    var k :| k in g.files && g.files[k].decision.Remove?
      && (if a.versionKey != "" then k == a.versionKey else g.files[k].id == a.fileId);
    assert RowSafe(g.files[k]);
  }

  /** Did the step queue row `id` or change it while it waits? A removal that runs may go on. */
  predicate Queues(s: Db, t: Db, id: nat) {
    && id in t.actions && IsQueued(t.actions[id].status)
    && (id in s.actions ==>
          s.actions[id] != t.actions[id] && !(s.actions[id].status.Running? && t.actions[id].status.Running?))
  }

  /** Nothing but a creation or an update writes a row, other than to cancel it; and unless a start is
      refused, only pending rows are cancelled. */
  lemma RowsOnlyCancelled(db: Db, e: Event, id: nat)
    requires !e.CreateAction? && !e.UpdateAction?
    ensures id in Next(db, e).actions <==> id in db.actions
    ensures id in db.actions && Next(db, e).actions[id] != db.actions[id] ==>
              db.actions[id].status.Pending? && Next(db, e).actions[id].status.Cancelled?
  {
  }

  /** Whatever a step queues or starts is removable at that moment. */
  lemma QueuedTargetsRemovable(db: Db, e: Event, id: nat)
    requires Queues(db, Next(db, e), id)
    ensures
      var t := Next(db, e);
      var a := t.actions[id];
      t.groups == db.groups && Removable(t.groups, a.groupId, a.fileId, a.versionKey)
  {
    if !e.CreateAction? && !e.UpdateAction? {
      RowsOnlyCancelled(db, e, id);
    }
  }

  /** A running removal is cancelled by nothing but an update of its own row. */
  lemma RunningIsLeftAlone(db: Db, e: Event, id: nat)
    requires id in db.actions && db.actions[id].status.Running? && id < db.nextAction
    requires !(e.UpdateAction? && e.id == id)
    ensures id in Next(db, e).actions && Next(db, e).actions[id] == db.actions[id]
  {
    if !e.CreateAction? && !e.UpdateAction? {
      RowsOnlyCancelled(db, e, id);
    }
  }

  predicate Over(s: ActionStatus) {
    s.Succeeded? || s.Cancelled?
  }

  /** Callers never overwrite a removal that is done or cancelled with another outcome. */
  predicate Disciplined(db: Db, e: Event) {
    e.UpdateAction? && e.id in db.actions && Over(db.actions[e.id].status) ==>
      !e.a.status.Failed? && !e.a.status.Skipped? && !e.a.status.DryRun?
  }

  ghost predicate RunDisciplined(db: Db, es: seq<Event>)
    decreases |es|
  {
    es == [] || (Disciplined(db, es[0]) && RunDisciplined(Next(db, es[0]), es[1..]))
  }

  lemma OverStaysOver(db: Db, e: Event, id: nat)
    requires id in db.actions && id < db.nextAction && Over(db.actions[id].status) && Disciplined(db, e)
    ensures
      var t := Next(db, e);
      id in t.actions && id < t.nextAction && Over(t.actions[id].status)
  {
    if !e.CreateAction? && !e.UpdateAction? {
      RowsOnlyCancelled(db, e, id);
    }
  }

  /** While callers keep to that, what is done or cancelled is never pending or running again. */
  lemma {:induction false} NeverQueuedAgain(db: Db, es: seq<Event>, id: nat)
    requires id in db.actions && id < db.nextAction && Over(db.actions[id].status)
    requires RunDisciplined(db, es)
    ensures id in Run(db, es).actions && Over(Run(db, es).actions[id].status)
    decreases |es|
  {
    if es != [] {
      OverStaysOver(db, es[0], id);
      NeverQueuedAgain(Next(db, es[0]), es[1..], id);
    }
  }

  /** An outcome that the discipline keeps off a row that is done or cancelled. */
  predicate Revivable(s: ActionStatus) {
    s.Failed? || s.Skipped? || s.DryRun?
  }

  function Retry(id: nat, a: Action, outcome: ActionStatus, now: int): seq<Event> {
    [UpdateAction(id, a.(status := outcome), now), UpdateAction(id, a.(status := Pending), now),
     UpdateAction(id, a.(status := Running), now)]
  }

  /** Recorded as failed, skipped or a dry run, a removal that was done or cancelled runs again if and only
      if its target is marked for removal: the store does not stop it. */
  lemma RevivedRunsAgain(db: Db, id: nat, outcome: ActionStatus, now: int)
    requires id in db.actions && Over(db.actions[id].status) && Revivable(outcome)
    ensures
      var a := db.actions[id];
      var t := Run(db, Retry(id, a, outcome, now));
      && id in t.actions
      && (t.actions[id].status.Running? <==> Removable(db.groups, a.groupId, a.fileId, a.versionKey))
  {
    var a := db.actions[id];
    var es := Retry(id, a, outcome, now);
    var t := Next(db, es[0]);
    var u := Next(t, es[1]);
    assert es[1..] == [es[1], es[2]] && es[1..][1..] == [es[2]] && [es[2]][1..] == [];
    assert Run(db, es) == Run(t, es[1..]) == Run(u, [es[2]]) == Next(u, es[2]);
  }

  /** Whatever a cancellation ends, its group is not left queued for nothing; nor is any other that was
      not before. */
  lemma CancelStrandsNothing(db: Db, hits: set<nat>, message: string, now: int, g: nat)
    requires !Stranded(db, g) || exists a <- db.actions :: a in hits && db.actions[a].groupId == g
    ensures !Stranded(Cancel(db, hits, message, now), g)
  {
    var t := Cancel(db, hits, message, now);
    if g in db.groups && db.groups[g].status.Queued? && !Active(t.actions, g) {
      if Active(db.actions, g) {
        var a :| a in db.actions && db.actions[a].groupId == g && IsQueued(db.actions[a].status);
        var after := t.actions[a];
        assert a in hits;
      }
      assert g in GroupsOf(db.actions, hits);
    }
  }

  lemma SettleReopens(db: Db, gid: nat, message: string, now: int, id: nat)
    requires gid in db.groups && id in db.actions && IsQueued(db.actions[id].status)
    requires Settle(db, gid, message, now).actions[id].status.Cancelled?
    ensures !Stranded(Settle(db, gid, message, now), db.actions[id].groupId)
  {
    var g, hits := db.actions[id].groupId, PendingIn(db.actions, {gid});
    var u := AfterStatusChange(db, gid, db.groups[gid].status, message, now);
    if u.actions[id].status.Cancelled? {
      CancelStrandsNothing(db, hits, message, now, g);
    } else {
      assert u.actions[id] == db.actions[id] && id in StaleIn(u, gid);
    }
    CancelStrandsNothing(u, StaleIn(u, gid), STALE, now, g);
    hide Cancel, Stranded, StaleIn, PendingIn;
  }

  lemma ScanReopens(db: Db, e: Event, id: nat)
    requires e.Scan? && id in db.actions && IsQueued(db.actions[id].status)
    requires Next(db, e).actions[id].status.Cancelled?
    ensures !Stranded(Next(db, e), db.actions[id].groupId)
  {
    hide Settle, Stranded, Written, Rows, WellFormed;
    if e.key in db.ids {
      var written := Written(Stored(db, e.key), Wanted(e.wanted), e.reason, e.incoming, db.nextFile);
      var t := db.(nextFile := Rows(Stored(db, e.key), e.incoming, db.nextFile).1, groups := db.groups[db.ids[e.key] := written]);
      assert Next(db, e) == Settle(t, db.ids[e.key], e.message, e.now);
      SettleReopens(t, db.ids[e.key], e.message, e.now, id);
    }
  }

  // One group with two versions, from the empty tables on.

  const VERSIONS := [Incoming("a", Keep, Keep, Unset, false), Incoming("b", Remove, Remove, Unset, false)]

  const GROUP := Group("k", ToDecide, "", map["a" := File(1, Keep, Unset, false), "b" := File(2, Remove, Unset, false)], map[])

  const SCAN := Scan("k", Some(ToDecide), "", VERSIONS, "", 0)

  function Removal(status: ActionStatus): Action {
    Action(1, 0, "b", status, "", None, 0)
  }

  function OneGroup(actions: map<nat, Action>, nextAction: nat, status: GroupStatus): Db {
    Db(actions, map[1 := GROUP.(status := status)], map["k" := 1], nextAction, 2, 3)
  }

  lemma RowsOfVersions()
    ensures var none := Group("k", ToDecide, "", map[], map[]);
            Rows(none, VERSIONS, 1) == (GROUP.files, 3)
  {
    var none := Group("k", ToDecide, "", map[], map[]);
    assert VERSIONS[..1] == [VERSIONS[0]] && VERSIONS[..1][..0] == [];
    assert Rows(none, [], 1) == (map[], 1);
    assert Rows(none, VERSIONS[..1], 1) == (map["a" := File(1, Keep, Unset, false)], 2);
  }

  lemma WrittenIsGroup()
    ensures Written(Group("k", ToDecide, "", map[], map[]), ToDecide, "", VERSIONS, 1) == GROUP
  {
    var none := Group("k", ToDecide, "", map[], map[]);
    RowsOfVersions();
    hide Rows;
    assert DecisionFor(none, VERSIONS[0]).Keep?;
    assert Retained(none, VERSIONS) == map[];
  }

  lemma ScanMakesGroup()
    ensures Next(EMPTY, SCAN) == OneGroup(map[], 1, ToDecide)
  {
    RowsOfVersions();
    WrittenIsGroup();
    hide Rows, Written;
    assert "k"[0] == 'k' && "a"[0] == 'a' && "b"[0] == 'b';
    assert !Blank("k") && WellFormed(VERSIONS);
    hide Blank;
    assert WriteGroup(EMPTY, "k", ToDecide, "", VERSIONS, "", 0) == OneGroup(map[], 1, ToDecide);
  }

  lemma BIsRemovable(actions: map<nat, Action>, nextAction: nat, status: GroupStatus)
    requires !Closed(status)
    ensures Removable(OneGroup(actions, nextAction, status).groups, 1, 0, "b")
  {
    assert "b" in GROUP.files;
  }

  lemma {:induction false} RunOn(db: Db, es: seq<Event>, e: Event)
    ensures Run(db, es + [e]) == Next(Run(db, es), e)
    decreases |es|
  {
    if es == [] {
      assert es + [e] == [e] && [e][1..] == [];
      assert Run(db, [e]) == Run(Next(db, e), []);
    } else {
      assert (es + [e])[1..] == es[1..] + [e];
      RunOn(Next(db, es[0]), es[1..], e);
    }
  }

  ghost predicate Reachable(db: Db) {
    exists es :: Run(EMPTY, es) == db
  }

  lemma Onward(db: Db, e: Event)
    requires Reachable(db)
    ensures Reachable(Next(db, e))
  {
    var es :| Run(EMPTY, es) == db;
    RunOn(EMPTY, es, e);
  }

  lemma GroupIsReached()
    ensures Reachable(OneGroup(map[], 1, ToDecide))
  {
    ScanMakesGroup();
    assert Run(EMPTY, []) == EMPTY;
    Onward(EMPTY, SCAN);
  }

  lemma QueuedIsReached()
    ensures Reachable(OneGroup(map[1 := Removal(Pending)], 2, ToDecide))
  {
    var db := OneGroup(map[], 1, ToDecide);
    GroupIsReached();
    BIsRemovable(map[], 1, ToDecide);
    hide Removable, Reachable;
    Onward(db, CreateAction(Removal(Pending)));
    assert Next(db, CreateAction(Removal(Pending))) == OneGroup(map[1 := Removal(Pending)], 2, ToDecide);
  }

  lemma RowMoves(from: ActionStatus, to: ActionStatus)
    requires Reachable(OneGroup(map[1 := Removal(from)], 2, ToDecide))
    requires (from.Pending? && to.Running?) || (from.Running? && to.Succeeded?)
    ensures Reachable(OneGroup(map[1 := Removal(to)], 2, ToDecide))
  {
    var db := OneGroup(map[1 := Removal(from)], 2, ToDecide);
    BIsRemovable(db.actions, 2, ToDecide);
    hide Removable, Reachable;
    Onward(db, UpdateAction(1, Removal(to), 0));
    assert db.actions[1 := Removal(to)] == map[1 := Removal(to)];
    assert Next(db, UpdateAction(1, Removal(to), 0)) == OneGroup(map[1 := Removal(to)], 2, ToDecide);
  }

  /** In a real run: a removal that is done runs a second time, whichever outcome it is overwritten with. */
  lemma DoneRunsAgain(outcome: ActionStatus)
    requires Revivable(outcome)
    ensures
      var db := OneGroup(map[1 := Removal(Succeeded)], 2, ToDecide);
      var t := Run(db, Retry(1, Removal(Succeeded), outcome, 0));
      && Reachable(db)
      && 1 in t.actions && t.actions[1].status.Running?
  {
    QueuedIsReached();
    RowMoves(Pending, Running);
    RowMoves(Running, Succeeded);
    hide Reachable;
    BIsRemovable(map[1 := Removal(Succeeded)], 2, ToDecide);
    RevivedRunsAgain(OneGroup(map[1 := Removal(Succeeded)], 2, ToDecide), 1, outcome, 0);
  }

  /** Unless an update moves the row to another group, a cancellation leaves its group with something
      to run, or not queued. */
  lemma CancellationReopens(db: Db, e: Event, id: nat)
    requires id in db.actions && IsQueued(db.actions[id].status)
    requires id in Next(db, e).actions && Next(db, e).actions[id].status.Cancelled?
    requires Next(db, e).actions[id].groupId == db.actions[id].groupId && id < db.nextAction
    ensures !Stranded(Next(db, e), db.actions[id].groupId)
  {
    hide WriteGroup, Removable, Targets;
    if e.Scan? {
      ScanReopens(db, e, id);
    }
  }

  predicate OthersActive(actions: map<nat, Action>, id: nat, groupId: nat) {
    exists b <- actions :: b != id && actions[b].groupId == groupId && IsQueued(actions[b].status)
  }

  /** An update to "cancelled" reopens the group named in it. It leaves the row's own group queued with
      nothing to run exactly when it names another and nothing else there is left. */
  lemma UpdateStrandsExactly(db: Db, id: nat, a: Action, now: int)
    requires id in db.actions && IsQueued(db.actions[id].status) && a.status.Cancelled?
    ensures
      var g := db.actions[id].groupId;
      Stranded(Update(db, id, a, now).0, g)
      <==> a.groupId != g && g in db.groups && db.groups[g].status.Queued? && !OthersActive(db.actions, id, g)
  {
    var g := db.actions[id].groupId;
    ActiveAfter(db.actions, id, a, g);
  }

  lemma ActiveAfter(actions: map<nat, Action>, id: nat, a: Action, g: nat)
    requires !IsQueued(a.status)
    ensures Active(actions[id := a], g) <==> OthersActive(actions, id, g)
  {
    var after := actions[id := a];
    if Active(after, g) {
      var b :| b in after && after[b].groupId == g && IsQueued(after[b].status);
      assert b != id && b in actions && actions[b] == after[b];
    }
    if OthersActive(actions, id, g) {
      var b :| b in actions && b != id && actions[b].groupId == g && IsQueued(actions[b].status);
      assert b in after && after[b] == actions[b];
    }
  }

  /** In a real run: after such an update the group stays queued with nothing to run. */
  lemma UpdateStrands()
    ensures
      var db := OneGroup(map[1 := Removal(Pending)], 2, Queued);
      var a := Removal(Cancelled).(groupId := 2);
      && Reachable(db)
      && Update(db, 1, a, 0).1 == Done && Stranded(Update(db, 1, a, 0).0, 1)
  {
    var before := OneGroup(map[1 := Removal(Pending)], 2, ToDecide);
    var db := OneGroup(map[1 := Removal(Pending)], 2, Queued);
    QueuedIsReached();
    Onward(before, SetStatus(1, Queued, "", "", 0));
    hide Reachable;
    assert before.groups[1 := GROUP.(status := Queued)] == db.groups;
    assert Next(before, SetStatus(1, Queued, "", "", 0)) == db;
    UpdateStrandsExactly(db, 1, Removal(Cancelled).(groupId := 2), 0);
  }

  /** Cancelling one action from the queue page: only a pending row is touched, and its group reopens
      exactly when it was queued for nothing else. */
  lemma CancelIfPendingExact(db: Db, id: nat, now: int)
    ensures
      var (t, result) := CancelIfPending(db, id, now);
      && result == (if id !in db.actions then NotFound else if db.actions[id].status.Pending? then Done else NotPending)
      && (result != Done ==> t == db)
      && (result == Done ==>
            var row := db.actions[id];
            var g := row.groupId;
            && t.actions == db.actions[id := row.(status := Cancelled, finishedAt := Some(now), message := BY_USER)]
            && (forall h <- db.groups | h != g :: t.groups[h] == db.groups[h])
            && (g in db.groups ==>
                  t.groups[g] == if db.groups[g].status.Queued? && !OthersActive(db.actions, id, g)
                                 then db.groups[g].(status := ToDecide, reason := REOPENED) else db.groups[g]))
  {
    if id in db.actions && db.actions[id].status.Pending? {
      var row := db.actions[id].(status := Cancelled, finishedAt := Some(now), message := BY_USER);
      assert CancelRows(db.actions, {id}, BY_USER, now) == db.actions[id := row];
      ActiveAfter(db.actions, id, row, row.groupId);
      assert GroupsOf(db.actions, {id}) == {row.groupId};
    }
  }

  // ----- What a scan may not undo -----

  /** What the user chose for a version, whether it is in the group now or was once. */
  function Choice(groups: map<nat, Group>, id: nat, key: string): Decision {
    if id !in groups then Unset
    else if key in groups[id].files then groups[id].files[key].choice
    else if key in groups[id].retained then groups[id].retained[key]
    else Unset
  }

  lemma {:induction false} RowsFind(g: Group, incoming: seq<Incoming>, nextFile: nat, i: nat)
    requires WellFormed(incoming) && i < |incoming|
    ensures
      var rows := Rows(g, incoming, nextFile).0;
      var k := incoming[i].versionKey;
      k in rows && rows[k] == Row(g, incoming[i], rows[k].id)
    decreases |incoming|
  {
    if i < |incoming| - 1 {
      RowsFind(g, incoming[..|incoming| - 1], nextFile, i);
    }
  }

  lemma {:induction false} RowsKeys(g: Group, incoming: seq<Incoming>, nextFile: nat)
    ensures Rows(g, incoming, nextFile).0.Keys == Keys(incoming)
    decreases |incoming|
  {
    if incoming != [] {
      var n := |incoming| - 1;
      RowsKeys(g, incoming[..n], nextFile);
      assert Keys(incoming) == Keys(incoming[..n]) + {incoming[n].versionKey};
    }
  }

  lemma WrittenKeepsChoice(g: Group, status: GroupStatus, reason: string, incoming: seq<Incoming>, nextFile: nat,
                           id: nat, key: string)
    requires WellFormed(incoming) && !Choice(map[id := g], id, key).Unset?
    ensures Choice(map[id := Written(g, status, reason, incoming, nextFile)], id, key) == Choice(map[id := g], id, key)
  {
    RowsKeys(g, incoming, nextFile);
    if key in Keys(incoming) {
      var i :| 0 <= i < |incoming| && incoming[i].versionKey == key;
      RowsFind(g, incoming, nextFile, i);
    }
  }

  predicate Forgets(e: Event, id: nat) {
    (e.Override? && e.id == id) || (e.Delete? && e.id == id)
  }

  /** Cancelling touches neither versions nor choices. */
  lemma CancelKeepsRows(db: Db, hits: set<nat>, message: string, now: int)
    ensures
      var t := Cancel(db, hits, message, now);
      && t.groups.Keys == db.groups.Keys && t.ids == db.ids
      && forall g <- db.groups ::
           && t.groups[g].files == db.groups[g].files && t.groups[g].retained == db.groups[g].retained
           && (t.groups[g].status == db.groups[g].status || (db.groups[g].status.Queued? && t.groups[g].status.ToDecide?))
  {
  }

  /** What a scan writes, in the end: cancelling may still reopen the group. */
  ghost predicate Wrote(groups: map<nat, Group>, after: map<nat, Group>, id: nat, written: Group) {
    && after.Keys == groups.Keys + {id}
    && after[id].files == written.files && after[id].retained == written.retained
    && (after[id].status == written.status || (written.status.Queued? && after[id].status.ToDecide?))
    && forall g <- groups | g != id :: after[g].files == groups[g].files && after[g].retained == groups[g].retained
  }

  lemma SettleKeepsRows(db: Db, id: nat, message: string, now: int)
    requires id in db.groups
    ensures Wrote(db.groups, Settle(db, id, message, now).groups, id, db.groups[id])
    ensures Settle(db, id, message, now).ids == db.ids
  {
    hide Cancel, StaleIn, PendingIn;
    CancelKeepsRows(db, PendingIn(db.actions, {id}), message, now);
    var u := AfterStatusChange(db, id, db.groups[id].status, message, now);
    CancelKeepsRows(u, StaleIn(u, id), STALE, now);
  }

  lemma WroteOver(groups: map<nat, Group>, after: map<nat, Group>, id: nat, written: Group)
    requires Wrote(groups[id := written], after, id, written) || after == groups[id := written]
    ensures Wrote(groups, after, id, written)
  {
  }

  lemma ScanWrites(db: Db, key: string, wanted: GroupStatus, reason: string, incoming: seq<Incoming>,
                   message: string, now: int)
    requires key in db.ids ==> db.ids[key] in db.groups
    ensures
      var t := WriteGroup(db, key, wanted, reason, incoming, message, now);
      && t.ids == db.ids[key := IdFor(db, key)]
      && Wrote(db.groups, t.groups, IdFor(db, key), Written(Stored(db, key), wanted, reason, incoming, db.nextFile))
  {
    var written := Written(Stored(db, key), wanted, reason, incoming, db.nextFile);
    var id := IdFor(db, key);
    var t := db.(groups := db.groups[id := written], nextFile := Rows(Stored(db, key), incoming, db.nextFile).1);
    if key in db.ids {
      SettleKeepsRows(t, id, message, now);
      assert db.ids[key := id] == db.ids;
    }
    hide Written, Rows, Settle, Stored, Wrote;
    WroteOver(db.groups, WriteGroup(db, key, wanted, reason, incoming, message, now).groups, id, written);
  }

  lemma WroteKeepsChoice(groups: map<nat, Group>, after: map<nat, Group>, to: nat, status: GroupStatus, reason: string,
                         incoming: seq<Incoming>, nextFile: nat, g: Group, id: nat, key: string)
    requires to in groups ==> groups[to] == g
    requires WellFormed(incoming) && Wrote(groups, after, to, Written(g, status, reason, incoming, nextFile))
    requires !Choice(groups, id, key).Unset?
    ensures Choice(after, id, key) == Choice(groups, id, key)
  {
    if id == to {
      assert Choice(map[id := g], id, key) == Choice(groups, id, key);
      WrittenKeepsChoice(g, status, reason, incoming, nextFile, id, key);
    }
  }

  lemma ScanKeepsChoice(db: Db, name: string, status: Option<GroupStatus>, reason: string, incoming: seq<Incoming>,
                        message: string, now: int, id: nat, key: string)
    requires Inv(db) && !Choice(db.groups, id, key).Unset?
    ensures Choice(Upsert(db, name, status, reason, incoming, message, now).0.groups, id, key) == Choice(db.groups, id, key)
  {
    if !Blank(name) && WellFormed(incoming) {
      var t := WriteGroup(db, name, Wanted(status), reason, incoming, message, now);
      ScanWrites(db, name, Wanted(status), reason, incoming, message, now);
      WroteKeepsChoice(db.groups, t.groups, IdFor(db, name), Wanted(status), reason, incoming, db.nextFile,
                       Stored(db, name), id, key);
    }
    hide Choice, Wrote, Written, WellFormed, WriteGroup;
  }

  lemma StatusKeepsChoice(db: Db, h: nat, status: GroupStatus, reason: string, message: string, now: int, id: nat, key: string)
    ensures Choice(UpdateStatus(db, h, status, reason, message, now).0.groups, id, key) == Choice(db.groups, id, key)
  {
  }

  lemma UpdateKeepsChoice(db: Db, u: nat, a: Action, now: int, id: nat, key: string)
    ensures Choice(Update(db, u, a, now).0.groups, id, key) == Choice(db.groups, id, key)
  {
    hide Removable, TransitionOk, Cancel, Reopen;
    CancelKeepsRows(db, {u}, STALE, now);
    ReopenKeepsRows(db.groups, db.actions[u := a], {a.groupId});
  }

  lemma OtherKeepsChoice(db: Db, e: Event, id: nat, key: string)
    requires !Forgets(e, id) && !e.Scan? && !e.SetStatus? && !e.SetStatusIf?
    ensures Choice(Next(db, e).groups, id, key) == Choice(db.groups, id, key)
  {
    hide Removable, PendingIn, StaleIn, Active, Cancel, Update;
    match e
    case UpdateAction(u, a, now) => UpdateKeepsChoice(db, u, a, now, id, key);
    case CancelOne(u, now) => CancelKeepsRows(db, {u}, BY_USER, now);
    case CancelGroup(g, message, now) => CancelKeepsRows(db, PendingIn(db.actions, {g}), message, now);
    case Cover(covered, message, now) => CancelKeepsRows(db, PendingIn(db.actions, covered), message, now);
    case Override(g, fileId, choice, now) => OverrideKeepsOthers(db, g, fileId, choice, now);
    case Unseen(unseen, reason, message, now) => UnseenKeepsRows(db, unseen, reason, message, now);
    case Delete(g, message, now) => DeleteKeepsOthers(db, g, message, now);
    case _ =>
  }

  lemma ReopenKeepsRows(groups: map<nat, Group>, actions: map<nat, Action>, touched: set<nat>)
    ensures
      var t := Reopen(groups, actions, touched);
      t.Keys == groups.Keys && forall g <- groups :: t[g].files == groups[g].files && t[g].retained == groups[g].retained
  {
  }

  lemma OverrideKeepsOthers(db: Db, id: nat, fileId: nat, choice: Decision, now: int)
    ensures
      var t := SetOverride(db, id, fileId, choice, now).0.groups;
      && t.Keys == db.groups.Keys
      && forall g <- db.groups | g != id :: t[g].files == db.groups[g].files && t[g].retained == db.groups[g].retained
  {
    if id in db.groups {
      var g := db.groups[id];
      var t := db.(groups := db.groups[id := g.(files := ChooseFile(g.files, fileId, choice))]);
      CancelKeepsRows(t, StaleIn(t, id), STALE, now);
      hide Cancel, StaleIn, ChooseFile;
    }
  }

  lemma UnseenKeepsRows(db: Db, unseen: set<nat>, reason: string, message: string, now: int)
    ensures
      var t := ResolveUnseen(db, unseen, reason, message, now).groups;
      && t.Keys == db.groups.Keys
      && forall g <- db.groups :: t[g].files == db.groups[g].files && t[g].retained == db.groups[g].retained
  {
    var ids := set g | g in unseen && g in db.groups && !Closed(db.groups[g].status);
    var groups := map g | g in db.groups ::
      if g in ids then db.groups[g].(status := Resolved, reason := reason) else db.groups[g];
    CancelKeepsRows(db.(groups := groups), PendingIn(db.actions, ids), message, now);
    hide Cancel, PendingIn;
  }

  lemma DeleteKeepsOthers(db: Db, id: nat, message: string, now: int)
    ensures
      var t := DeleteGroup(db, id, message, now).0.groups;
      && (forall g <- db.groups | g != id :: g in t && t[g].files == db.groups[g].files && t[g].retained == db.groups[g].retained)
      && (forall g <- t :: g in db.groups)
  {
    if id in db.groups {
      var t := db.(groups := db.groups - {id}, ids := db.ids - {db.groups[id].key});
      CancelKeepsRows(t, PendingIn(t.actions, {id}), message, now);
      hide Cancel, PendingIn;
    }
  }

  lemma ChoiceKept(db: Db, e: Event, id: nat, key: string)
    requires Inv(db) && !Forgets(e, id) && !Choice(db.groups, id, key).Unset?
    ensures Choice(Next(db, e).groups, id, key) == Choice(db.groups, id, key)
  {
    match e
    case Scan(name, status, reason, incoming, message, now) =>
      ScanKeepsChoice(db, name, status, reason, incoming, message, now, id, key);
    case SetStatus(h, status, reason, message, now) => StatusKeepsChoice(db, h, status, reason, message, now, id, key);
    case SetStatusIf(h, _, status, reason, message, now) =>
      StatusKeepsChoice(db, h, status, reason, message, now, id, key);
    case _ => OtherKeepsChoice(db, e, id, key);
  }

  /** A choice the user made about a version survives any number of scans, also while the version is
      gone, until the user makes another or the group is deleted. */
  lemma {:induction false} ChoiceSurvives(db: Db, es: seq<Event>, id: nat, key: string)
    requires Inv(db) && !Choice(db.groups, id, key).Unset?
    requires forall e <- es :: !Forgets(e, id)
    ensures Choice(Run(db, es).groups, id, key) == Choice(db.groups, id, key)
    decreases |es|
  {
    if es != [] {
      ChoiceKept(db, es[0], id, key);
      NextKeeps(db, es[0]);
      ChoiceSurvives(Next(db, es[0]), es[1..], id, key);
    }
  }

  /** A scan never leaves an open group of versions without one to keep, other than for review. */
  lemma ScanLeavesKeeper(db: Db, key: string, status: Option<GroupStatus>, reason: string, incoming: seq<Incoming>,
                         message: string, now: int)
    requires Inv(db) && |incoming| > 0
    requires Upsert(db, key, status, reason, incoming, message, now).1 == Done
    ensures
      var t := Upsert(db, key, status, reason, incoming, message, now).0;
      && key in t.ids && t.ids[key] in t.groups
      && var g := t.groups[t.ids[key]];
         && g.files.Keys == Keys(incoming)
         && (!Closed(g.status) && !g.status.Review? ==> exists k <- g.files :: g.files[k].decision.Keep?)
  {
    var g := Stored(db, key);
    ScanWrites(db, key, Wanted(status), reason, incoming, message, now);
    RowsKeys(g, incoming, db.nextFile);
    hide WriteGroup, Rows, Keys, WellFormed;
    if !NoKeeper(g, incoming) {
      var i :| 0 <= i < |incoming| && DecisionFor(g, incoming[i]).Keep?;
      RowsFind(g, incoming, db.nextFile, i);
    }
  }
}
