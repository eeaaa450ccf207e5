/** The action and group repositories as the program runs them: tables changed in place, one
    transaction a method. */
module ActionTables {
  import opened Wrappers
  import opened ActionStore

  lemma LeavingNone(files: map<string, File>, incoming: seq<Incoming>)
    ensures Leaving(files, incoming, {}) == map[]
  {
  }

  lemma LeavingMore(files: map<string, File>, incoming: seq<Incoming>, kept: map<string, Decision>, gone: set<string>, k: string)
    requires k in files && k !in gone
    ensures
      var before := kept + Leaving(files, incoming, gone);
      kept + Leaving(files, incoming, gone + {k})
      == if k !in Keys(incoming) && !files[k].choice.Unset? then before[k := files[k].choice] else before
  {
  }

  class Store {
    var actions: map<nat, Action>
    var groups: map<nat, Group>
    var ids: map<string, nat>
    var nextAction: nat
    var nextGroup: nat
    var nextFile: nat

    function Tables(): Db
      reads this
    {
      Db(actions, groups, ids, nextAction, nextGroup, nextFile)
    }

    constructor ()
      ensures Tables() == EMPTY
    {
      actions, groups, ids := map[], map[], map[];
      nextAction, nextGroup, nextFile := 1, 1, 1;
    }

    /** The update of cancelActions, row by row, with the groups it returns. */
    method CancelEach(hits: set<nat>, message: string, now: int) returns (n: nat, touched: set<nat>)
      requires hits <= actions.Keys
      modifies this`actions
      ensures actions == CancelRows(old(actions), hits, message, now)
      ensures n == |hits| && touched == GroupsOf(old(actions), hits)
    {
      ghost var before := actions;
      var left := hits;
      n, touched := 0, {};
      while left != {}
        invariant left <= hits && n + |left| == |hits|
        invariant actions == CancelRows(before, hits - left, message, now)
        invariant touched == GroupsOf(before, hits - left)
        decreases |left|
      {
        var a :| a in left;
        assert hits - (left - {a}) == (hits - left) + {a};
        touched := touched + {actions[a].groupId};
        actions := actions[a := actions[a].(status := Cancelled, finishedAt := Some(now), message := message)];
        n := n + 1;
        left := left - {a};
      }
      assert hits - left == hits;
    }

    method CancelActions(hits: set<nat>, message: string, now: int) returns (n: nat)
      requires hits <= actions.Keys
      modifies this
      ensures Tables() == Cancel(old(Tables()), hits, message, now)
      ensures n == |hits|
    {
      var touched;
      n, touched := CancelEach(hits, message, now);
      ReopenEmptiedGroups(touched);
    }

    method ReopenEmptiedGroups(touched: set<nat>)
      modifies this`groups
      ensures groups == Reopen(old(groups), actions, touched)
    {
      ghost var before := groups;
      var left := touched;
      while left != {}
        invariant left <= touched
        invariant groups == Reopen(before, actions, touched - left)
        decreases |left|
      {
        var g :| g in left;
        if g in groups && groups[g].status.Queued? && !Active(actions, g) {
          groups := groups[g := groups[g].(status := ToDecide, reason := REOPENED)];
        }
        left := left - {g};
      }
      assert touched - left == touched;
    }

    method CreateAction(a: Action) returns (r: Result)
      modifies this
      ensures (Tables(), r) == Create(old(Tables()), a)
    {
      if IsQueued(a.status) {
        if !Removable(groups, a.groupId, a.fileId, a.versionKey) {
          return NotRemovable;
        }
      }
      actions := actions[nextAction := a];
      nextAction := nextAction + 1;
      r := Done;
    }

    method UpdateAction(id: nat, a: Action, now: int) returns (r: Result)
      modifies this
      ensures (Tables(), r) == Update(old(Tables()), id, a, now)
    {
      if id !in actions {
        return NotFound;
      }
      var current := actions[id].status;
      if !TransitionOk(current, a.status) {
        return NotPending;
      }
      if a.status == Pending || (a.status == Running && current == Pending) {
        if !Removable(groups, a.groupId, a.fileId, a.versionKey) {
          if !IsQueued(current) {
            return NotRemovable;
          }
          var n := CancelActions({id}, STALE, now);
          return CancelledInstead;
        }
      }
      actions := actions[id := a];
      if a.status == Cancelled && current != Cancelled {
        ReopenEmptiedGroups({a.groupId});
      }
      r := Done;
    }

    method CancelOne(id: nat, now: int) returns (r: Result)
      modifies this
      ensures (Tables(), r) == CancelIfPending(old(Tables()), id, now)
    {
      if id in actions && actions[id].status == Pending {
        var n := CancelActions({id}, BY_USER, now);
        return Done;
      }
      r := if id in actions then NotPending else NotFound;
    }

    method SetStatus(id: nat, status: GroupStatus, reason: string, message: string, now: int) returns (r: Result)
      modifies this
      ensures (Tables(), r) == UpdateStatus(old(Tables()), id, status, reason, message, now)
    {
      if id !in groups {
        return NotFound;
      }
      groups := groups[id := groups[id].(status := status, reason := reason)];
      if BlocksRemovals(status) {
        var n := CancelActions(PendingIn(actions, {id}), message, now);
      }
      r := Done;
    }

    /** The rows a scan writes; a choice put aside is taken up again by the row. */
    method MergeFiles(g: Group, incoming: seq<Incoming>) returns (files: map<string, File>, retained: map<string, Decision>)
      modifies this`nextFile
      ensures (files, nextFile) == Rows(g, incoming, old(nextFile))
      ensures retained == g.retained - Keys(incoming)
    {
      files, retained := map[], g.retained;
      ghost var first := nextFile;
      for i := 0 to |incoming|
        invariant (files, nextFile) == Rows(g, incoming[..i], first)
        invariant retained == g.retained - Keys(incoming[..i])
      {
        var f := incoming[i];
        assert incoming[..i + 1][..i] == incoming[..i] && incoming[..i + 1][i] == f;
        assert Keys(incoming[..i + 1]) == Keys(incoming[..i]) + {f.versionKey};
        if f.versionKey in g.files {
          files := files[f.versionKey := Row(g, f, g.files[f.versionKey].id)];
        } else {
          files := files[f.versionKey := Row(g, f, nextFile)];
          nextFile := nextFile + 1;
        }
        retained := retained - {f.versionKey};
      }
      assert incoming[..|incoming|] == incoming;
    }

    /** The choices about versions that leave the group are put aside. */
    method PutAside(g: Group, incoming: seq<Incoming>, kept: map<string, Decision>) returns (retained: map<string, Decision>)
      requires kept == g.retained - Keys(incoming)
      ensures retained == Retained(g, incoming)
    {
      retained := kept;
      var left := g.files.Keys;
      ghost var gone: set<string> := {};
      LeavingNone(g.files, incoming);
      hide Leaving;
      while left != {}
        invariant left <= g.files.Keys && gone == g.files.Keys - left
        invariant retained == kept + Leaving(g.files, incoming, gone)
        decreases |left|
      {
        var k :| k in left;
        LeavingMore(g.files, incoming, kept, gone, k);
        if k !in Keys(incoming) && g.files[k].choice != Unset {
          retained := retained[k := g.files[k].choice];
        }
        left, gone := left - {k}, gone + {k};
      }
      assert gone == g.files.Keys;
    }

    method CancelWhatChanged(id: nat, message: string, now: int)
      requires id in groups
      modifies this
      ensures Tables() == Settle(old(Tables()), id, message, now)
    {
      if BlocksRemovals(groups[id].status) {
        var n := CancelActions(PendingIn(actions, {id}), message, now);
      }
      var n := CancelActions(StaleIn(Tables(), id), STALE, now);
    }

    method Scan(key: string, status: Option<GroupStatus>, reason: string, incoming: seq<Incoming>,
                message: string, now: int) returns (r: Result)
      requires IndexOk(groups, ids, nextGroup)
      modifies this
      ensures (Tables(), r) == Upsert(old(Tables()), key, status, reason, incoming, message, now)
    {
      if Blank(key) || !WellFormed(incoming) {
        return Refused;
      }
      var wanted := match status case None => Review case Some(s) => s;
      var g := if key in ids then groups[ids[key]] else Group(key, ToDecide, "", map[], map[]);
      var why := reason;
      if g.status == Ignored {
        wanted, why := Ignored, g.reason;
      }
      var files, kept := MergeFiles(g, incoming);
      var retained := PutAside(g, incoming, kept);
      if !Closed(wanted) && NoKeeper(g, incoming) {
        wanted, why := Review, NO_KEEPER;
      }
      var written := Group(key, wanted, why, files, retained);
      assert written == Written(g, Wanted(status), reason, incoming, old(nextFile));
      hide Written, Rows, Retained, NoKeeper, Saved;
      SaveGroup(key, written, message, now);
      r := Done;
    }

    /** A known group is overwritten, and the queue brought into line; a new one gets the next id. */
    method SaveGroup(key: string, written: Group, message: string, now: int)
      modifies this
      ensures Tables() == Saved(old(Tables()), key, written, message, now)
    {
      if key !in ids {
        groups, ids := groups[nextGroup := written], ids[key := nextGroup];
        nextGroup := nextGroup + 1;
        return;
      }
      var id := ids[key];
      groups := groups[id := written];
      CancelWhatChanged(id, message, now);
    }
  }
}
