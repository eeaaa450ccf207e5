/** Staging a restore and confirming it: what a start may find staged, and who agreed to it.

    A folder is built under a temporary name and renamed into place. Removing a folder is one step; the
    program may die between any two. */
module RestoreStaging {
  import opened Wrappers

  /** A folder: the files in it, and `security`, the fingerprint of the security settings it was staged
      under (only a restore that awaits confirmation has it). */
  datatype Folder = Folder(id: nat, config: bool, db: bool, security: Option<nat>, unconfirmed: bool)

  /** The steps of stage, in order. */
  datatype Phase = Building | HasConfig | HasDb | HasSecurity | HasMarker | Aside

  datatype Op = Idle | Staging(confirmed: bool, phase: Phase) | Confirming(id: nat)

  /** `agreed` are the restores staged as confirmed, or confirmed later while the security settings were
      what they were at staging; `applied` those a start swapped in. */
  datatype State = State(
    staged: Option<Folder>, temp: Option<Folder>, op: Op, security: nat, nextId: nat,
    agreed: set<nat>, applied: set<nat>)

  function Initial(security: nat): State {
    State(None, None, Idle, security, 0, {}, {})
  }

  datatype Event =
    | Begin(confirmed: bool)
    | WriteConfig
    | WriteDb
    | WriteSecurity
    | WriteMarker
    | MoveAside
    | Promote
    | Fail                        // staging gives up and removes its folder
    | Check                       // ConfirmRestore reads the fingerprint and compares
    | RemoveMarker
    | Discard
    | ChangeSecurity(to: nat)     // settings change at any time
    | Restart                     // a crash or a stop, and the next start

  predicate Complete(f: Folder) {
    f.config && f.db
  }

  predicate At(s: State, phase: Phase) {
    s.op.Staging? && s.op.phase == phase && s.temp.Some?
  }

  /** May the temporary folder be renamed into place? */
  predicate Promotable(s: State) {
    s.op.Staging? && s.temp.Some? && s.staged.None?
    && (s.op.phase.Aside? || s.op.phase == if s.op.confirmed then HasDb else HasMarker)
  }

  function Next(s: State, e: Event): Option<State> {
    match e
    case Begin(confirmed) =>
      if !s.op.Idle? then None
      else
        Some(s.(op := Staging(confirmed, Building), temp := Some(Folder(s.nextId, false, false, None, false)),
                nextId := s.nextId + 1))
    case WriteConfig =>
      if !At(s, Building) then None
      else Some(s.(op := s.op.(phase := HasConfig), temp := Some(s.temp.value.(config := true))))
    case WriteDb =>
      if !At(s, HasConfig) then None
      else Some(s.(op := s.op.(phase := HasDb), temp := Some(s.temp.value.(db := true))))
    case WriteSecurity =>
      if !At(s, HasDb) || s.op.confirmed then None
      else Some(s.(op := s.op.(phase := HasSecurity), temp := Some(s.temp.value.(security := Some(s.security)))))
    case WriteMarker =>
      if !At(s, HasSecurity) then None
      else Some(s.(op := s.op.(phase := HasMarker), temp := Some(s.temp.value.(unconfirmed := true))))
    case MoveAside =>
      if s.staged.None? || !(s.op.Staging? && At(s, if s.op.confirmed then HasDb else HasMarker)) then None
      else Some(s.(op := s.op.(phase := Aside), staged := None))
    case Promote =>
      if !Promotable(s) then None
      else
        Some(s.(staged := s.temp, temp := None, op := Idle,
                agreed := if s.op.confirmed then s.agreed + {s.temp.value.id} else s.agreed))
    case Fail => if !s.op.Staging? then None else Some(s.(op := Idle, temp := None))
    case Check =>
      if !s.op.Idle? || s.staged.None? || !Complete(s.staged.value) || !s.staged.value.unconfirmed then None
      else if s.staged.value.security != Some(s.security) then Some(s.(staged := None))
      else Some(s.(op := Confirming(s.staged.value.id), agreed := s.agreed + {s.staged.value.id}))
    case RemoveMarker =>
      if !s.op.Confirming? || s.staged.None? then None
      else Some(s.(op := Idle, staged := Some(s.staged.value.(unconfirmed := false))))
    case Discard => if !s.op.Idle? then None else Some(s.(staged := None))
    case ChangeSecurity(to) => Some(s.(security := to))
    case Restart =>
      var t := s.(op := Idle, temp := None, staged := None);
      if s.staged.Some? && Complete(s.staged.value) && !s.staged.value.unconfirmed
      then Some(t.(applied := s.applied + {s.staged.value.id}))
      else Some(t)
  }

  function Run(s: State, es: seq<Event>): Option<State>
    decreases |es|
  {
    if es == [] then Some(s)
    else
      match Next(s, es[0])
      case None => None
      case Some(t) => Run(t, es[1..])
  }

  /** How far the temporary folder has got. */
  predicate TempOk(s: State) {
    s.op.Staging? ==>
      && s.temp.Some?
      && (s.temp.value.unconfirmed ==> s.temp.value.security.Some?)
      && (s.op.phase.HasDb? || s.op.phase.HasSecurity? || s.op.phase.HasMarker? || s.op.phase.Aside? ==> Complete(s.temp.value))
      && (s.op.phase.HasConfig? ==> s.temp.value.config)
      && (s.op.phase.HasSecurity? ==> !s.op.confirmed && s.temp.value.security.Some?)
      && (s.op.phase.HasMarker? || (s.op.phase.Aside? && !s.op.confirmed) ==>
            !s.op.confirmed && s.temp.value.security.Some? && s.temp.value.unconfirmed)
  }

  predicate StagedOk(s: State) {
    && (s.staged.Some? ==>
          && Complete(s.staged.value)
          && (s.staged.value.unconfirmed ==> s.staged.value.security.Some?)
          && (!s.staged.value.unconfirmed ==> s.staged.value.id in s.agreed))
    && (s.op.Confirming? ==> s.staged.Some? && s.staged.value.id == s.op.id && s.op.id in s.agreed)
  }

  predicate Inv(s: State) {
    TempOk(s) && StagedOk(s) && s.applied <= s.agreed
  }

  lemma NextKeeps(s: State, e: Event)
    requires Inv(s) && Next(s, e).Some?
    ensures Inv(Next(s, e).value)
  {
  }

  lemma {:induction false} RunKeeps(s: State, es: seq<Event>)
    requires Inv(s) && Run(s, es).Some?
    ensures Inv(Run(s, es).value)
    decreases |es|
  {
    if es != [] {
      NextKeeps(s, es[0]);
      RunKeeps(Next(s, es[0]).value, es[1..]);
    }
  }

  /** However stagings, confirmations and crashes follow each other: what is staged is complete and, if
      it awaits confirmation, marked so; and a start applies only what was staged as confirmed, or was
      confirmed under the security settings it was reviewed under. */
  lemma OnlyAgreedIsApplied(security: nat, es: seq<Event>)
    requires Run(Initial(security), es).Some?
    ensures
      var s := Run(Initial(security), es).value;
      && s.applied <= s.agreed
      && (s.staged.Some? ==> Complete(s.staged.value) && (s.staged.value.unconfirmed || s.staged.value.id in s.agreed))
  {
    RunKeeps(Initial(security), es);
  }

  /** A restore that awaits confirmation is agreed to only by a check that finds the security settings as
      they were when it was staged. */
  lemma AgreementNeedsSameSecurity(s: State, e: Event, id: nat)
    requires Inv(s) && Next(s, e).Some? && id in Next(s, e).value.agreed && id !in s.agreed
    ensures (e.Promote? && s.op.confirmed && s.temp.value.id == id)
            || (e.Check? && s.staged.value.id == id && s.staged.value.security == Some(s.security))
  {
  }

  /** The confirmation takes effect one step later, with the marker gone, and the next start applies it.
      Whatever the settings become between the two, it does. */
  lemma SettingsMayChangeAfterCheck(s: State, to: nat)
    requires Inv(s) && Next(s, Check).Some? && Next(s, Check).value.op.Confirming?
    ensures s.staged.value.security == Some(s.security)
    ensures
      var r := Run(s, [Check, ChangeSecurity(to), RemoveMarker, Restart]);
      r.Some? && r.value.security == to && s.staged.value.id in r.value.applied
  {
    var checked := Next(s, Check).value;
    var changed := Next(checked, ChangeSecurity(to)).value;
    var unmarked := Next(changed, RemoveMarker).value;
    assert [Restart][1..] == [] && [RemoveMarker, Restart][1..] == [Restart];
    assert Run(unmarked, [Restart]) == Next(unmarked, Restart);
    assert Run(changed, [RemoveMarker, Restart]) == Next(unmarked, Restart);
    assert [Check, ChangeSecurity(to), RemoveMarker, Restart][1..] == [ChangeSecurity(to)] + [RemoveMarker, Restart];
    assert ([ChangeSecurity(to)] + [RemoveMarker, Restart])[1..] == [RemoveMarker, Restart];
  }

  /** Staging that fails or dies before it moves the folder staged before aside leaves that one as it was:
      giving up keeps it, and a crash does to it what it would have done had nothing been staged. */
  lemma {:induction false} FailedStagingKeepsOld(s: State, es: seq<Event>)
    requires s.op.Staging? && Run(s, es).Some?
    requires forall e <- es :: e.WriteConfig? || e.WriteDb? || e.WriteSecurity? || e.WriteMarker? || e.ChangeSecurity?
    ensures
      var t := Run(s, es).value;
      && t.op.Staging? && t.staged == s.staged
      && Next(t, Fail).Some? && Next(t, Fail).value.staged == s.staged
      && Next(t, Restart).value.applied == Next(s.(op := Idle, temp := None), Restart).value.applied
    decreases |es|
  {
    if es != [] {
      assert es[0] in es;
      FailedStagingKeepsOld(Next(s, es[0]).value, es[1..]);
    }
  }

  // ----- What staging and confirming come to, undisturbed -----

  lemma RunFirst(s: State, e: Event, es: seq<Event>)
    ensures Run(s, [e] + es) == if Next(s, e).None? then None else Run(Next(s, e).value, es)
  {
    hide Next;
    assert ([e] + es)[1..] == es;
  }

  /** The steps of one staging; a folder staged before is moved aside. */
  function Steps(confirmed: bool, aside: bool): seq<Event> {
    [Begin(confirmed)] + ([WriteConfig] + ([WriteDb] + Marking(confirmed, aside)))
  }

  function Marking(confirmed: bool, aside: bool): seq<Event> {
    if confirmed then Placing(aside) else [WriteSecurity] + ([WriteMarker] + Placing(aside))
  }

  function Placing(aside: bool): seq<Event> {
    if aside then [MoveAside] + ([Promote] + []) else [Promote] + []
  }

  /** What is staged then: a complete folder; unless it is confirmed at once it awaits confirmation, under
      the security settings of its staging. */
  function StagedAs(s: State, confirmed: bool): Folder {
    Folder(s.nextId, true, true, if confirmed then None else Some(s.security), !confirmed)
  }

  /** Undisturbed, staging ends with the new folder in place of any other, agreed to if and only if it was
      confirmed at once; and it applies nothing. */
  lemma StagingStages(s: State, confirmed: bool)
    requires s.op.Idle?
    ensures
      Run(s, Steps(confirmed, s.staged.Some?))
      == Some(s.(staged := Some(StagedAs(s, confirmed)), temp := None, nextId := s.nextId + 1,
                 agreed := if confirmed then s.agreed + {s.nextId} else s.agreed))
  {
    var built := s.(op := Staging(confirmed, HasDb), temp := Some(Folder(s.nextId, true, true, None, false)),
                    nextId := s.nextId + 1);
    BuildingBuilds(s, confirmed);
    MarkingMarks(built);
    hide Run, Marking, Steps;
  }

  lemma BuildingBuilds(s: State, confirmed: bool)
    requires s.op.Idle?
    ensures
      Run(s, Steps(confirmed, s.staged.Some?))
      == Run(s.(op := Staging(confirmed, HasDb), temp := Some(Folder(s.nextId, true, true, None, false)),
                nextId := s.nextId + 1),
             Marking(confirmed, s.staged.Some?))
  {
    var id, rest := s.nextId, Marking(confirmed, s.staged.Some?);
    var a := s.(op := Staging(confirmed, Building), temp := Some(Folder(id, false, false, None, false)), nextId := id + 1);
    var b := a.(op := Staging(confirmed, HasConfig), temp := Some(Folder(id, true, false, None, false)));
    hide Run, Marking;
    RunFirst(s, Begin(confirmed), [WriteConfig] + ([WriteDb] + rest));
    RunFirst(a, WriteConfig, [WriteDb] + rest);
    RunFirst(b, WriteDb, rest);
  }

  lemma MarkingMarks(s: State)
    requires s.op.Staging? && s.op.phase == HasDb && s.temp.Some?
    requires s.temp.value.security.None? && !s.temp.value.unconfirmed
    ensures
      var f := s.temp.value;
      Run(s, Marking(s.op.confirmed, s.staged.Some?))
      == Some(s.(staged := Some(if s.op.confirmed then f else f.(security := Some(s.security), unconfirmed := true)),
                 temp := None, op := Idle, agreed := if s.op.confirmed then s.agreed + {f.id} else s.agreed))
  {
    var f, aside := s.temp.value, s.staged.Some?;
    hide Run, Placing;
    if s.op.confirmed {
      PlacingPlaces(s);
    } else {
      var d := s.(op := Staging(false, HasSecurity), temp := Some(f.(security := Some(s.security))));
      var e := d.(op := Staging(false, HasMarker), temp := Some(f.(security := Some(s.security), unconfirmed := true)));
      RunFirst(s, WriteSecurity, [WriteMarker] + Placing(aside));
      RunFirst(d, WriteMarker, Placing(aside));
      PlacingPlaces(e);
    }
  }

  lemma PlacingPlaces(s: State)
    requires s.op.Staging? && s.temp.Some? && s.op.phase == if s.op.confirmed then HasDb else HasMarker
    ensures
      Run(s, Placing(s.staged.Some?))
      == Some(s.(staged := s.temp, temp := None, op := Idle,
                 agreed := if s.op.confirmed then s.agreed + {s.temp.value.id} else s.agreed))
  {
    var m := s.(op := s.op.(phase := Aside), staged := None);
    RunFirst(s, MoveAside, [Promote] + []);
    RunFirst(m, Promote, []);
    RunFirst(s, Promote, []);
  }

  /** A confirmation under the settings of the staging is agreed to and clears the marker, so that the next
      start applies the restore; under other settings what is staged is gone, and no start applies it. */
  lemma ConfirmingConfirms(s: State)
    requires Inv(s) && s.op.Idle? && s.staged.Some? && s.staged.value.unconfirmed
    ensures
      var f := s.staged.value;
      if f.security == Some(s.security) then
        Run(s, [Check] + ([RemoveMarker] + []))
        == Some(s.(staged := Some(f.(unconfirmed := false)), agreed := s.agreed + {f.id}))
      else
        Next(s, Check) == Some(s.(staged := None)) && Next(Next(s, Check).value, Restart).value.applied == s.applied
  {
    if s.staged.value.security == Some(s.security) {
      RunFirst(s, Check, [RemoveMarker] + []);
      RunFirst(Next(s, Check).value, RemoveMarker, []);
    }
  }

  /** A start applies exactly a complete folder that awaits no confirmation, and leaves nothing staged. Giving
      up and discarding remove their folder and nothing else. */
  lemma EndsAreClean(s: State)
    ensures
      var t := Next(s, Restart).value;
      && t.staged.None? && t.temp.None? && t.op.Idle? && t.agreed == s.agreed && t.security == s.security
      && t.applied == (if s.staged.Some? && s.staged.value.config && s.staged.value.db && !s.staged.value.unconfirmed
                       then s.applied + {s.staged.value.id} else s.applied)
    ensures s.op.Staging? ==> Next(s, Fail) == Some(s.(op := Idle, temp := None))
    ensures s.op.Idle? ==> Next(s, Discard) == Some(s.(staged := None))
  {
  }

}
