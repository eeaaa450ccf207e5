/** What a restore takes from a backup's config.xml, decided before anything is written. */
module RestorePlan {
  import opened Wrappers
  import opened Text
  import opened Config
  import opened ConfigManager
  import opened ConfigDocument

  datatype User = User(name: string, hash: string)

  datatype Setting = Users | One(f: Index)

  /** A difference between the backup and the running instance, as it is shown to the administrator.
      Secrets are left out. */
  datatype Change = Change(setting: Setting, current: Option<Value>, backup: Option<Value>, applied: bool)

  datatype Plan = Plan(final: Config, restoreUsers: bool, changes: seq<Change>, file: seq<Child>)

  /** The settings a restore keeps unless asked to restore the security settings. */
  const SECURITY: seq<Index> := [
    METHOD, REQUIRED, PROXIES, HOSTS, API_KEY, BIND, PORT, URL_BASE, ENABLE_SSL, SSL_PORT, SSL_CERT, SSL_KEY]

  /** Log settings are always restored, and shown. */
  const LOGGING: seq<Index> := [LOG_LEVEL, LOG_SIZE]

  predicate TrustList(f: Index) {
    f == PROXIES || f == HOSTS
  }

  /** May the backup's method be taken? Never one that asks nobody to sign in, nor Forms for nobody. */
  predicate MethodMayChange(backup: string, finalUsers: nat) {
    backup != "None" && backup != "External" && (backup == "Forms" ==> finalUsers > 0)
  }

  predicate Taken(f: Index, backup: Value, optIn: bool, finalUsers: nat) {
    optIn && !TrustList(f) && (f == METHOD && backup.S? ==> MethodMayChange(backup.s, finalUsers))
  }

  /** The value one security setting is staged with. */
  function Staged(f: Index, current: Value, backup: Value, optIn: bool, finalUsers: nat): Value {
    if Taken(f, backup, optIn, finalUsers) then backup else current
  }

  function Record(f: Index, current: Config, backup: Config, optIn: bool, finalUsers: nat): Change {
    var secret := f == API_KEY;
    Change(One(f), if secret then None else Some(current[f]), if secret then None else Some(backup[f]),
           Taken(f, backup[f], optIn, finalUsers))
  }

  function StageTo(current: Config, backup: Config, optIn: bool, finalUsers: nat, n: nat): (Config, seq<Change>)
    requires n <= |SECURITY|
  {
    if n == 0 then (backup, [])
    else
      var (c, changes) := StageTo(current, backup, optIn, finalUsers, n - 1);
      var f := SECURITY[n - 1];
      if current[f] == backup[f] then (c, changes)
      else
        (Put(c, f, Staged(f, current[f], backup[f], optIn, finalUsers)),
         changes + [Record(f, current, backup, optIn, finalUsers)])
  }

  /** The loop over the security settings: it reads and changes the one configuration. */
  method StageSettings(current: Config, backup: Config, optIn: bool, finalUsers: nat)
    returns (c: Config, changes: seq<Change>)
    ensures (c, changes) == StageTo(current, backup, optIn, finalUsers, |SECURITY|)
  {
    c, changes := backup, [];
    for n := 0 to |SECURITY|
      invariant (c, changes) == StageTo(current, backup, optIn, finalUsers, n)
      invariant forall i: Index | i !in SECURITY[..n] :: c[i] == backup[i]
    {
      var f := SECURITY[n];
      OncePerSetting(n);
      assert SECURITY[..n + 1] == SECURITY[..n] + [f];
      if c[f] != current[f] {
        var applied := optIn;
        if TrustList(f) {
          applied := false;
        }
        if f == METHOD && applied {
          if c[f].s == "None" || c[f].s == "External" {
            applied := false;
          } else if c[f].s == "Forms" && finalUsers == 0 {
            applied := false;
          }
        }
        changes := changes + [Change(One(f), if f == API_KEY then None else Some(current[f]),
                                     if f == API_KEY then None else Some(c[f]), applied)];
        c := Put(c, f, if applied then c[f] else current[f]);
      }
    }
  }

  lemma OncePerSetting(n: nat)
    requires n < |SECURITY|
    ensures SECURITY[n] !in SECURITY[..n]
  {
  }

  predicate SameUsers(live: seq<User>, backup: seq<User>) {
    |live| == |backup| && forall i | 0 <= i < |live| :: EqualFold(live[i].name, backup[i].name) && live[i].hash == backup[i].hash
  }

  /** A backup without users never empties the table of an instance that has some. */
  function RestoresUsers(optIn: bool, live: seq<User>, backup: seq<User>): bool {
    optIn && !(|backup| == 0 && |live| > 0)
  }

  function LogChanges(current: Config, final: Config): seq<Change> {
    LogChange(current, final, LOG_LEVEL) + LogChange(current, final, LOG_SIZE)
  }

  function LogChange(current: Config, final: Config, f: Index): seq<Change> {
    if current[f] == final[f] then [] else [Change(One(f), Some(current[f]), Some(final[f]), true)]
  }

  function Readable(file: Option<seq<Child>>, key: string): Option<Decoded> {
    if file.None? || Parse(file.value).None? then None else Decode(Parse(file.value).value, key)
  }

  /** Everything that comes with the call but the two files. `env` is None for a service without a
      configuration manager. */
  datatype Ask = Ask(
    isIp: IsIp, env: Option<Env>, current: Config, optIn: bool, liveUsers: seq<User>, backupUsers: seq<User>, key: string)

  function Problems(ask: Ask, final: Config): set<Problem> {
    if ask.env.Some? then CheckFile(ask.isIp, ask.env.value, State(ask.current, ask.current), final)
    else NewProblems(ask.isIp, ask.current, final)
  }

  function FinalUsers(ask: Ask): nat {
    if RestoresUsers(ask.optIn, ask.liveUsers, ask.backupUsers) then |ask.backupUsers| else |ask.liveUsers|
  }

  /** The file is printed onto the live one, or from scratch when that cannot be read. */
  function Base(live: Option<seq<Child>>, key: string): seq<Child> {
    if Readable(live, key).Some? then live.value else []
  }

  function Planned(ask: Ask, backup: Config): (Config, seq<Change>) {
    var (c, changes) := StageTo(ask.current, backup, ask.optIn, FinalUsers(ask), |SECURITY|);
    (Normalize(c), changes)
  }

  /** None: the backup is refused. */
  function PlanRestore(ask: Ask, data: Option<seq<Child>>, live: Option<seq<Child>>): Option<Plan> {
    var read := Readable(data, ask.key);
    if read.None? || NewProblems(ask.isIp, ask.current, read.value.c) != {} then None
    else
      var (final, changes) := Planned(ask, read.value.c);
      var file := RenderOnto(Base(live, ask.key), final, ask.key);
      if Problems(ask, final) != {} || file.None? || Readable(file, ask.key).None? || Readable(file, ask.key).value.c != final
      then None
      else
        var restoreUsers := RestoresUsers(ask.optIn, ask.liveUsers, ask.backupUsers);
        Some(Plan(final, restoreUsers, UsersChange(ask) + changes + LogChanges(ask.current, final), file.value))
  }

  // ----- What is staged -----

  /** Each setting is staged by its own rule, whatever the others do. */
  lemma {:induction false} StageEach(current: Config, backup: Config, optIn: bool, finalUsers: nat, n: nat, f: Index)
    requires n <= |SECURITY|
    ensures
      var c := StageTo(current, backup, optIn, finalUsers, n).0;
      c[f] == if f in SECURITY[..n] then Staged(f, current[f], backup[f], optIn, finalUsers) else backup[f]
    decreases n
  {
    hide Taken, Record, WellTyped;
    if n > 0 {
      StageEach(current, backup, optIn, finalUsers, n - 1, f);
      OncePerSetting(n - 1);
      var g := SECURITY[n - 1];
      assert f in SECURITY[..n] <==> f in SECURITY[..n - 1] || f == g;
    }
  }

  function Count(changes: seq<Change>, setting: Setting): nat {
    if changes == [] then 0
    else (if changes[0].setting == setting then 1 else 0) + Count(changes[1..], setting)
  }

  lemma {:induction false} CountAppend(a: seq<Change>, b: seq<Change>, setting: Setting)
    ensures Count(a + b, setting) == Count(a, setting) + Count(b, setting)
    decreases |a|
  {
    if a == [] {
      assert a + b == b;
    } else {
      assert (a + b)[1..] == a[1..] + b;
      CountAppend(a[1..], b, setting);
    }
  }

  lemma {:induction false} RecordEach(current: Config, backup: Config, optIn: bool, finalUsers: nat, n: nat, f: Index)
    requires n <= |SECURITY|
    ensures
      var changes := StageTo(current, backup, optIn, finalUsers, n).1;
      && Count(changes, One(f)) == (if f in SECURITY[..n] && current[f] != backup[f] then 1 else 0)
      && Count(changes, Users) == 0
      && forall ch <- changes :: ch.setting.One? && ch == Record(ch.setting.f, current, backup, optIn, finalUsers)
    decreases n
  {
    hide Staged, Taken, TrustList, WellTyped, NormalValue;
    if n > 0 {
      var changes := StageTo(current, backup, optIn, finalUsers, n - 1).1;
      var g := SECURITY[n - 1];
      RecordEach(current, backup, optIn, finalUsers, n - 1, f);
      OncePerSetting(n - 1);
      assert SECURITY[..n] == SECURITY[..n - 1] + [g];
      var ch := Record(g, current, backup, optIn, finalUsers);
      CountAppend(changes, [ch], One(f));
      CountAppend(changes, [ch], Users);
      assert [ch][1..] == [];
    }
  }

  // ----- Main results -----

  /** The restore is planned: `backup` is what the backup's file holds. */
  predicate Plans(ask: Ask, data: Option<seq<Child>>, live: Option<seq<Child>>, backup: Config, plan: Plan) {
    && Readable(data, ask.key).Some? && Readable(data, ask.key).value.c == backup
    && PlanRestore(ask, data, live) == Some(plan)
  }

  function UsersChange(ask: Ask): seq<Change> {
    if SameUsers(ask.liveUsers, ask.backupUsers) then []
    else [Change(Users, None, None, RestoresUsers(ask.optIn, ask.liveUsers, ask.backupUsers))]
  }

  /** A plan, taken apart. */
  lemma PlanGives(ask: Ask, data: Option<seq<Child>>, live: Option<seq<Child>>, backup: Config, plan: Plan)
    ensures
      Plans(ask, data, live, backup, plan) ==>
        && NewProblems(ask.isIp, ask.current, backup) == {} && Problems(ask, plan.final) == {}
        && plan.final == Planned(ask, backup).0
        && plan.restoreUsers == RestoresUsers(ask.optIn, ask.liveUsers, ask.backupUsers)
        && plan.changes == UsersChange(ask) + Planned(ask, backup).1 + LogChanges(ask.current, plan.final)
        && RenderOnto(Base(live, ask.key), plan.final, ask.key) == Some(plan.file)
        && Readable(Some(plan.file), ask.key).Some? && Readable(Some(plan.file), ask.key).value.c == plan.final
  {
    hide Planned, Problems, NewProblems, RenderOnto, Readable, LogChanges, SameUsers;
  }

  /** What a file reads as is normalised: so are a backup's settings, and the current ones when there is no
      manager to ask for them. */
  lemma ReadIsNormalised(file: Option<seq<Child>>, key: string)
    requires Readable(file, key).Some?
    ensures Normalised(Readable(file, key).value.c)
  {
    var p := Parse(file.value).value;
    assert Readable(file, key).value.c == Normalize(ReadRow(p, key));
  }

  /** Every setting of the plan, in terms of the two configurations it was made from. */
  lemma PlanStages(ask: Ask, data: Option<seq<Child>>, live: Option<seq<Child>>, backup: Config, plan: Plan, f: Index)
    ensures
      Plans(ask, data, live, backup, plan) ==>
        && plan.final[f] == NormalValue(
             f, if f in SECURITY then Staged(f, ask.current[f], backup[f], ask.optIn, FinalUsers(ask)) else backup[f])
        && (NormalValue(f, backup[f]) == backup[f] <==> SettledAt(backup, f))
  {
    hide PlanRestore, Staged, StageTo, Problems, RenderOnto, LogChanges, UsersChange, Readable, NewProblems, NormalValue, SettledAt;
    if Plans(ask, data, live, backup, plan) {
      PlanGives(ask, data, live, backup, plan);
      ReadIsNormalised(data, ask.key);
      NormalisedSettles(backup, f);
      StageEach(ask.current, backup, ask.optIn, FinalUsers(ask), |SECURITY|, f);
      assert SECURITY[..|SECURITY|] == SECURITY;
    }
  }

  /** The trust lists are the running instance's, always; and without opting in, so is every other
      security setting, except exactly for a URL base that normalising changes once more. Settings that are
      none come from the backup. */
  lemma CurrentSecurityIsKept(ask: Ask, data: Option<seq<Child>>, live: Option<seq<Child>>, backup: Config, plan: Plan, f: Index)
    ensures
      Plans(ask, data, live, backup, plan) && Normalised(ask.current) ==>
        && (TrustList(f) ==> plan.final[f] == ask.current[f])
        && (f in SECURITY && !ask.optIn ==> (plan.final[f] == ask.current[f] <==> SettledAt(ask.current, f)))
        && (f !in SECURITY ==> plan.final[f] == backup[f])
  {
    hide Plans, NormalValue;
    if Plans(ask, data, live, backup, plan) && Normalised(ask.current) {
      PlanStages(ask, data, live, backup, plan, f);
      NormalisedSettles(ask.current, f);
      assert URL_BASE in SECURITY && PROXIES in SECURITY && HOSTS in SECURITY;
    }
  }

  /** Asked to restore the security settings, the restore takes the backup's, but for the trust lists: the
      method unless it asks nobody to sign in, or is Forms while nobody could. Users are the backup's if and only
      if they were asked for and do not empty the table of an instance that has some. */
  lemma OptInTakesBackup(ask: Ask, data: Option<seq<Child>>, live: Option<seq<Child>>, backup: Config, plan: Plan, f: Index)
    ensures
      Plans(ask, data, live, backup, plan) && ask.optIn && Normalised(ask.current) ==>
        && (f in SECURITY && f !in [METHOD, PROXIES, HOSTS] ==> (plan.final[f] == backup[f] <==> SettledAt(backup, f)))
        && plan.final[METHOD] == (if backup[METHOD] in [S("None"), S("External")]
                                     || (backup[METHOD] == S("Forms") && FinalUsers(ask) == 0)
                                  then ask.current[METHOD] else backup[METHOD])
        && (f in [PROXIES, HOSTS] ==> plan.final[f] == ask.current[f])
    ensures
      Plans(ask, data, live, backup, plan) ==>
        && (plan.restoreUsers <==> ask.optIn && (ask.backupUsers != [] || ask.liveUsers == []))
        && FinalUsers(ask) == if plan.restoreUsers then |ask.backupUsers| else |ask.liveUsers|
  {
    hide Plans, NormalValue, Staged, FinalUsers, SettledAt, SECURITY, Normalised;
    if Plans(ask, data, live, backup, plan) {
      RestoresUsersMeans(ask, data, live, backup, plan);
      if ask.optIn && Normalised(ask.current) {
        PlanStages(ask, data, live, backup, plan, f);
        PlanStages(ask, data, live, backup, plan, METHOD);
        NormalisedSettles(ask.current, f);
        NormalisedSettles(ask.current, METHOD);
        SecurityHas();
        StagedWithOptIn(f, ask.current[f], backup[f], FinalUsers(ask));
        StagedWithOptIn(METHOD, ask.current[METHOD], backup[METHOD], FinalUsers(ask));
      }
    }
  }

  lemma StagedWithOptIn(f: Index, current: Value, backup: Value, finalUsers: nat)
    requires f == METHOD ==> backup.S?
    ensures
      Staged(f, current, backup, true, finalUsers)
      == if f in [PROXIES, HOSTS] then current
         else if f == METHOD && (backup in [S("None"), S("External")] || (backup == S("Forms") && finalUsers == 0)) then current
         else backup
  {
  }

  lemma SecurityHas()
    ensures METHOD in SECURITY && PROXIES in SECURITY && HOSTS in SECURITY
    ensures forall c: Config :: SettledAt(c, METHOD) && SettledAt(c, PROXIES) && SettledAt(c, HOSTS)
  {
  }

  lemma RestoresUsersMeans(ask: Ask, data: Option<seq<Child>>, live: Option<seq<Child>>, backup: Config, plan: Plan)
    requires Plans(ask, data, live, backup, plan)
    ensures plan.restoreUsers <==> ask.optIn && (ask.backupUsers != [] || ask.liveUsers == [])
    ensures FinalUsers(ask) == if plan.restoreUsers then |ask.backupUsers| else |ask.liveUsers|
  {
    PlanGives(ask, data, live, backup, plan);
    hide Plans;
  }

  predicate KnownMethod(v: Value) {
    v.S? && v.s in ["None", "Forms", "External"]
  }

  lemma MethodProblem(isIp: IsIp, c: Config)
    requires NormalValue(METHOD, c[METHOD]) == c[METHOD]
    ensures Problem(METHOD, NotOneOf) in Validate(isIp, c) <==> !KnownMethod(c[METHOD])
  {
    var n := Normalize(c);
    assert n[METHOD] == c[METHOD];
    assert Check(isIp, n, METHOD) == Unless(c[METHOD].s in ["None", "Forms", "External"], NotOneOf);
  }

  /** The rule for the method, for settled methods of a backup that is not refused. */
  lemma MethodStaged(isIp: IsIp, current: Config, backup: Config, optIn: bool, finalUsers: nat)
    requires NewProblems(isIp, current, backup) == {}
    requires NormalValue(METHOD, current[METHOD]) == current[METHOD]
    requires NormalValue(METHOD, backup[METHOD]) == backup[METHOD]
    ensures
      var staged := NormalValue(METHOD, Staged(METHOD, current[METHOD], backup[METHOD], optIn, finalUsers));
      var taken := optIn && !KnownMethod(backup[METHOD]) && backup[METHOD] != current[METHOD];
      && (staged != current[METHOD] && staged != S("Forms") <==> taken)
      && (taken ==> staged == backup[METHOD] && !KnownMethod(current[METHOD]))
  {
    MethodProblem(isIp, current);
    MethodProblem(isIp, backup);
    assert Problem(METHOD, NotOneOf) !in NewProblems(isIp, current, backup);
    hide Validate, NormalValue;
  }

  /** The staged authentication method is the current one or Forms, except exactly when the restore takes
      the security settings and the backup's method is an unknown one that is not the current one: then it
      is the backup's, and the current one must be unknown, too (the environment must be hiding it). */
  lemma MethodIsCurrentOrForms(ask: Ask, data: Option<seq<Child>>, live: Option<seq<Child>>, backup: Config, plan: Plan)
    ensures
      Plans(ask, data, live, backup, plan) && Normalised(ask.current) ==>
        && (plan.final[METHOD] != ask.current[METHOD] && plan.final[METHOD] != S("Forms")
            <==> TakesUnknown(ask, backup))
        && (TakesUnknown(ask, backup) ==> plan.final[METHOD] == backup[METHOD] && !KnownMethod(ask.current[METHOD]))
  {
    hide Plans, NewProblems, Problems, Planned, RenderOnto, LogChanges, UsersChange;
    if Plans(ask, data, live, backup, plan) && Normalised(ask.current) {
      PlanGives(ask, data, live, backup, plan);
      PlanStages(ask, data, live, backup, plan, METHOD);
      NormalisedSettles(ask.current, METHOD);
      assert METHOD in SECURITY;
      MethodStaged(ask.isIp, ask.current, backup, ask.optIn, FinalUsers(ask));
      hide NormalValue, Staged;
    }
  }

  predicate TakesUnknown(ask: Ask, backup: Config) {
    ask.optIn && !KnownMethod(backup[METHOD]) && backup[METHOD] != ask.current[METHOD]
  }

  /** Nobody is let in by a first-run setup that was not open before: Forms without a user is staged only
      where it was the state of things. */
  lemma FormsWithoutUsersIsNotNew(ask: Ask, data: Option<seq<Child>>, live: Option<seq<Child>>, backup: Config, plan: Plan)
    requires plan.final[METHOD] == S("Forms") && FinalUsers(ask) == 0
    ensures
      Plans(ask, data, live, backup, plan) && Normalised(ask.current) ==>
        ask.current[METHOD] == S("Forms") && |ask.liveUsers| == 0
  {
    hide Plans, NormalValue;
    if Plans(ask, data, live, backup, plan) && Normalised(ask.current) {
      PlanStages(ask, data, live, backup, plan, METHOD);
      NormalisedSettles(ask.current, METHOD);
      assert METHOD in SECURITY;
    }
  }

  lemma ShownOnce(ask: Ask, backup: Config, final: Config, f: Index)
    requires f in SECURITY || f in LOGGING
    requires final[LOG_LEVEL] == backup[LOG_LEVEL] && final[LOG_SIZE] == backup[LOG_SIZE]
    ensures
      var changes := UsersChange(ask) + Planned(ask, backup).1 + LogChanges(ask.current, final);
      && Count(changes, One(f)) == (if ask.current[f] != backup[f] then 1 else 0)
      && Count(changes, Users) == (if SameUsers(ask.liveUsers, ask.backupUsers) then 0 else 1)
  {
    RecordEach(ask.current, backup, ask.optIn, FinalUsers(ask), |SECURITY|, f);
    assert SECURITY[..|SECURITY|] == SECURITY;
    hide LogChanges, StageTo, SameUsers, Normalize;
    CountParts(UsersChange(ask), Planned(ask, backup).1, ask.current, final, One(f));
    CountParts(UsersChange(ask), Planned(ask, backup).1, ask.current, final, Users);
  }

  lemma CountParts(users: seq<Change>, changes: seq<Change>, current: Config, final: Config, setting: Setting)
    ensures Count(users + changes + LogChanges(current, final), setting)
            == Count(users, setting) + Count(changes, setting)
               + (if setting == One(LOG_LEVEL) && current[LOG_LEVEL] != final[LOG_LEVEL] then 1 else 0)
               + (if setting == One(LOG_SIZE) && current[LOG_SIZE] != final[LOG_SIZE] then 1 else 0)
  {
    CountAppend(users, changes, setting);
    CountAppend(users + changes, LogChanges(current, final), setting);
    CountAppend(LogChange(current, final, LOG_LEVEL), LogChange(current, final, LOG_SIZE), setting);
  }

  /** Every security or log setting that differs is shown, once, and so are the users. */
  lemma DifferencesAreShownOnce(ask: Ask, data: Option<seq<Child>>, live: Option<seq<Child>>, backup: Config, plan: Plan, f: Index)
    requires f in SECURITY || f in LOGGING
    ensures
      Plans(ask, data, live, backup, plan) ==>
        && Count(plan.changes, One(f)) == (if ask.current[f] != backup[f] then 1 else 0)
        && Count(plan.changes, Users) == (if SameUsers(ask.liveUsers, ask.backupUsers) then 0 else 1)
  {
    hide Plans, NormalValue, NewProblems, Problems, Planned, RenderOnto, LogChanges, UsersChange, SameUsers, Count, Readable;
    if Plans(ask, data, live, backup, plan) {
      PlanGives(ask, data, live, backup, plan);
      PlanStages(ask, data, live, backup, plan, LOG_LEVEL);
      PlanStages(ask, data, live, backup, plan, LOG_SIZE);
      ShownOnce(ask, backup, plan.final, f);
    }
  }

  /** The users are shown if and only if their lists differ: in length, in a name but for its case, or in a
      password hash. */
  lemma UsersAreShown(ask: Ask, data: Option<seq<Child>>, live: Option<seq<Child>>, backup: Config, plan: Plan)
    ensures
      Plans(ask, data, live, backup, plan) ==>
        (Count(plan.changes, Users) == 0 <==>
          && |ask.liveUsers| == |ask.backupUsers|
          && forall i | 0 <= i < |ask.liveUsers| ::
               Lower(ask.liveUsers[i].name) == Lower(ask.backupUsers[i].name) && ask.liveUsers[i].hash == ask.backupUsers[i].hash)
  {
    hide Plans, Count, Lower, SECURITY;
    DifferencesAreShownOnce(ask, data, live, backup, plan, LOG_LEVEL);
  }

  lemma {:induction false} ChangeIsCounted(changes: seq<Change>, ch: Change)
    requires ch in changes
    ensures Count(changes, ch.setting) >= 1
  {
    if changes[0] != ch {
      ChangeIsCounted(changes[1..], ch);
    }
  }

  lemma ShownIsRecord(ask: Ask, backup: Config, final: Config, ch: Change)
    requires ch in UsersChange(ask) + Planned(ask, backup).1 + LogChanges(ask.current, final)
    requires ch.setting.One? && ch.setting.f in SECURITY
    ensures ch == Record(ch.setting.f, ask.current, backup, ask.optIn, FinalUsers(ask))
  {
    RecordEach(ask.current, backup, ask.optIn, FinalUsers(ask), |SECURITY|, ch.setting.f);
    NoOtherChange(ask, final, ch);
    hide StageTo, Record, SameUsers, Normalize, UsersChange, LogChanges;
  }

  lemma NoOtherChange(ask: Ask, final: Config, ch: Change)
    requires ch.setting.One? && ch.setting.f in SECURITY
    ensures ch !in UsersChange(ask) && ch !in LogChanges(ask.current, final)
  {
    hide SameUsers, RestoresUsers;
  }

  /** What is shown is what is done: each change shown is the record of its setting, and it is marked as
      applied if and only if the backup's value is the one staged, and as not applied if and only if the
      current one is. Exactly a URL base that normalising changes once more can make an exception: one that
      is taken is not staged as it is, and one that is kept may become the backup's. */
  lemma AppliedMeansStaged(ask: Ask, data: Option<seq<Child>>, live: Option<seq<Child>>, backup: Config, plan: Plan, ch: Change)
    requires ch in plan.changes && ch.setting.One? && ch.setting.f in SECURITY
    ensures
      Plans(ask, data, live, backup, plan) && Normalised(ask.current) ==>
        var f := ch.setting.f;
        && ch == Record(f, ask.current, backup, ask.optIn, FinalUsers(ask))
        && ((ch.applied <==> plan.final[f] == backup[f])
            <==> if ch.applied then SettledAt(backup, f) else NormalValue(f, ask.current[f]) != backup[f])
        && ((!ch.applied <==> plan.final[f] == ask.current[f])
            <==> if ch.applied then NormalValue(f, backup[f]) != ask.current[f] else SettledAt(ask.current, f))
  {
    var f := ch.setting.f;
    hide Plans, NormalValue, NewProblems, Problems, Planned, RenderOnto, LogChanges, UsersChange, Readable, TrustList,
      MethodMayChange, SettledAt, Normalised;
    if Plans(ask, data, live, backup, plan) && Normalised(ask.current) {
      PlanGives(ask, data, live, backup, plan);
      PlanStages(ask, data, live, backup, plan, f);
      NormalisedSettles(ask.current, f);
      DifferencesAreShownOnce(ask, data, live, backup, plan, f);
      ChangeIsCounted(plan.changes, ch);
      ShownIsRecord(ask, backup, plan.final, ch);
    }
  }

  /** What a change shows: the values of both sides, but never an API key; a log setting is always restored, and
      the users are marked as the plan has them. */
  lemma ChangesShow(ask: Ask, data: Option<seq<Child>>, live: Option<seq<Child>>, backup: Config, plan: Plan, ch: Change)
    requires ch in plan.changes
    ensures
      Plans(ask, data, live, backup, plan) ==>
        match ch.setting
        case Users => ch == Change(Users, None, None, plan.restoreUsers)
        case One(f) =>
          if f == API_KEY then ch.current == None && ch.backup == None
          else ch.current == Some(ask.current[f]) && ch.backup == Some(backup[f]) && (f in LOGGING ==> ch.applied)
  {
    hide Plans, NewProblems, Problems, RenderOnto, Readable, NormalValue;
    if Plans(ask, data, live, backup, plan) {
      PlanGives(ask, data, live, backup, plan);
      PlanStages(ask, data, live, backup, plan, LOG_LEVEL);
      PlanStages(ask, data, live, backup, plan, LOG_SIZE);
      if ch in Planned(ask, backup).1 {
        RecordIsSecurity(ask, backup, ch);
      }
      hide Planned, Staged, Taken, SettledAt, SameUsers, RestoresUsers;
    }
  }

  lemma RecordIsSecurity(ask: Ask, backup: Config, ch: Change)
    requires ch in Planned(ask, backup).1
    ensures
      && ch.setting.One? && ch.setting.f in SECURITY
      && ch == Record(ch.setting.f, ask.current, backup, ask.optIn, FinalUsers(ask))
  {
    RecordsOnly(ask.current, backup, ask.optIn, FinalUsers(ask), |SECURITY|, ch);
    hide Normalize, StageTo, Record;
  }

  lemma {:induction false} RecordsOnly(current: Config, backup: Config, optIn: bool, finalUsers: nat, n: nat, ch: Change)
    requires n <= |SECURITY| && ch in StageTo(current, backup, optIn, finalUsers, n).1
    ensures
      && ch.setting.One? && ch.setting.f in SECURITY
      && ch == Record(ch.setting.f, current, backup, optIn, finalUsers)
    decreases n
  {
    hide Staged, Taken, WellTyped;
    if n > 0 && ch in StageTo(current, backup, optIn, finalUsers, n - 1).1 {
      RecordsOnly(current, backup, optIn, finalUsers, n - 1, ch);
    }
  }

  /** The staged file: it reads back as the plan, everything in it that is no setting is the live file's,
      its own problems are problems the current file has, and the program starts on it. */
  lemma StagedFileIsSafe(ask: Ask, data: Option<seq<Child>>, live: Option<seq<Child>>, backup: Config, plan: Plan)
    ensures
      Plans(ask, data, live, backup, plan) ==>
        && Readable(Some(plan.file), ask.key).Some? && Readable(Some(plan.file), ask.key).value.c == plan.final
        && KeptRest(plan.file) == KeptRest(Base(live, ask.key))
        && Validate(ask.isIp, if ask.env.Some? then Normalize(plan.final) else plan.final) <= Validate(ask.isIp, ask.current)
        && (ask.env.Some? ==> Starts(ask.isIp, ask.env.value, Normalize(plan.final), ask.key))
  {
    hide Plans, Readable, Planned, LogChanges, UsersChange;
    if Plans(ask, data, live, backup, plan) {
      PlanGives(ask, data, live, backup, plan);
      RenderOntoAdoptsSettingsOnly(Base(live, ask.key), plan.final, ask.key);
      if ask.env.Some? {
        CheckedFileStarts(ask.isIp, ask.env.value, State(ask.current, ask.current), plan.final, ask.key);
      } else {
        assert forall p <- Validate(ask.isIp, plan.final) ::
            p in Validate(ask.isIp, ask.current) || p in NewProblems(ask.isIp, ask.current, plan.final);
      }
    }
  }

  // ----- An instance can restore its own backup -----

  ghost predicate AllDurable(c: Config) {
    forall i: Index :: Durable(i, c[i])
  }

  lemma PrintedIsRead(nodes: seq<Node>, c: Config, key: string)
    requires AllDurable(c) && Complete(nodes)
    ensures Readable(Some(Render(nodes, c)), key).Some? && Readable(Some(Render(nodes, c)), key).value.c == c
  {
    RoundTrip(nodes, c, key);
  }

  lemma StagedIsRead(live: Option<seq<Child>>, c: Config, key: string)
    requires AllDurable(c) && Readable(live, key).Some?
    ensures
      var file := RenderOnto(Base(live, key), c, key);
      file.Some? && Readable(file, key).Some? && Readable(file, key).value.c == c
  {
    DecodeCompletes(live.value, key);
    DurableIsSettled(c);
    hide Render, Durable, NormalValue, Normalize, Complete, AllDurable, Parse, Decode;
    PrintedIsRead(Decode(Parse(live.value).value, key).value.nodes, c, key);
  }

  lemma DurableIsSettled(c: Config)
    requires AllDurable(c)
    ensures Normalize(c) == c
  {
    assert forall i: Index :: Durable(i, c[i]);
  }

  /** Nothing of a configuration is replaced by itself. */
  lemma StagedOnItself(c: Config, optIn: bool, finalUsers: nat, n: nat)
    requires n <= |SECURITY|
    ensures StageTo(c, c, optIn, finalUsers, n) == (c, [])
  {
    hide Staged, Taken, TrustList, WellTyped;
    if n > 0 {
      StagedOnItself(c, optIn, finalUsers, n - 1);
    }
  }

  /** A backup that holds the current settings is never refused, with or without opting in: nothing of
      the configuration changes, no setting is shown as different, and the users are as for any backup. */
  lemma OwnBackupIsPlanned(ask: Ask, nodes: seq<Node>, live: Option<seq<Child>>)
    requires AllDurable(ask.current) && Complete(nodes) && Readable(live, ask.key).Some?
    ensures
      ask.env.None? || Valid(ask.isIp, Apply(ask.env.value, ask.current)) ==>
        var plan := PlanRestore(ask, Some(Render(nodes, ask.current)), live);
        plan.Some? && plan.value.final == ask.current && plan.value.changes == UsersChange(ask)
  {
    hide Planned, Problems, NewProblems, Readable, RenderOnto, Base, Render, AllDurable, Complete, Valid, Apply, UsersChange,
      PlanRestore;
    var c := ask.current;
    if ask.env.None? || Valid(ask.isIp, Apply(ask.env.value, c)) {
      OwnPlanned(ask);
      PrintedIsRead(nodes, c, ask.key);
      StagedIsRead(live, c, ask.key);
      PlanFrom(ask, Some(Render(nodes, c)), live, c, c);
    }
  }

  lemma OwnPlanned(ask: Ask)
    requires AllDurable(ask.current)
    ensures Planned(ask, ask.current) == (ask.current, []) && NewProblems(ask.isIp, ask.current, ask.current) == {}
    ensures ask.env.None? || Valid(ask.isIp, Apply(ask.env.value, ask.current)) ==> Problems(ask, ask.current) == {}
  {
    var c := ask.current;
    DurableIsSettled(c);
    StagedOnItself(c, ask.optIn, FinalUsers(ask), |SECURITY|);
    hide Durable, Normalize, Validate, StageTo, AllDurable;
  }

  // ----- The exception to MethodIsCurrentOrForms is real -----

  /** Two files that differ in a method neither of which is known have the same problems. */
  lemma SameButMethod(isIp: IsIp, c: Config, d: Config)
    requires OnlyMethod(c, d) && AllDurable(c) && AllDurable(d) && !KnownMethod(c[METHOD]) && !KnownMethod(d[METHOD])
    ensures Validate(isIp, d) == Validate(isIp, c)
  {
    DurableIsSettled(c);
    DurableIsSettled(d);
    hide AllDurable;
    forall i: Index ensures Check(isIp, d, i) == Check(isIp, c, i) {
      if i != METHOD {
        assert d[ENABLE_SSL] == c[ENABLE_SSL] && d[PORT] == c[PORT] && d[SSL_PORT] == c[SSL_PORT];
      }
    }
  }

  /** Nothing but the method differs. */
  ghost predicate OnlyMethod(c: Config, d: Config) {
    forall i: Index | i != METHOD :: d[i] == c[i]
  }

  /** An environment that sets the method hides that the file's own is unknown. A backup whose method is
      unknown too, restored with its security settings, then puts its method in the place of that one. */
  lemma UnknownMethodIsTaken(ask: Ask, env: Env, backup: Config, nodes: seq<Node>, live: Option<seq<Child>>)
    requires ask.env == Some(env) && METHOD in env.owned && Valid(ask.isIp, Apply(env, ask.current))
    requires OnlyMethod(ask.current, backup) && AllDurable(ask.current) && AllDurable(backup)
    requires !KnownMethod(ask.current[METHOD]) && !KnownMethod(backup[METHOD])
    requires ask.optIn && Complete(nodes) && Readable(live, ask.key).Some?
    ensures
      var plan := PlanRestore(ask, Some(Render(nodes, backup)), live);
      plan.Some? && plan.value.final == backup
  {
    hide PlanRestore, Planned, Problems, NewProblems, Readable, RenderOnto, Base, Render, AllDurable, Complete, Valid, Apply,
      KnownMethod, OnlyMethod;
    PrintedIsRead(nodes, backup, ask.key);
    StagedIsRead(live, backup, ask.key);
    PlannedIsBackup(ask, backup);
    UnknownMethodIsNoProblem(ask, env, backup);
    PlanFrom(ask, Some(Render(nodes, backup)), live, backup, backup);
  }

  lemma PlanFrom(ask: Ask, data: Option<seq<Child>>, live: Option<seq<Child>>, backup: Config, final: Config)
    requires Readable(data, ask.key).Some? && Readable(data, ask.key).value.c == backup
    requires NewProblems(ask.isIp, ask.current, backup) == {} && Problems(ask, final) == {}
    requires Planned(ask, backup).0 == final
    requires
      var file := RenderOnto(Base(live, ask.key), final, ask.key);
      file.Some? && Readable(file, ask.key).Some? && Readable(file, ask.key).value.c == final
    ensures
      var plan := PlanRestore(ask, data, live);
      && plan.Some? && plan.value.final == final
      && plan.value.changes == UsersChange(ask) + Planned(ask, backup).1 + LogChanges(ask.current, final)
  {
    hide Planned, Problems, NewProblems, Readable, RenderOnto, Base, LogChanges, UsersChange;
  }

  lemma UnknownMethodIsNoProblem(ask: Ask, env: Env, backup: Config)
    requires ask.env == Some(env) && METHOD in env.owned && Valid(ask.isIp, Apply(env, ask.current))
    requires OnlyMethod(ask.current, backup) && AllDurable(ask.current) && AllDurable(backup)
    requires !KnownMethod(ask.current[METHOD]) && !KnownMethod(backup[METHOD])
    ensures Problems(ask, backup) == {}
    ensures NewProblems(ask.isIp, ask.current, backup) == {}
  {
    SameButMethod(ask.isIp, ask.current, backup);
    DurableIsSettled(backup);
    hide AllDurable, Normalize, Validate;
    assert Apply(env, backup) == Apply(env, ask.current);
  }

  lemma PlannedIsBackup(ask: Ask, backup: Config)
    requires ask.optIn && OnlyMethod(ask.current, backup) && AllDurable(backup) && !KnownMethod(backup[METHOD])
    ensures Planned(ask, backup).0 == backup
  {
    DurableIsSettled(backup);
    hide StageTo, AllDurable, Normalize;
    var t := StageTo(ask.current, backup, true, FinalUsers(ask), |SECURITY|).0;
    forall i: Index ensures t[i] == backup[i] {
      StageEach(ask.current, backup, true, FinalUsers(ask), |SECURITY|, i);
    }
    assert t == backup;
  }

  // ----- ... on concrete files -----

  function AllKnown(n: nat): seq<Node>
    requires n <= COUNT
  {
    Missing(map[], n)
  }

  lemma AllKnownIsComplete()
    ensures Complete(AllKnown(COUNT))
  {
    MissingCompletes([], map[], COUNT);
    assert [] + AllKnown(COUNT) == AllKnown(COUNT);
    hide Tidy, Fields, Missing;
  }

  function WithMethod(m: string): Config {
    SAMPLE[METHOD := S(m)]
  }

  lemma SampleIsDurable(m: string)
    requires m == "Foo" || m == "Bar"
    ensures AllDurable(WithMethod(m)) && !KnownMethod(S(m))
  {
    forall i: Index ensures Durable(i, WithMethod(m)[i]) {
      SampleValueIsDurable(i);
      OddMethodIsDurable(m);
    }
  }

  lemma SampleValueIsDurable(i: Index)
    ensures Durable(i, SAMPLE[i])
  {
    SampleIsSettled(i);
    SampleTexts();
    hide NormalValue;
  }

  lemma OddMethodIsDurable(m: string)
    requires m == "Foo" || m == "Bar"
    ensures Durable(METHOD, S(m))
  {
    PrintedIsTrimmed(m);
    TrimFixed(m, SPACES);
    assert Lower(m)[0] == 'f' || Lower(m)[0] == 'b';
    assert Lower(m)[1] == 'o' || Lower(m)[1] == 'a';
  }

  /** The file says "Foo", the environment Forms; the backup says "Bar". */
  function OddAsk(isIp: IsIp): Ask {
    Ask(isIp, Some(Env({METHOD}, SAMPLE)), WithMethod("Foo"), true, [], [], "0123456789abcdef0123")
  }

  /** Restored with its security settings, that backup puts its own method into the file: neither the
      current one nor Forms. */
  lemma UnknownMethodExample(isIp: IsIp)
    ensures
      var data, live := Render(AllKnown(COUNT), WithMethod("Bar")), Render(AllKnown(COUNT), WithMethod("Foo"));
      var plan := PlanRestore(OddAsk(isIp), Some(data), Some(live));
      plan.Some? && plan.value.final[METHOD] == S("Bar")
  {
    var ask, env := OddAsk(isIp), Env({METHOD}, SAMPLE);
    OddAskIs(isIp);
    AllKnownIsComplete();
    SampleIsDurable("Foo");
    SampleIsDurable("Bar");
    SampleIsValid(isIp);
    hide AllKnown, Complete, AllDurable, PlanRestore, Valid, Readable, Render, OddAsk, WithMethod, Apply, KnownMethod, OnlyMethod;
    PrintedIsRead(AllKnown(COUNT), WithMethod("Foo"), ask.key);
    UnknownMethodIsTaken(ask, env, WithMethod("Bar"), AllKnown(COUNT), Some(Render(AllKnown(COUNT), WithMethod("Foo"))));
  }

  lemma OddAskIs(isIp: IsIp)
    ensures
      var ask, env := OddAsk(isIp), Env({METHOD}, SAMPLE);
      && ask.isIp == isIp && ask.env == Some(env) && ask.optIn
      && ask.current == WithMethod("Foo") && OnlyMethod(WithMethod("Foo"), WithMethod("Bar"))
      && WithMethod("Foo")[METHOD] == S("Foo") && WithMethod("Bar")[METHOD] == S("Bar")
      && Apply(env, ask.current) == SAMPLE
  {
  }

  function WithBase(base: string): Config {
    SAMPLE[URL_BASE := S(base)]
  }

  function BaseAsk(isIp: IsIp): Ask {
    Ask(isIp, None, SAMPLE, true, [], [], "0123456789abcdef0123")
  }

  lemma WithBaseIs(base: string)
    ensures WithBase(base)[URL_BASE] == S(base) && forall i: Index | i != URL_BASE :: WithBase(base)[i] == SAMPLE[i]
  {
  }

  lemma LooseBackupReads(key: string)
    ensures
      var data := Render(AllKnown(COUNT), WithBase("a /"));
      Readable(Some(data), key).Some? && Readable(Some(data), key).value.c == WithBase("/a ")
  {
    AllKnownIsComplete();
    WithBaseIs("a /");
    WithBaseIs("/a ");
    hide AllKnown, WithBase, Complete;
    DecodeRender(AllKnown(COUNT), WithBase("a /"), key);
    hide Render, Parse, Decode;
    forall i: Index ensures Normalize(Reread(WithBase("a /"), key))[i] == WithBase("/a ")[i] {
      if i == URL_BASE {
        LooseBaseReads(key);
      } else {
        SampleValueIsDurable(i);
        DurableRereads(i, SAMPLE[i], key);
      }
      hide NormalValue, RereadValue;
    }
    assert Normalize(Reread(WithBase("a /"), key)) == WithBase("/a ");
  }

  lemma LooseBaseReads(key: string)
    ensures NormalValue(URL_BASE, RereadValue(URL_BASE, S("a /"), key)) == S("/a ")
  {
    LooseBaseIs();
    hide Trim, NormalText, Blank;
    assert FIELDS[URL_BASE].optional;
  }

  lemma LooseBaseIs()
    ensures NormalText(URL_BASE, "a /") == "/a " && Trim("a /", SPACES) == "a /"
  {
    LooseBase();
    hide NormalizeUrlBase, Trim, Trimmed;
    PrintedIsTrimmed("a /");
    TrimFixed("a /", SPACES);
  }

  lemma SlashAIsDurable()
    ensures AllDurable(WithBase("/a"))
  {
    LooseBase();
    PrintedIsTrimmed("/a");
    hide Trimmed, NormalizeUrlBase, Trim;
    forall i: Index ensures Durable(i, WithBase("/a")[i]) {
      SampleValueIsDurable(i);
    }
  }

  /** Wherever "/a " is to be staged, normalising stages "/a". */
  lemma LooseBaseIsStaged(ask: Ask, backup: Config)
    requires forall i: Index | i != URL_BASE :: ask.current[i] == SAMPLE[i] && backup[i] == SAMPLE[i]
    requires Staged(URL_BASE, ask.current[URL_BASE], backup[URL_BASE], ask.optIn, FinalUsers(ask)) == S("/a ")
    ensures Planned(ask, backup).0 == WithBase("/a")
  {
    WithBaseIs("/a");
    var t := StageTo(ask.current, backup, ask.optIn, FinalUsers(ask), |SECURITY|).0;
    hide WithBase, FinalUsers, StageTo, NormalText;
    forall i: Index ensures Normalize(t)[i] == WithBase("/a")[i] {
      StageEach(ask.current, backup, ask.optIn, FinalUsers(ask), |SECURITY|, i);
      assert SECURITY[..|SECURITY|] == SECURITY && URL_BASE in SECURITY;
      if i == URL_BASE {
        SlashAStays();
      } else {
        SampleIsSettled(i);
      }
      hide Staged;
    }
    assert Normalize(t) == WithBase("/a");
  }

  lemma SlashAStays()
    ensures NormalText(URL_BASE, "/a ") == "/a"
  {
    LooseBase();
    hide NormalizeUrlBase;
  }

  lemma LooseBaseIsNoProblem(isIp: IsIp)
    ensures Valid(isIp, WithBase("/a")) && Valid(isIp, WithBase("/a "))
  {
    LooseBase();
    SlashAIsValid(isIp, WithBase("/a"));
    forall i: Index ensures Normalize(WithBase("/a "))[i] == WithBase("/a")[i] == Normalize(WithBase("/a"))[i] {
      SampleIsSettled(i);
    }
    assert Normalize(WithBase("/a ")) == Normalize(WithBase("/a"));
  }

  lemma ValidBringsNoProblem(ask: Ask, backup: Config, final: Config)
    requires ask.env.None? && Valid(ask.isIp, backup) && Valid(ask.isIp, final)
    ensures NewProblems(ask.isIp, ask.current, backup) == {} && Problems(ask, final) == {}
  {
    hide Validate;
  }

  lemma LooseBaseIsShown(isIp: IsIp, data: Option<seq<Child>>, live: Option<seq<Child>>, plan: Plan)
    requires PlanRestore(BaseAsk(isIp), data, live) == Some(plan)
    requires Readable(data, BaseAsk(isIp).key).Some? && Readable(data, BaseAsk(isIp).key).value.c == WithBase("/a ")
    ensures Count(plan.changes, One(URL_BASE)) == 1
    ensures forall ch <- plan.changes :: ch.setting == One(URL_BASE) ==> ch.applied && ch.backup == Some(S("/a "))
  {
    var ask, backup := BaseAsk(isIp), WithBase("/a ");
    hide PlanRestore, Readable;
    assert Plans(ask, data, live, backup, plan);
    hide Plans;
    LooseBaseIsTaken(isIp);
    hide BaseAsk, WithBase, Normalised, Count, FinalUsers, Record, SettledAt, NormalValue;
    DifferencesAreShownOnce(ask, data, live, backup, plan, URL_BASE);
    forall ch | ch in plan.changes && ch.setting == One(URL_BASE) ensures ch.applied && ch.backup == Some(S("/a ")) {
      AppliedMeansStaged(ask, data, live, backup, plan, ch);
    }
  }

  lemma LooseBaseIsTaken(isIp: IsIp)
    ensures
      var ask, backup := BaseAsk(isIp), WithBase("/a ");
      && ask.isIp == isIp && ask.env.None? && ask.current == SAMPLE && Normalised(ask.current)
      && ask.current[URL_BASE] != backup[URL_BASE] && URL_BASE in SECURITY
      && Staged(URL_BASE, ask.current[URL_BASE], backup[URL_BASE], ask.optIn, FinalUsers(ask)) == S("/a ")
      && var ch := Record(URL_BASE, ask.current, backup, ask.optIn, FinalUsers(ask)); ch.applied && ch.backup == Some(S("/a "))
  {
    SampleIsValid(isIp);
    WithBaseIs("/a ");
    hide WithBase, Normalize;
  }

  /** A change that is shown as applied although another value is staged: the backup's URL base reads as
      "/a ", and "/a" is what is staged. */
  lemma AppliedExample(isIp: IsIp)
    ensures
      var data, live := Render(AllKnown(COUNT), WithBase("a /")), Render(AllKnown(COUNT), SAMPLE);
      var plan := PlanRestore(BaseAsk(isIp), Some(data), Some(live));
      && plan.Some? && plan.value.final[URL_BASE] == S("/a")
      && Count(plan.value.changes, One(URL_BASE)) == 1
      && forall ch <- plan.value.changes :: ch.setting == One(URL_BASE) ==> ch.applied && ch.backup == Some(S("/a "))
  {
    var ask, backup, final := BaseAsk(isIp), WithBase("/a "), WithBase("/a");
    var data, live := Render(AllKnown(COUNT), WithBase("a /")), Some(Render(AllKnown(COUNT), SAMPLE));
    hide *;
    WithBaseIs("/a ");
    WithBaseIs("/a");
    LooseBaseIsTaken(isIp);
    LooseBaseIsNoProblem(isIp);
    ValidBringsNoProblem(ask, backup, final);
    LooseBaseIsStaged(ask, backup);
    LooseBackupReads(ask.key);
    AllKnownIsComplete();
    SampleIsAllDurable();
    SlashAIsDurable();
    PrintedIsRead(AllKnown(COUNT), SAMPLE, ask.key);
    StagedIsRead(live, final, ask.key);
    PlanFrom(ask, Some(data), live, backup, final);
    LooseBaseIsShown(isIp, Some(data), live, PlanRestore(ask, Some(data), live).value);
  }

  lemma SampleIsAllDurable()
    ensures AllDurable(SAMPLE)
  {
    forall i: Index ensures Durable(i, SAMPLE[i]) {
      SampleValueIsDurable(i);
    }
  }

  /** The running instance's config.xml says "a /", which it reads as "/a "; it does not opt in. */
  function LiveAsk(isIp: IsIp): Ask {
    Ask(isIp, None, WithBase("/a "), false, [], [], "0123456789abcdef0123")
  }

  lemma LiveIsKept(isIp: IsIp)
    ensures
      var ask, backup := LiveAsk(isIp), WithBase("/a");
      && ask.isIp == isIp && ask.env.None? && !ask.optIn && ask.current == WithBase("/a ") && Normalised(ask.current)
      && ask.current[URL_BASE] != backup[URL_BASE] && URL_BASE in SECURITY
      && Staged(URL_BASE, ask.current[URL_BASE], backup[URL_BASE], ask.optIn, FinalUsers(ask)) == S("/a ")
      && var ch := Record(URL_BASE, ask.current, backup, ask.optIn, FinalUsers(ask)); !ch.applied && ch.backup == Some(S("/a"))
  {
    WithBaseIs("/a ");
    WithBaseIs("/a");
    LooseBackupReads("");
    ReadIsNormalised(Some(Render(AllKnown(COUNT), WithBase("a /"))), "");
    hide WithBase, Normalised, Readable, Render, AllKnown;
  }

  lemma LiveIsShown(isIp: IsIp, data: Option<seq<Child>>, live: Option<seq<Child>>, plan: Plan)
    requires PlanRestore(LiveAsk(isIp), data, live) == Some(plan)
    requires Readable(data, LiveAsk(isIp).key).Some? && Readable(data, LiveAsk(isIp).key).value.c == WithBase("/a")
    ensures Count(plan.changes, One(URL_BASE)) == 1
    ensures forall ch <- plan.changes :: ch.setting == One(URL_BASE) ==> !ch.applied && ch.backup == Some(S("/a"))
  {
    var ask, backup := LiveAsk(isIp), WithBase("/a");
    hide PlanRestore, Readable;
    assert Plans(ask, data, live, backup, plan);
    hide Plans;
    LiveIsKept(isIp);
    hide LiveAsk, WithBase, Normalised, Count, FinalUsers, Record, SettledAt, NormalValue, Staged;
    DifferencesAreShownOnce(ask, data, live, backup, plan, URL_BASE);
    forall ch | ch in plan.changes && ch.setting == One(URL_BASE) ensures !ch.applied && ch.backup == Some(S("/a")) {
      AppliedMeansStaged(ask, data, live, backup, plan, ch);
    }
  }

  /** A security setting that is not the current one although nobody opted in: the live URL base is "/a ",
      the backup's "/a" is shown as not applied, and "/a" is what is staged. */
  lemma LiveExample(isIp: IsIp)
    ensures
      var ask := LiveAsk(isIp);
      var data, live := Render(AllKnown(COUNT), WithBase("/a")), Render(AllKnown(COUNT), WithBase("a /"));
      var plan := PlanRestore(ask, Some(data), Some(live));
      && !ask.optIn && Readable(Some(live), ask.key).Some? && Readable(Some(live), ask.key).value.c == ask.current
      && plan.Some? && plan.value.final[URL_BASE] == S("/a") && ask.current[URL_BASE] == S("/a ")
      && Count(plan.value.changes, One(URL_BASE)) == 1
      && forall ch <- plan.value.changes :: ch.setting == One(URL_BASE) ==> !ch.applied && ch.backup == Some(S("/a"))
  {
    var ask, backup := LiveAsk(isIp), WithBase("/a");
    var data, live := Render(AllKnown(COUNT), WithBase("/a")), Some(Render(AllKnown(COUNT), WithBase("a /")));
    hide *;
    WithBaseIs("/a ");
    WithBaseIs("/a");
    LiveIsKept(isIp);
    LooseBaseIsNoProblem(isIp);
    ValidBringsNoProblem(ask, backup, backup);
    LooseBaseIsStaged(ask, backup);
    LooseBackupReads(ask.key);
    AllKnownIsComplete();
    SlashAIsDurable();
    PrintedIsRead(AllKnown(COUNT), backup, ask.key);
    StagedIsRead(live, backup, ask.key);
    PlanFrom(ask, Some(data), live, backup, backup);
    LiveIsShown(isIp, Some(data), live, PlanRestore(ask, Some(data), live).value);
  }
}
