/** The manager of config.xml: what a run of updates may leave in the file and in effect. */
module ConfigManager {
  import opened Wrappers
  import opened Text
  import opened Config

  type IsIp = string -> bool

  /** What config.xml holds, and that with the environment laid over it. */
  datatype State = State(file: Config, effective: Config)

  predicate Valid(isIp: IsIp, c: Config) {
    Validate(isIp, c) == {}
  }

  /** The file as decoded, and what is in effect; None when the program refuses to start. */
  function Load(isIp: IsIp, env: Env, decoded: Config): Option<State> {
    var file := Normalize(decoded);
    var effective := Normalize(Apply(env, file));
    if Valid(isIp, effective) then Some(State(file, effective)) else None
  }

  function NewProblems(isIp: IsIp, current: Config, next: Config): set<Problem> {
    Validate(isIp, next) - Validate(isIp, current)
  }

  /** Settings the environment owns keep what the file holds. */
  function Kept(env: Env, wanted: Config, file: Config): Config {
    seq(COUNT, i requires 0 <= i < COUNT => if i in env.owned then file[i] else wanted[i])
  }

  datatype Result = Updated(effective: Config) | Invalid(problems: set<Problem>) | NotSaved

  /** One call of Update: `wanted` is what the caller makes of the file's settings. */
  function Update(isIp: IsIp, env: Env, s: State, wanted: Config, saves: bool): (State, Result) {
    var next := Normalize(Kept(env, wanted, s.file));
    var effective := Normalize(Apply(env, next));
    if !Valid(isIp, effective) then (s, Invalid(Validate(isIp, effective)))
    else if env.owned != {} && NewProblems(isIp, s.file, next) != {}
    then (s, Invalid(NewProblems(isIp, s.file, next)))
    else if !saves then (s, NotSaved)
    else (State(next, effective), Updated(effective))
  }

  /** Could `c` replace the file? What is wrong with it, if not. */
  function CheckFile(isIp: IsIp, env: Env, s: State, c: Config): set<Problem> {
    var n := Normalize(c);
    if !Valid(isIp, Apply(env, n)) then Validate(isIp, Apply(env, n)) else NewProblems(isIp, s.file, n)
  }

  function Run(isIp: IsIp, env: Env, s: State, calls: seq<(Config, bool)>): State
    decreases |calls|
  {
    if calls == [] then s else Run(isIp, env, Update(isIp, env, s, calls[0].0, calls[0].1).0, calls[1..])
  }

  // ----- Validation and the canonical form -----

  lemma ValidMeans(isIp: IsIp, c: Config)
    ensures Valid(isIp, c) <==> forall i: Index :: Check(isIp, Normalize(c), i).None?
  {
    if i: Index :| Check(isIp, Normalize(c), i).Some? {
      assert Problem(i, Check(isIp, Normalize(c), i).value) in Validate(isIp, c);
    }
  }

  lemma {:induction false} BadInClean(seg: string)
    requires BadIn(seg).None?
    ensures forall i | 0 <= i < |seg| :: Unreserved(seg[i])
    decreases |seg|
  {
    if seg != "" {
      BadInClean(seg[1..]);
      assert forall i | 1 <= i < |seg| :: seg[i] == seg[1..][i - 1];
    }
  }

  lemma {:induction false} SegmentsClean(s: string)
    requires SegmentsProblem(s).None?
    ensures forall i | 0 <= i < |s| :: Unreserved(s[i]) || s[i] == '/'
    decreases |s|
  {
    var n := SegmentLength(s);
    BadInClean(s[..n]);
    if n < |s| {
      SegmentsClean(s[n + 1..]);
    }
    forall i | 0 <= i < |s| ensures Unreserved(s[i]) || s[i] == '/' {
      if i < n {
        assert s[i] == s[..n][i];
      } else if i > n {
        assert s[i] == s[n + 1..][i - n - 1];
      }
    }
  }

  lemma GoodUrlBaseIsTight(t: string)
    requires UrlBaseProblem(t).None? && (t == "" || t[0] == '/')
    ensures !EndsInSpace(t)
  {
    if t != "" {
      SegmentsClean(t[1..]);
      var last := t[|t| - 1];
      assert last == '/' || last == t[1..][|t| - 2];
      assert forall c: char | Unreserved(c) || c == '/' :: c !in SPACES;
    }
  }

  /** A URL base without a problem has no white space, so normalising it again changes nothing. */
  lemma GoodUrlBaseIsSettled(s: string)
    requires UrlBaseProblem(NormalizeUrlBase(s)).None?
    ensures NormalizeUrlBase(NormalizeUrlBase(s)) == NormalizeUrlBase(s)
  {
    hide UrlBaseProblem, EndsInSpace, Trim;
    GoodUrlBaseIsTight(NormalizeUrlBase(s));
    UrlBaseTwice(s);
  }

  /** What is valid is settled. */
  lemma ValidIsSettled(isIp: IsIp, c: Config)
    requires Valid(isIp, c)
    ensures Normalize(Normalize(c)) == Normalize(c) && Valid(isIp, Normalize(c))
  {
    ValidMeans(isIp, c);
    forall i: Index ensures Normalize(Normalize(c))[i] == Normalize(c)[i] {
      assert HasKind(c[i], FIELDS[i].kind);
      NormalTwice(i, c[i]);
      if i == URL_BASE {
        assert Check(isIp, Normalize(c), URL_BASE).None?;
        GoodUrlBaseIsSettled(c[URL_BASE].s);
      }
    }
  }

  // ----- Main results, over every run -----

  ghost predicate Inv(isIp: IsIp, env: Env, loaded: Config, s: State) {
    && s.effective == Normalize(Apply(env, s.file))
    && Valid(isIp, s.effective)
    && (env.owned != {} ==> Validate(isIp, s.file) <= Validate(isIp, loaded))
  }

  lemma UpdateKeeps(isIp: IsIp, env: Env, loaded: Config, s: State, wanted: Config, saves: bool)
    requires Inv(isIp, env, loaded, s)
    ensures Inv(isIp, env, loaded, Update(isIp, env, s, wanted, saves).0)
  {
    var t := Update(isIp, env, s, wanted, saves).0;
    if env.owned != {} {
      assert t == s || NewProblems(isIp, s.file, t.file) == {};
      assert forall p <- Validate(isIp, t.file) :: p in Validate(isIp, s.file) || p in NewProblems(isIp, s.file, t.file);
    }
  }

  lemma {:induction false} RunKeeps(isIp: IsIp, env: Env, loaded: Config, s: State, calls: seq<(Config, bool)>)
    requires Inv(isIp, env, loaded, s)
    ensures Inv(isIp, env, loaded, Run(isIp, env, s, calls))
    decreases |calls|
  {
    if calls != [] {
      UpdateKeeps(isIp, env, loaded, s, calls[0].0, calls[0].1);
      RunKeeps(isIp, env, loaded, Update(isIp, env, s, calls[0].0, calls[0].1).0, calls[1..]);
    }
  }

  /** Whatever is updated: what is in effect is the environment over the file, and valid; and while the
      environment overrides anything, the file has no problem on its own that it did not have at load. */
  lemma NothingBadIsSaved(isIp: IsIp, env: Env, decoded: Config, calls: seq<(Config, bool)>)
    requires Load(isIp, env, decoded).Some?
    ensures
      var s0 := Load(isIp, env, decoded).value;
      var s := Run(isIp, env, s0, calls);
      && s.effective == Normalize(Apply(env, s.file))
      && Valid(isIp, s.effective)
      && (env.owned != {} ==> Validate(isIp, s.file) <= Validate(isIp, s0.file))
  {
    var s0 := Load(isIp, env, decoded).value;
    RunKeeps(isIp, env, s0.file, s0, calls);
  }

  /** An update is answered as it should be: `next` is what is wanted, with the settings the environment owns
      as in the file, `view` that with the environment laid over it. It is saved if and only if what would be
      in effect is valid and, under any override, the file gains no problem; then the file holds `next` and
      `view` is in effect, and otherwise nothing changes. */
  lemma UpdateAnswers(isIp: IsIp, env: Env, s: State, wanted: Config, saves: bool, next: Config, view: Config)
    requires forall i: Index :: next[i] == NormalValue(i, if i in env.owned then s.file[i] else wanted[i])
    requires forall i: Index :: view[i] == NormalValue(i, if i in env.owned then env.values[i] else next[i])
    ensures
      var (t, r) := Update(isIp, env, s, wanted, saves);
      var added := if env.owned == {} then {} else Validate(isIp, next) - Validate(isIp, s.file);
      && (r.Updated? <==> saves && Validate(isIp, view) == {} && added == {})
      && (r.NotSaved? <==> !saves && Validate(isIp, view) == {} && added == {})
      && (r.Invalid? ==> r.problems == if Validate(isIp, view) != {} then Validate(isIp, view) else added)
      && (r.Updated? ==> t == State(next, view) && r.effective == view)
      && (!r.Updated? ==> t == s)
  {
    hide NormalValue, Validate;
    var n := Normalize(Kept(env, wanted, s.file));
    assert n == next;
    assert Normalize(Apply(env, n)) == view;
  }

  /** An update that is answered as saved takes effect: every setting the environment does not own holds the
      wanted value, normalised, in the file and, but for a URL base that normalising changes once more, in
      effect; every other one keeps the file's in the file and the environment's in effect. */
  lemma UpdateTakesEffect(isIp: IsIp, env: Env, s: State, wanted: Config, saves: bool, i: Index)
    requires Normalised(s.file)
    ensures
      var (t, r) := Update(isIp, env, s, wanted, saves);
      r.Updated? ==>
        && r.effective == t.effective
        && (i !in env.owned ==>
              && t.file[i] == NormalValue(i, wanted[i])
              && (t.effective[i] == t.file[i] <==> SettledAt(t.file, i)))
        && (i in env.owned ==>
              && (t.file[i] == s.file[i] <==> SettledAt(s.file, i))
              && t.effective[i] == NormalValue(i, env.values[i]))
  {
    hide Validate, NormalValue, SettledAt;
    var t := Update(isIp, env, s, wanted, saves).0;
    NormalisedSettles(s.file, i);
    if Update(isIp, env, s, wanted, saves).1.Updated? {
      assert t.file == Normalize(Kept(env, wanted, s.file));
      assert Normalised(t.file);
      NormalisedSettles(t.file, i);
    }
  }

  /** Over any run what the file holds is normalised. */
  lemma FileIsNormalised(isIp: IsIp, env: Env, decoded: Config, calls: seq<(Config, bool)>)
    requires Load(isIp, env, decoded).Some?
    ensures Normalised(Run(isIp, env, Load(isIp, env, decoded).value, calls).file)
  {
    RunNormalised(isIp, env, Load(isIp, env, decoded).value, calls);
  }

  lemma {:induction false} RunNormalised(isIp: IsIp, env: Env, s: State, calls: seq<(Config, bool)>)
    requires Normalised(s.file)
    ensures Normalised(Run(isIp, env, s, calls).file)
    decreases |calls|
  {
    hide Normalize, Valid, NewProblems, Apply, Kept;
    if calls != [] {
      RunNormalised(isIp, env, Update(isIp, env, s, calls[0].0, calls[0].1).0, calls[1..]);
    }
  }

  /** Over any run the settings the environment owns keep the values the file had at load. Only a URL
      base that ends in white space does not: the first update that is saved changes it. */
  lemma OwnedSettingsStay(isIp: IsIp, env: Env, decoded: Config, calls: seq<(Config, bool)>, i: Index)
    requires Load(isIp, env, decoded).Some? && i in env.owned
    requires i == URL_BASE ==> !EndsInSpace(Normalize(decoded)[URL_BASE].s)
    ensures Run(isIp, env, Load(isIp, env, decoded).value, calls).file[i] == Normalize(decoded)[i]
  {
    assert HasKind(decoded[i], FIELDS[i].kind);
    NormalTwice(i, decoded[i]);
    SettledStays(isIp, env, Load(isIp, env, decoded).value, calls, i);
  }

  lemma {:induction false} SettledStays(isIp: IsIp, env: Env, s: State, calls: seq<(Config, bool)>, i: Index)
    requires i in env.owned && NormalValue(i, s.file[i]) == s.file[i]
    ensures Run(isIp, env, s, calls).file[i] == s.file[i]
    decreases |calls|
  {
    if calls != [] {
      SettledStays(isIp, env, Update(isIp, env, s, calls[0].0, calls[0].1).0, calls[1..], i);
    }
  }

  lemma LooseUrlBaseDrifts(isIp: IsIp, env: Env, decoded: Config, wanted: Config)
    requires Load(isIp, env, decoded).Some? && URL_BASE in env.owned
    requires EndsInSpace(Normalize(decoded)[URL_BASE].s)
    requires Update(isIp, env, Load(isIp, env, decoded).value, wanted, true).1.Updated?
    ensures Update(isIp, env, Load(isIp, env, decoded).value, wanted, true).0.file[URL_BASE] != Normalize(decoded)[URL_BASE]
  {
    assert HasKind(decoded[URL_BASE], FIELDS[URL_BASE].kind);
    NormalTwice(URL_BASE, decoded[URL_BASE]);
  }

  /** A configuration without problems. */
  const SAMPLE: Config := DEFAULT[API_KEY := S("0123456789abcdef0123")]

  lemma SampleTexts()
    ensures Trimmed("0123456789abcdef0123", SPACES) && Trimmed("Dupearr", SPACES)
    ensures Lower("Forms") == "forms" && Lower("Enabled") == "enabled" && Lower("info") == "info" && Lower("main") == "main"
    ensures SplitList("") == []
  {
    PrintedIsTrimmed("0123456789abcdef0123");
    PrintedIsTrimmed("Dupearr");
    hide Trimmed;
  }

  lemma SampleIsSettled(i: Index)
    ensures NormalValue(i, SAMPLE[i]) == SAMPLE[i]
  {
    hide Trim, Lower, SplitList, Trimmed;
    SampleTexts();
    SampleIsTrimmed(i);
    EmptyIsTrimmed();
  }

  lemma EmptyIsTrimmed()
    ensures Trim("", SPACES) == "" && Trim("", {'/'}) == ""
  {
    TrimFixed("", SPACES);
    TrimFixed("", {'/'});
  }

  lemma SampleIsTrimmed(i: Index)
    ensures SAMPLE[i].S? ==> Trim(SAMPLE[i].s, SPACES) == SAMPLE[i].s
  {
    hide Trimmed, Trim;
    if SAMPLE[i].S? {
      SampleEnds(i);
      PrintedIsTrimmed(SAMPLE[i].s);
      TrimFixed(SAMPLE[i].s, SPACES);
    }
  }

  lemma SampleEnds(i: Index)
    requires SAMPLE[i].S?
    ensures var s := SAMPLE[i].s; s == "" || (Printed(s[0]) && Printed(s[|s| - 1]))
  {
  }

  lemma SampleIsValid(isIp: IsIp)
    ensures Normalize(SAMPLE) == SAMPLE && Valid(isIp, SAMPLE)
  {
    forall i: Index ensures Normalize(SAMPLE)[i] == SAMPLE[i] {
      SampleIsSettled(i);
    }
    ValidMeans(isIp, SAMPLE);
    forall i: Index ensures Check(isIp, SAMPLE, i).None? {
      SampleChecks(isIp, i);
    }
  }

  lemma SampleChecks(isIp: IsIp, i: Index)
    ensures Check(isIp, SAMPLE, i).None?
  {
    SampleTextsAreGood();
    hide ApiKeyProblem, NameProblem, PathProblem;
  }

  lemma SampleTextsAreGood()
    ensures ApiKeyProblem("0123456789abcdef0123").None?
    ensures NameProblem("Dupearr").None? && NameProblem("main").None? && PathProblem(false, "").None?
  {
    assert forall k | 0 <= k < 20 :: KeyChar("0123456789abcdef0123"[k]);
  }

  /** The environment sets the URL base. */
  const BASE_ENV := Env({URL_BASE}, SAMPLE)

  /** A drift: the file holds "a /", the environment hides it, and saving what is there changes it. */
  lemma BaseDrifts(isIp: IsIp)
    ensures
      var decoded := SAMPLE[URL_BASE := S("a /")];
      && Load(isIp, BASE_ENV, decoded).Some?
      && var s := Load(isIp, BASE_ENV, decoded).value;
         && s.file[URL_BASE] == S("/a ")
         && Update(isIp, BASE_ENV, s, s.file, true).1.Updated?
         && Update(isIp, BASE_ENV, s, s.file, true).0.file[URL_BASE] == S("/a")
  {
    var decoded: Config := SAMPLE[URL_BASE := S("a /")];
    var file := Normalize(decoded);
    var next := Normalize(Kept(BASE_ENV, file, file));
    SampleIsValid(isIp);
    LooseFileIs(file);
    LooseNextIs(file, next);
    hide Normalize, Kept;
    assert Apply(BASE_ENV, file) == SAMPLE && Apply(BASE_ENV, next) == SAMPLE;
    SlashAIsValid(isIp, next);
    hide Apply;
  }

  lemma LooseFileIs(file: Config)
    requires file == Normalize(SAMPLE[URL_BASE := S("a /")])
    ensures file[URL_BASE] == S("/a ") && forall i: Index | i != URL_BASE :: file[i] == SAMPLE[i]
  {
    LooseBase();
    forall i: Index ensures file[i] == if i == URL_BASE then S("/a ") else SAMPLE[i] {
      SampleIsSettled(i);
    }
  }

  lemma LooseNextIs(file: Config, next: Config)
    requires file[URL_BASE] == S("/a ") && forall i: Index | i != URL_BASE :: file[i] == SAMPLE[i]
    requires next == Normalize(Kept(BASE_ENV, file, file))
    ensures next[URL_BASE] == S("/a") && forall i: Index | i != URL_BASE :: next[i] == SAMPLE[i]
  {
    LooseBase();
    forall i: Index ensures next[i] == if i == URL_BASE then S("/a") else SAMPLE[i] {
      SampleIsSettled(i);
    }
  }

  lemma SlashAIsValid(isIp: IsIp, c: Config)
    requires c[URL_BASE] == S("/a") && forall i: Index | i != URL_BASE :: c[i] == SAMPLE[i]
    ensures Valid(isIp, c)
  {
    LooseBase();
    GoodLetter();
    ValidMeans(isIp, c);
    hide Check, UrlBaseProblem, NormalizeUrlBase, Valid;
    forall i: Index ensures Check(isIp, Normalize(c), i).None? {
      forall j: Index | j != URL_BASE ensures Normalize(c)[j] == SAMPLE[j] {
        SampleIsSettled(j);
      }
      SampleChecks(isIp, i);
      CheckReads(isIp, Normalize(c), SAMPLE, i);
    }
  }

  // ----- Starting again -----

  /** Does the program start on a file that holds `c`? `key` is the API key it would generate. */
  predicate Starts(isIp: IsIp, env: Env, c: Config, key: string) {
    Load(isIp, env, Reread(c, key)).Some?
  }

  /** Of a setting that is checked and has no problem, only what normalising sees counts. */
  lemma RereadSettles(isIp: IsIp, c: Config, i: Index, key: string)
    requires i != PROXIES && i != HOSTS
    requires c[i].S? && Blank(c[i].s) && !FIELDS[i].optional ==> i == BIND
    ensures NormalValue(i, Reread(c, key)[i]) == NormalValue(i, c[i])
  {
    if c[i].S? {
      TrimTwice(c[i].s, SPACES);
      if i == BIND && Blank(c[i].s) {
        TrimFixed("*", SPACES);
      }
    }
  }

  lemma BlankIsRefused(isIp: IsIp, c: Config, i: Index)
    requires c[i].S? && Blank(c[i].s) && !FIELDS[i].optional && i != BIND
    ensures Check(isIp, Normalize(Normalize(c)), i).Some?
  {
    BlankStaysBlank(i, c[i].s);
    hide NormalText;
    assert Normalize(Normalize(c))[i] == S("");
  }

  lemma BlankStaysBlank(i: Index, s: string)
    requires Blank(s) && !FIELDS[i].optional && FIELDS[i].kind.Str? && i != BIND
    ensures NormalText(i, s) == "" && NormalText(i, "") == ""
  {
    assert Lower("") == "" && Trim("", SPACES) == "";
    hide Trim;
  }

  /** The trust lists are not checked: invalid entries are skipped by whoever reads them. */
  predicate SameChecked(c: Config, d: Config) {
    forall i: Index | i != PROXIES && i != HOSTS :: c[i] == d[i]
  }

  lemma SameProblems(isIp: IsIp, c: Config, d: Config, i: Index)
    requires SameChecked(c, d)
    ensures Check(isIp, c, i) == Check(isIp, d, i)
  {
    assert c[ENABLE_SSL] == d[ENABLE_SSL] && c[PORT] == d[PORT] && c[SSL_PORT] == d[SSL_PORT];
  }

  /** If the environment over a file would be valid as it is, the program starts on that file. */
  lemma ValidStarts(isIp: IsIp, env: Env, c: Config, key: string)
    requires Valid(isIp, Normalize(Apply(env, c)))
    ensures Starts(isIp, env, c, key)
  {
    var e := Normalize(Apply(env, c));
    var after := Normalize(Apply(env, Normalize(Reread(c, key))));
    ValidMeans(isIp, e);
    ValidMeans(isIp, after);
    ValidIsSettled(isIp, e);
    hide Valid, Check, NormalValue, RereadValue;
    forall i: Index | i != PROXIES && i != HOSTS ensures Normalize(after)[i] == Normalize(e)[i] {
      if i !in env.owned {
        var d := Apply(env, c);
        assert d[i] == c[i];
        if d[i].S? && Blank(d[i].s) && !FIELDS[i].optional && i != BIND {
          BlankIsRefused(isIp, d, i);
        }
        RereadSettles(isIp, c, i, key);
        assert Normalize(Normalize(e))[i] == Normalize(e)[i];
      }
    }
    forall i: Index ensures Check(isIp, Normalize(after), i).None? {
      SameProblems(isIp, Normalize(after), Normalize(e), i);
    }
  }

  const NO_ENV := Env({}, DEFAULT)

  /** A file that was clean at load: after any run the program still starts, with the same environment
      and with every override removed. */
  lemma AlwaysStartsAgain(isIp: IsIp, env: Env, decoded: Config, calls: seq<(Config, bool)>, key: string)
    requires Load(isIp, env, decoded).Some? && Valid(isIp, Normalize(decoded))
    ensures
      var s := Run(isIp, env, Load(isIp, env, decoded).value, calls);
      Starts(isIp, env, s.file, key) && Starts(isIp, NO_ENV, s.file, key)
  {
    var s0 := Load(isIp, env, decoded).value;
    var s := Run(isIp, env, s0, calls);
    NothingBadIsSaved(isIp, env, decoded, calls);
    ValidStarts(isIp, env, s.file, key);
    assert Apply(NO_ENV, s.file) == s.file;
    if env.owned == {} {
      assert Apply(env, s.file) == s.file;
    } else {
      ValidIsSettled(isIp, s.file);
    }
    ValidStarts(isIp, NO_ENV, s.file, key);
  }

  /** A file that passes the check: the program starts on it with this environment; and its own problems
      are problems the current file has. */
  lemma CheckedFileStarts(isIp: IsIp, env: Env, s: State, c: Config, key: string)
    requires CheckFile(isIp, env, s, c) == {}
    ensures Starts(isIp, env, Normalize(c), key)
    ensures Validate(isIp, Normalize(c)) <= Validate(isIp, s.file)
  {
    var n := Normalize(c);
    ValidIsSettled(isIp, Apply(env, n));
    ValidStarts(isIp, env, n, key);
    assert forall p <- Validate(isIp, n) :: p in Validate(isIp, s.file) || p in NewProblems(isIp, s.file, n);
  }

  /** Without overrides the file is checked only in the form it takes in effect: what is saved is valid on
      its own if and only if normalising the wanted URL base twice lays no white space bare. */
  lemma SavedFileIsClean(isIp: IsIp, s: State, wanted: Config)
    requires Update(isIp, NO_ENV, s, wanted, true).1.Updated?
    ensures
      var file := Update(isIp, NO_ENV, s, wanted, true).0.file;
      Valid(isIp, file) <==> !EndsInSpace(NormalizeUrlBase(NormalizeUrlBase(wanted[URL_BASE].s)))
  {
    var file := Update(isIp, NO_ENV, s, wanted, true).0.file;
    var n := Normalize(file);
    assert Apply(NO_ENV, file) == file;
    assert Apply(NO_ENV, s.file) == s.file;
    assert Kept(NO_ENV, wanted, s.file) == wanted && file == Normalize(wanted);
    ValidMeans(isIp, file);
    ValidMeans(isIp, n);
    UrlBaseTwice(file[URL_BASE].s);
    if EndsInSpace(n[URL_BASE].s) {
      if Check(isIp, n, URL_BASE).None? {
        GoodUrlBaseIsTight(n[URL_BASE].s);
      }
    } else {
      forall i: Index ensures Normalize(n)[i] == n[i] {
        assert HasKind(file[i], FIELDS[i].kind);
        NormalTwice(i, file[i]);
      }
      assert Normalize(n) == n;
    }
  }

  lemma GoodLetter()
    ensures UrlBaseProblem("/a").None?
  {
    assert "/a"[1..] == "a" && SegmentLength("a") == 1 && "a"[..1] == "a" && "a"[1..] == "";
    assert BadIn("").None? && BadIn("a").None?;
  }

  /** On any file: "a / /" as URL base is saved, without overrides, as a file with a problem it did not
      have. */
  lemma CleanFileGetsProblem(isIp: IsIp, s: State)
    requires Valid(isIp, s.file)
    ensures
      var (t, result) := Update(isIp, NO_ENV, s, s.file[URL_BASE := S("a / /")], true);
      result.Updated? && NewProblems(isIp, s.file, t.file) != {}
  {
    var wanted: Config := s.file[URL_BASE := S("a / /")];
    var next := Normalize(wanted);
    var effective := Normalize(next);
    assert Kept(NO_ENV, wanted, s.file) == wanted && Apply(NO_ENV, next) == next;
    LooseBase();
    GoodLetter();
    ValidIsSettled(isIp, s.file);
    ValidMeans(isIp, s.file);
    ValidMeans(isIp, effective);
    var n := Normalize(effective);
    var m := Normalize(s.file);
    hide Check, UrlBaseProblem, NormalizeUrlBase;
    forall i: Index | i != URL_BASE ensures n[i] == m[i] {
      assert Normalize(m)[i] == m[i];
    }
    assert n[URL_BASE] == S("/a");
    forall i: Index ensures Check(isIp, n, i).None? {
      CheckReads(isIp, n, m, i);
    }
    SavedFileIsClean(isIp, s, wanted);
    assert next[URL_BASE].s == "/a / ";
    assert EndsInSpace("/a ");
  }

  lemma CheckReads(isIp: IsIp, c: Config, d: Config, i: Index)
    requires forall j: Index | j != URL_BASE :: c[j] == d[j]
    ensures Check(isIp, c, i) == if i == URL_BASE then UrlBaseProblem(c[URL_BASE].s) else Check(isIp, d, i)
  {
    hide UrlBaseProblem;
    assert c[ENABLE_SSL] == d[ENABLE_SSL] && c[PORT] == d[PORT] && c[SSL_PORT] == d[SSL_PORT];
  }

  // ----- Removing some of the overrides -----

  /** With SSL on, settings that must fit together: the ports, and the certificate with its key. */
  predicate Clash(c: Config) {
    c[ENABLE_SSL].b && (c[PORT].n == c[SSL_PORT].n || Blank(c[SSL_CERT].s) || Blank(c[SSL_KEY].s))
  }

  /** A mix of two configurations without problems has none but a clash. */
  lemma MixHasOnlyClashes(isIp: IsIp, a: Config, b: Config, n: Config, i: Index)
    requires Check(isIp, a, i).None? && Check(isIp, b, i).None?
    requires n[i] == a[i] || n[i] == b[i]
    ensures Check(isIp, n, i).Some? ==>
              n[ENABLE_SSL].b && ((i == SSL_PORT && n[PORT].n == n[SSL_PORT].n) || ((i == SSL_CERT || i == SSL_KEY) && n[i].s == ""))
  {
    hide HasControl, UrlBaseProblem, ApiKeyProblem, NameProblem;
  }

  lemma ClashIsRefused(isIp: IsIp, c: Config)
    requires Clash(c)
    ensures !Valid(isIp, c)
  {
    var n := Normalize(c);
    ValidMeans(isIp, c);
    OnlyTextsAreNormalised(c);
    assert Check(isIp, n, SSL_PORT).Some? || Check(isIp, n, SSL_CERT).Some? || Check(isIp, n, SSL_KEY).Some?;
  }

  lemma OnlyTextsAreNormalised(c: Config)
    ensures
      var n := Normalize(c);
      && n[ENABLE_SSL] == c[ENABLE_SSL] && n[PORT] == c[PORT] && n[SSL_PORT] == c[SSL_PORT]
      && (n[SSL_CERT].s == "" <==> Blank(c[SSL_CERT].s)) && (n[SSL_KEY].s == "" <==> Blank(c[SSL_KEY].s))
  {
  }

  /** If the file is valid with all overrides and with none, then with some of them it is valid unless
      the mix of file and environment clashes. */
  lemma FewerOverrides(isIp: IsIp, env: Env, fewer: set<Index>, c: Config)
    requires fewer <= env.owned && Valid(isIp, c) && Valid(isIp, Apply(env, c))
    ensures
      var mix := Apply(env.(owned := fewer), c);
      Valid(isIp, mix) <==> !Clash(mix)
  {
    var mix := Apply(env.(owned := fewer), c);
    if Clash(mix) {
      ClashIsRefused(isIp, mix);
    } else {
      var n := Normalize(mix);
      ValidMeans(isIp, c);
      ValidMeans(isIp, Apply(env, c));
      ValidMeans(isIp, mix);
      OnlyTextsAreNormalised(mix);
      hide Check, Valid, NormalValue;
      forall i: Index ensures Check(isIp, n, i).None? {
        MixHasOnlyClashes(isIp, Normalize(c), Normalize(Apply(env, c)), n, i);
      }
    }
  }

  /** Two ports swapped by the environment: with one of the overrides gone they clash. */
  lemma SwappedPortsClash(isIp: IsIp, c: Config)
    requires Valid(isIp, c) && c[ENABLE_SSL].b
    ensures
      var env := Env({PORT, SSL_PORT}, c[PORT := c[SSL_PORT]][SSL_PORT := c[PORT]]);
      Valid(isIp, Apply(env, c)) && !Valid(isIp, Apply(env.(owned := {PORT}), c))
  {
    var swapped: Config := c[PORT := c[SSL_PORT]][SSL_PORT := c[PORT]];
    var env := Env({PORT, SSL_PORT}, swapped);
    var all := Apply(env, c);
    assert all == swapped;
    ValidMeans(isIp, c);
    ValidMeans(isIp, all);
    assert Check(isIp, Normalize(c), SSL_PORT).None? && Check(isIp, Normalize(c), PORT).None?;
    forall i: Index ensures Check(isIp, Normalize(all), i).None? {
      assert Check(isIp, Normalize(c), i).None?;
      SwappedChecks(isIp, Normalize(c), Normalize(all), i);
    }
    ClashIsRefused(isIp, Apply(env.(owned := {PORT}), c));
  }

  lemma SwappedChecks(isIp: IsIp, c: Config, d: Config, i: Index)
    requires d[PORT] == c[SSL_PORT] && d[SSL_PORT] == c[PORT]
    requires forall j: Index | j != PORT && j != SSL_PORT :: c[j] == d[j]
    requires Check(isIp, c, PORT).None? && Check(isIp, c, SSL_PORT).None? && Check(isIp, c, i).None?
    ensures Check(isIp, d, i).None?
  {
    assert c[ENABLE_SSL] == d[ENABLE_SSL];
  }
}
