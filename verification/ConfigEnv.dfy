/** Reading the overrides from the environment, and the manager's own fields and loops. */
module ConfigEnv {
  import opened Wrappers
  import opened Text
  import opened Config
  import opened ConfigManager

  // ----- Names -----

  /** Byte order of strings. */
  predicate Less(a: string, b: string) {
    b != "" && (a == "" || a[0] < b[0] || (a[0] == b[0] && Less(a[1..], b[1..])))
  }

  lemma {:induction false} NotLess(a: string)
    ensures !Less(a, a)
  {
    if a != "" {
      NotLess(a[1..]);
    }
  }

  lemma {:induction false} LessIsTotal(a: string, b: string)
    ensures a == b || Less(a, b) || Less(b, a)
    ensures !(Less(a, b) && Less(b, a)) && !Less(a, a)
    decreases |a| + |b|
  {
    if a != "" && b != "" {
      LessIsTotal(a[1..], b[1..]);
      if a[0] == b[0] && a[1..] == b[1..] {
        assert a == [a[0]] + a[1..] && b == [b[0]] + b[1..];
      }
    }
    NotLess(a);
  }

  lemma {:induction false} LessTransitive(a: string, b: string, c: string)
    requires Less(a, b) && Less(b, c)
    ensures Less(a, c)
    decreases |a|
  {
    if a != "" && a[0] == b[0] && b[0] == c[0] {
      LessTransitive(a[1..], b[1..], c[1..]);
    }
  }

  /** The text before and after the first "=". */
  function Cut(kv: string): Option<(string, string)> {
    if kv == "" then None
    else if kv[0] == '=' then Some(("", kv[1..]))
    else
      match Cut(kv[1..])
      case None => None
      case Some(p) => Some(([kv[0]] + p.0, p.1))
  }

  lemma {:induction false} CutAtFirst(name: string, value: string)
    requires '=' !in name
    ensures Cut(name + "=" + value) == Some((name, value))
    decreases |name|
  {
    var kv := name + "=" + value;
    if name == "" {
      assert kv[1..] == value;
    } else {
      assert kv[1..] == name[1..] + "=" + value;
      CutAtFirst(name[1..], value);
      assert [name[0]] + name[1..] == name;
    }
  }

  /** An entry of the variable, whatever the case of its name, that is set. */
  predicate Sets(kv: string, canonical: string) {
    Cut(kv).Some? && EqualFold(Cut(kv).value.0, canonical) && !Blank(Cut(kv).value.1)
  }

  /** Just the entries with an equals sign set it, and not with white space only. */
  lemma EntrySets(name: string, value: string, canonical: string)
    requires '=' !in name
    ensures Sets(name + "=" + value, canonical) <==> Lower(name) == Lower(canonical) && exists c <- value :: c !in SPACES
    ensures !Sets(name, canonical)
  {
    CutAtFirst(name, value);
    NothingToCut(name);
    hide Cut, Lower;
    BlankMeans(value);
  }

  lemma {:induction false} NothingToCut(name: string)
    requires '=' !in name
    ensures Cut(name).None?
    decreases |name|
  {
    if name != "" {
      NothingToCut(name[1..]);
    }
  }

  predicate Prefer(candidate: string, current: string, canonical: string) {
    current != canonical && (candidate == canonical || Less(candidate, current))
  }

  /** Entry `i` decides: spelled as documented, else smallest among the spellings; the first of equals. */
  ghost predicate Decides(environ: seq<string>, canonical: string, i: nat) {
    && i < |environ| && Sets(environ[i], canonical)
    && var name := Cut(environ[i]).value.0;
       forall j | 0 <= j < |environ| && Sets(environ[j], canonical) ::
         var other := Cut(environ[j]).value.0;
         || (other == name && i <= j)
         || (other != name && (name == canonical || (other != canonical && Less(name, other))))
  }

  lemma OneDecides(environ: seq<string>, canonical: string, i: nat, j: nat)
    requires Decides(environ, canonical, i) && Decides(environ, canonical, j)
    ensures i == j
  {
    LessIsTotal(Cut(environ[i]).value.0, Cut(environ[j]).value.0);
  }

  method LookupEnv(environ: seq<string>, canonical: string) returns (name: string, value: string, ok: bool)
    ensures ok <==> exists i | 0 <= i < |environ| :: Sets(environ[i], canonical)
    ensures ok ==> exists i: nat :: Decides(environ, canonical, i) && Cut(environ[i]) == Some((name, value))
  {
    name, value, ok := "", "", false;
    ghost var at := 0;
    for k := 0 to |environ|
      invariant ok <==> exists i | 0 <= i < k :: Sets(environ[i], canonical)
      invariant ok ==> at < k && Decides(environ[..k], canonical, at) && Cut(environ[at]) == Some((name, value))
    {
      assert environ[..k + 1] == environ[..k] + [environ[k]];
      if Sets(environ[k], canonical) {
        var n := Cut(environ[k]).value.0;
        LessIsTotal(n, name);
        LessIsTotal(n, canonical);
        if !ok || Prefer(n, name, canonical) {
          forall j | 0 <= j < k && Sets(environ[j], canonical) && ok
            ensures var other := Cut(environ[j]).value.0;
                    other != n && (n == canonical || (other != canonical && Less(n, other)))
          {
            var other := Cut(environ[j]).value.0;
            assert environ[..k][j] == environ[j];
            LessIsTotal(name, other);
            if n != canonical && other != name {
              LessTransitive(n, name, other);
            }
            LessIsTotal(n, other);
          }
          name, value, ok, at := n, Cut(environ[k]).value.1, true, k;
        }
      }
    }
    assert environ[..|environ|] == environ;
  }

  ghost predicate IsSet(environ: seq<string>, f: Index) {
    FIELDS[f].env != "" && exists i | 0 <= i < |environ| :: Sets(environ[i], FIELDS[f].env)
  }

  /** The entry that decides about the setting, read as the setting's kind. */
  ghost predicate ReadsAs(environ: seq<string>, f: Index, v: Option<Value>) {
    exists i: nat :: Decides(environ, FIELDS[f].env, i) && ReadValue(FIELDS[f].kind, Cut(environ[i]).value.1) == v
  }

  lemma ReadsAsOne(environ: seq<string>, f: Index, v: Option<Value>, w: Option<Value>)
    requires ReadsAs(environ, f, v) && ReadsAs(environ, f, w)
    ensures v == w
  {
    var i: nat :| Decides(environ, FIELDS[f].env, i) && ReadValue(FIELDS[f].kind, Cut(environ[i]).value.1) == v;
    var j: nat :| Decides(environ, FIELDS[f].env, j) && ReadValue(FIELDS[f].kind, Cut(environ[j]).value.1) == w;
    OneDecides(environ, FIELDS[f].env, i, j);
  }

  ghost predicate Unreadable(environ: seq<string>, f: Index) {
    IsSet(environ, f) && ReadsAs(environ, f, None)
  }

  ghost predicate Overridden(environ: seq<string>, f: Index, owned: set<Index>, v: Value) {
    && (f in owned <==> IsSet(environ, f))
    && (f in owned ==> ReadsAs(environ, f, Some(v)))
  }

  /** The overrides, one setting at a time; values that cannot be read are errors. */
  method ReadEnv(environ: seq<string>) returns (env: Env, failed: bool)
    ensures failed <==> exists f: Index :: Unreadable(environ, f)
    ensures !failed ==> forall f: Index :: Overridden(environ, f, env.owned, env.values[f])
  {
    hide IsSet, ReadsAs, ReadValue;
    var owned: set<Index>, values: Config := {}, DEFAULT;
    failed := false;
    for f := 0 to COUNT
      invariant failed ==> exists g: Index :: Unreadable(environ, g)
      invariant forall g: Index | g in owned :: g < f
      invariant !failed ==> forall g: Index | g < f :: Overridden(environ, g, owned, values[g])
    {
      var read := ReadField(environ, f);
      if read.Some? {
        match read.value
        case None =>
          assert Unreadable(environ, f);
          failed := true;
        case Some(v) =>
          owned, values := owned + {f}, Put(values, f, v);
      }
      assert !failed ==> Overridden(environ, f, owned, values[f]);
    }
    env := Env(owned, values);
    forall f: Index | !failed ensures !Unreadable(environ, f) {
      OverriddenIsReadable(environ, f, owned, values[f]);
    }
  }

  lemma OverriddenIsReadable(environ: seq<string>, f: Index, owned: set<Index>, v: Value)
    requires Overridden(environ, f, owned, v)
    ensures !Unreadable(environ, f)
  {
    if Unreadable(environ, f) {
      ReadsAsOne(environ, f, None, Some(v));
    }
  }

  method ReadField(environ: seq<string>, f: Index) returns (read: Option<Option<Value>>)
    ensures read.Some? <==> IsSet(environ, f)
    ensures read.Some? ==> ReadsAs(environ, f, read.value)
    ensures read.Some? && read.value.Some? ==> HasKind(read.value.value, FIELDS[f].kind)
  {
    read := None;
    if FIELDS[f].env != "" {
      var name, value, ok := LookupEnv(environ, FIELDS[f].env);
      if ok {
        read := Some(ReadValue(FIELDS[f].kind, value));
      }
    }
  }

  // ----- The manager -----

  class Manager {
    const isIp: IsIp
    const env: Env
    var file: Config
    var effective: Config

    constructor (isIp: IsIp, env: Env, s: State)
      ensures this.isIp == isIp && this.env == env && file == s.file && effective == s.effective
    {
      this.isIp, this.env, file, effective := isIp, env, s.file, s.effective;
    }

    /** apply: the fields the environment owns, one by one. */
    method ApplyEnv(c: Config) returns (out: Config)
      ensures out == Apply(env, c)
    {
      out := c;
      for i := 0 to COUNT
        invariant forall k: Index :: out[k] == if k < i && k in env.owned then env.values[k] else c[k]
      {
        if i in env.owned {
          out := out[i := env.values[i]];
        }
      }
    }

    method UpdateWith(wanted: Config, saves: bool) returns (r: Result)
      modifies this
      ensures (State(file, effective), r) == Update(isIp, env, old(State(file, effective)), wanted, saves)
    {
      var next := wanted;
      for i := 0 to COUNT
        invariant forall k: Index :: next[k] == if k < i && k in env.owned then file[k] else wanted[k]
      {
        if i in env.owned {
          next := next[i := file[i]];
        }
      }
      assert next == Kept(env, wanted, file);
      next := Normalize(next);
      var applied := ApplyEnv(next);
      var view := Normalize(applied);
      if !Valid(isIp, view) {
        return Invalid(Validate(isIp, view));
      }
      if env.owned != {} && NewProblems(isIp, file, next) != {} {
        return Invalid(NewProblems(isIp, file, next));
      }
      if !saves {
        return NotSaved;
      }
      file, effective := next, view;
      r := Updated(effective);
    }
  }
}
