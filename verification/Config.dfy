/** The settings: their table, their canonical form, their validation, and the environment laid over
    the file.

    A configuration is the row of its values in the order of the table of fields. */
module Config {
  import opened Wrappers
  import opened Text

  datatype Kind = Str | Num | Flag

  datatype Field = Field(xml: string, env: string, optional: bool, kind: Kind)

  const BIND := 0
  const PORT := 1
  const URL_BASE := 2
  const ENABLE_SSL := 3
  const SSL_PORT := 4
  const SSL_CERT := 5
  const SSL_KEY := 6
  const API_KEY := 7
  const METHOD := 8
  const REQUIRED := 9
  const PROXIES := 10
  const HOSTS := 11
  const LOG_LEVEL := 12
  const LOG_SIZE := 13
  const INSTANCE := 14
  const BROWSER := 15
  const BRANCH := 16
  const COUNT := 17

  /** An empty `env`: the setting has no environment variable. */
  const FIELDS: seq<Field> := [
    Field("BindAddress", "DUPEARR__SERVER__BINDADDRESS", false, Str),
    Field("Port", "DUPEARR__SERVER__PORT", false, Num),
    Field("UrlBase", "DUPEARR__SERVER__URLBASE", true, Str),
    Field("EnableSsl", "DUPEARR__SERVER__ENABLESSL", false, Flag),
    Field("SslPort", "DUPEARR__SERVER__SSLPORT", false, Num),
    Field("SslCertPath", "DUPEARR__SERVER__SSLCERTPATH", true, Str),
    Field("SslKeyPath", "DUPEARR__SERVER__SSLKEYPATH", true, Str),
    Field("ApiKey", "DUPEARR__AUTH__APIKEY", false, Str),
    Field("AuthenticationMethod", "DUPEARR__AUTH__METHOD", false, Str),
    Field("AuthenticationRequired", "DUPEARR__AUTH__REQUIRED", false, Str),
    Field("TrustedProxies", "DUPEARR__AUTH__TRUSTEDPROXIES", true, Str),
    Field("AllowedHosts", "DUPEARR__AUTH__ALLOWEDHOSTS", true, Str),
    Field("LogLevel", "DUPEARR__LOG__LEVEL", false, Str),
    Field("LogSizeLimit", "DUPEARR__LOG__SIZELIMIT", false, Num),
    Field("InstanceName", "DUPEARR__APP__INSTANCENAME", false, Str),
    Field("LaunchBrowser", "", false, Flag),
    Field("Branch", "", false, Str)]

  datatype Value = S(s: string) | N(n: int) | B(b: bool)

  predicate HasKind(v: Value, kind: Kind) {
    match kind
    case Str => v.S?
    case Num => v.N? && MIN_INT <= v.n <= MAX_INT
    case Flag => v.B?
  }

  predicate WellTyped(c: seq<Value>) {
    |c| == COUNT && forall i | 0 <= i < COUNT :: HasKind(c[i], FIELDS[i].kind)
  }

  /** Defaults; the API key is generated. */
  const DEFAULT: seq<Value> := [
    S("*"), N(3873), S(""), B(false), N(9873), S(""), S(""), S(""), S("Forms"), S("Enabled"), S(""), S(""),
    S("info"), N(1), S("Dupearr"), B(false), S("main")]

  type Config = c: seq<Value> | WellTyped(c) witness DEFAULT

  type Index = i: nat | i < COUNT

  function Put(c: Config, i: Index, v: Value): (d: Config)
    requires HasKind(v, FIELDS[i].kind)
    ensures forall j: Index :: d[j] == if j == i then v else c[j]
  {
    c[i := v]
  }

  // ----- Canonical form -----

  /** "" or "/something". */
  function NormalizeUrlBase(s: string): string {
    var t := Trim(Trim(s, SPACES), {'/'});
    if t == "" then "" else "/" + t
  }

  function NormalizeList(s: string): string {
    Join(SplitList(s), ", ")
  }

  function CanonicalMethod(s: string): string {
    var t := Trim(s, SPACES);
    if Lower(t) == "none" then "None"
    else if Lower(t) == "forms" || Lower(t) == "basic" then "Forms"
    else if Lower(t) == "external" then "External"
    else t
  }

  function CanonicalRequired(s: string): string {
    var t := Trim(s, SPACES);
    if Lower(t) == "enabled" then "Enabled"
    else if Lower(t) == "disabledforlocaladdresses" then "DisabledForLocalAddresses"
    else t
  }

  function CanonicalLogLevel(s: string): string {
    var t := Lower(Trim(s, SPACES));
    if t == "warning" then "warn" else if t == "fatal" then "error" else t
  }

  function NormalText(i: Index, s: string): string {
    if i == BIND then if Blank(s) then "*" else Trim(s, SPACES)
    else if i == URL_BASE then NormalizeUrlBase(s)
    else if i == METHOD then CanonicalMethod(s)
    else if i == REQUIRED then CanonicalRequired(s)
    else if i == PROXIES || i == HOSTS then NormalizeList(s)
    else if i == LOG_LEVEL then CanonicalLogLevel(s)
    else if i == BRANCH then Lower(Trim(s, SPACES))
    else Trim(s, SPACES)
  }

  function NormalValue(i: Index, v: Value): Value {
    match v case S(s) => S(NormalText(i, s)) case _ => v
  }

  function Normalize(c: Config): Config {
    seq(COUNT, i requires 0 <= i < COUNT => NormalValue(i, c[i]))
  }

  /** What a file is read as, and what is saved, was normalised, but once only. */
  ghost predicate Normalised(c: Config) {
    exists x: Config :: Normalize(x) == c
  }

  // ----- What normalising twice does -----

  lemma MethodTwice(s: string)
    ensures CanonicalMethod(CanonicalMethod(s)) == CanonicalMethod(s)
    ensures Trimmed(CanonicalMethod(s), SPACES)
  {
    TrimTrims(s, SPACES);
    MethodNames();
    hide Lower, Trimmed;
    TrimFixed(CanonicalMethod(s), SPACES);
  }

  lemma MethodNames()
    ensures Lower("None") == "none" && Lower("Forms") == "forms" && Lower("External") == "external"
    ensures Trimmed("None", SPACES) && Trimmed("Forms", SPACES) && Trimmed("External", SPACES)
  {
  }

  lemma RequiredNames()
    ensures Lower("Enabled") == "enabled" && Lower("DisabledForLocalAddresses") == "disabledforlocaladdresses"
    ensures Trimmed("Enabled", SPACES) && Trimmed("DisabledForLocalAddresses", SPACES)
  {
  }

  lemma RequiredTwice(s: string)
    ensures CanonicalRequired(CanonicalRequired(s)) == CanonicalRequired(s)
    ensures Trimmed(CanonicalRequired(s), SPACES)
  {
    TrimTrims(s, SPACES);
    RequiredNames();
    hide Lower, Trimmed;
    TrimFixed(CanonicalRequired(s), SPACES);
  }

  lemma LogLevelTwice(s: string)
    ensures CanonicalLogLevel(CanonicalLogLevel(s)) == CanonicalLogLevel(s)
    ensures Trimmed(CanonicalLogLevel(s), SPACES)
  {
    var t := Trim(s, SPACES);
    TrimTrims(s, SPACES);
    LowerTrimmed(t);
    LowerTwice(t);
    TrimFixed(CanonicalLogLevel(s), SPACES);
    assert Lower("warn") == "warn" && Lower("error") == "error";
  }

  lemma BranchTwice(s: string)
    ensures Lower(Trim(Lower(Trim(s, SPACES)), SPACES)) == Lower(Trim(s, SPACES))
    ensures Trimmed(Lower(Trim(s, SPACES)), SPACES)
  {
    TrimTrims(s, SPACES);
    LowerTrimmed(Trim(s, SPACES));
    TrimFixed(Lower(Trim(s, SPACES)), SPACES);
    LowerTwice(Trim(s, SPACES));
  }

  lemma ListTwice(s: string)
    ensures NormalizeList(NormalizeList(s)) == NormalizeList(s)
  {
    SplitJoin(SplitList(s));
  }

  /** The list a reader splits is the one that was typed. */
  lemma ListKeepsWords(s: string)
    ensures SplitList(NormalizeList(s)) == SplitList(s)
  {
    SplitJoin(SplitList(s));
  }

  predicate EndsInSpace(s: string) {
    s != "" && s[|s| - 1] in SPACES
  }

  /** Of all canonical forms only the URL base's may change when it is canonicalised again: it does
      exactly when taking the slashes off its end has laid bare white space. */
  lemma UrlBaseTwice(s: string)
    ensures
      var t := NormalizeUrlBase(s);
      NormalizeUrlBase(t) == t <==> !EndsInSpace(t)
  {
    var t := Trim(Trim(s, SPACES), {'/'});
    TrimTrims(Trim(s, SPACES), {'/'});
    if t != "" {
      UrlBaseOf(t);
    }
  }

  lemma UrlBaseOf(t: string)
    requires t != "" && Trimmed(t, {'/'})
    ensures NormalizeUrlBase("/" + t) == "/" + t <==> !EndsInSpace("/" + t)
  {
    var u := "/" + t;
    assert u[|u| - 1] == t[|t| - 1] && u[1..] == t;
    if EndsInSpace(u) {
      TrimRightClean(u, SPACES);
      var v := Trim(u, SPACES);
      TrimLeftClean(v[if v == "" then 0 else 1..], {'/'});
      TrimRightClean(TrimLeft(v, {'/'}), {'/'});
    } else {
      TrimFixed(u, SPACES);
      assert TrimLeft(u, {'/'}) == TrimLeft(t, {'/'}) == t;
      assert Trim(u, {'/'}) == t;
    }
  }

  lemma UrlBaseIs(s: string, a: string, t: string, b: string, c: string, d: string)
    requires s == a + (c + t + d) + b && All(a, SPACES) && All(b, SPACES) && All(c, {'/'}) && All(d, {'/'})
    requires t != "" && Trimmed(t, {'/'}) && Trimmed(c + t + d, SPACES)
    ensures NormalizeUrlBase(s) == "/" + t
  {
    TrimAround(a, c + t + d, b, SPACES);
    TrimAround(c, t, d, {'/'});
  }

  /** URL bases that are settled by the third and by the second normalisation only. */
  lemma LooseBase()
    ensures NormalizeUrlBase("a / /") == "/a / " && NormalizeUrlBase("/a / ") == "/a " && NormalizeUrlBase("/a ") == "/a"
    ensures NormalizeUrlBase("a /") == "/a " && NormalizeUrlBase("/a") == "/a"
  {
    hide Trim, TrimLeft, TrimRight, NormalizeUrlBase;
    UrlBaseIs("a / /", "", "a / ", "", "", "/");
    UrlBaseIs("/a / ", "", "a ", " ", "/", "/");
    UrlBaseIs("/a ", "", "a", " ", "/", "");
    UrlBaseIs("a /", "", "a ", "", "", "/");
    UrlBaseIs("/a", "", "a", "", "/", "");
  }

  /** Every value but a URL base is settled by normalising once. */
  lemma NormalTwice(i: Index, v: Value)
    requires HasKind(v, FIELDS[i].kind)
    ensures i != URL_BASE ==> NormalValue(i, NormalValue(i, v)) == NormalValue(i, v)
    ensures i == URL_BASE ==>
              (NormalValue(i, NormalValue(i, v)) == NormalValue(i, v) <==> !EndsInSpace(NormalValue(i, v).s))
  {
    if v.S? {
      var s := v.s;
      TrimTwice(s, SPACES);
      if i == BIND && !Blank(s) {
        assert !Blank(Trim(s, SPACES));
      } else if i == URL_BASE {
        UrlBaseTwice(s);
      } else if i == METHOD {
        MethodTwice(s);
      } else if i == REQUIRED {
        RequiredTwice(s);
      } else if i == PROXIES || i == HOSTS {
        ListTwice(s);
      } else if i == LOG_LEVEL {
        LogLevelTwice(s);
      } else if i == BRANCH {
        BranchTwice(s);
      }
    }
  }

  /** Only a URL base may change when it is normalised again. */
  predicate SettledAt(c: Config, i: Index) {
    i == URL_BASE ==> !EndsInSpace(c[URL_BASE].s)
  }

  lemma NormalisedSettles(c: Config, i: Index)
    requires Normalised(c)
    ensures NormalValue(i, c[i]) == c[i] <==> SettledAt(c, i)
  {
    var x: Config :| Normalize(x) == c;
    assert HasKind(x[i], FIELDS[i].kind) && c[i] == NormalValue(i, x[i]);
    NormalTwice(i, x[i]);
  }

  // ----- Values as text -----

  function Format(v: Value): string {
    match v
    case S(s) => s
    case N(n) => Itoa(n)
    case B(b) => if b then "True" else "False"
  }

  function ParseBool(s: string): Option<bool> {
    var t := Lower(Trim(s, SPACES));
    if t == "true" || t == "1" || t == "yes" then Some(true)
    else if t == "false" || t == "0" || t == "no" then Some(false)
    else None
  }

  function ReadValue(kind: Kind, raw: string): (v: Option<Value>)
    ensures v.Some? ==> HasKind(v.value, kind)
  {
    var t := Trim(raw, SPACES);
    match kind
    case Str => Some(S(t))
    case Num => (match Atoi(t) case None => None case Some(n) => Some(N(n)))
    case Flag => (match ParseBool(t) case None => None case Some(b) => Some(B(b)))
  }

  lemma BoolNames()
    ensures ParseBool("True") == Some(true) && ParseBool("False") == Some(false)
    ensures Trimmed("True", SPACES) && Trimmed("False", SPACES)
  {
    TrimFixed("True", SPACES);
    TrimFixed("False", SPACES);
    assert Lower("True") == "true" && Lower("False") == "false";
  }

  /** A stored value reads back, its text trimmed. */
  lemma ReadBack(v: Value, kind: Kind)
    requires HasKind(v, kind)
    ensures ReadValue(kind, Format(v)) == Some(if v.S? then S(Trim(v.s, SPACES)) else v)
  {
    match v
    case S(s) =>
    case N(n) =>
      AtoiItoa(n);
      TrimFixed(Itoa(n), SPACES);
    case B(b) =>
      BoolNames();
      TrimFixed(Format(v), SPACES);
  }

  /** What is read back of a printed configuration: trimmed values, defaults for blank ones that may not be. */
  function Reread(c: Config, key: string): Config {
    seq(COUNT, i requires 0 <= i < COUNT => RereadValue(i, c[i], key))
  }

  function RereadValue(i: Index, v: Value, key: string): (w: Value)
    requires HasKind(v, FIELDS[i].kind)
    ensures HasKind(w, FIELDS[i].kind)
  {
    match v
    case S(s) =>
      if Blank(s) && !FIELDS[i].optional then (if i == API_KEY then S(key) else DEFAULT[i]) else S(Trim(s, SPACES))
    case _ => v
  }

  // ----- The environment -----

  /** The settings the environment overrides, and the row their values are in. */
  datatype Env = Env(owned: set<Index>, values: Config)

  function Apply(env: Env, c: Config): Config {
    seq(COUNT, i requires 0 <= i < COUNT => if i in env.owned then env.values[i] else c[i])
  }

  // ----- Validation -----

  datatype Message =
    | NotAnAddress | BadPort | SamePort | NeededForSsl | Required | Long(max: nat) | ControlCharacter
    | KeyLength | KeyCharacter | NotOneOf | OutOfRange | EmptySegment | DotSegment | BadCharacter(c: char)

  datatype Problem = Problem(property: Index, message: Message)

  function ValidPort(n: int): bool {
    1 <= n <= 65535
  }

  predicate IsControl(c: char) {
    c < ' ' || '\U{007F}' <= c <= '\U{009F}'
  }

  predicate HasControl(s: string) {
    exists i | 0 <= i < |s| :: IsControl(s[i])
  }

  predicate Unreserved(c: char) {
    'a' <= c <= 'z' || 'A' <= c <= 'Z' || '0' <= c <= '9' || c in "-_.~"
  }

  predicate KeyChar(c: char) {
    'a' <= c <= 'z' || 'A' <= c <= 'Z' || '0' <= c <= '9' || c in "-_"
  }

  /** The first segment's problem, else that of the rest. */
  function SegmentsProblem(s: string): Option<Message>
    decreases |s|
  {
    var n := SegmentLength(s);
    var seg := s[..n];
    if seg == "" then Some(EmptySegment)
    else if seg == "." || seg == ".." then Some(DotSegment)
    else if BadIn(seg).Some? then BadIn(seg)
    else if n < |s| then SegmentsProblem(s[n + 1..])
    else None
  }

  function SegmentLength(s: string): (n: nat)
    ensures n <= |s|
    ensures forall i | 0 <= i < n :: s[i] != '/'
    ensures n < |s| ==> s[n] == '/'
  {
    if s == "" || s[0] == '/' then 0 else 1 + SegmentLength(s[1..])
  }

  function BadIn(seg: string): Option<Message> {
    if seg == "" then None else if !Unreserved(seg[0]) then Some(BadCharacter(seg[0])) else BadIn(seg[1..])
  }

  function UrlBaseProblem(s: string): Option<Message> {
    if s == "" then None
    else if |s| > 200 then Some(Long(200))
    else SegmentsProblem(if s[0] == '/' then s[1..] else s)
  }

  function ApiKeyProblem(s: string): Option<Message> {
    if s == "" then Some(Required)
    else if |s| < 20 || |s| > 128 then Some(KeyLength)
    else if exists i | 0 <= i < |s| :: !KeyChar(s[i]) then Some(KeyCharacter)
    else None
  }

  function PathProblem(ssl: bool, s: string): Option<Message> {
    if ssl && s == "" then Some(NeededForSsl)
    else if |s| > 4096 then Some(Long(4096))
    else if HasControl(s) then Some(ControlCharacter)
    else None
  }

  function NameProblem(s: string): Option<Message> {
    if s == "" then Some(Required)
    else if |s| > 100 then Some(Long(100))
    else if HasControl(s) then Some(ControlCharacter)
    else None
  }

  function Unless(ok: bool, m: Message): Option<Message> {
    if ok then None else Some(m)
  }

  /** The problem of one property of a normalised configuration. `isIp` says which texts are addresses. */
  function Check(isIp: string -> bool, c: Config, i: Index): Option<Message> {
    if i == BIND then Unless(c[BIND].s == "*" || isIp(c[BIND].s), NotAnAddress)
    else if i == PORT then Unless(ValidPort(c[PORT].n), BadPort)
    else if i == URL_BASE then UrlBaseProblem(c[URL_BASE].s)
    else if i == SSL_PORT then
      if !ValidPort(c[SSL_PORT].n) then Some(BadPort)
      else Unless(!(c[ENABLE_SSL].b && c[SSL_PORT].n == c[PORT].n), SamePort)
    else if i == SSL_CERT || i == SSL_KEY then PathProblem(c[ENABLE_SSL].b, c[i].s)
    else if i == API_KEY then ApiKeyProblem(c[API_KEY].s)
    else if i == METHOD then Unless(c[METHOD].s in ["None", "Forms", "External"], NotOneOf)
    else if i == REQUIRED then Unless(c[REQUIRED].s in ["Enabled", "DisabledForLocalAddresses"], NotOneOf)
    else if i == LOG_LEVEL then Unless(c[LOG_LEVEL].s in ["trace", "debug", "info", "warn", "error"], NotOneOf)
    else if i == LOG_SIZE then Unless(1 <= c[LOG_SIZE].n <= 10, OutOfRange)
    else if i == INSTANCE || i == BRANCH then NameProblem(c[i].s)
    else None
  }

  /** Every problem; there is at most one a property. The canonical form is what is checked. */
  function Validate(isIp: string -> bool, c: Config): set<Problem> {
    var n := Normalize(c);
    set i: Index | i < COUNT && Check(isIp, n, i).Some? :: Problem(i, Check(isIp, n, i).value)
  }
}
