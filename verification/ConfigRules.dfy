/** The rules of the settings, told one by one: what they are normalised to, and when they are valid. */
module ConfigRules {
  import opened Wrappers
  import opened Text
  import opened Config

  /** A letter or a digit of ASCII, by its code. */
  predicate IsLetter(c: char) {
    48 <= c as int <= 57 || 65 <= c as int <= 90 || 97 <= c as int <= 122
  }

  lemma LettersAre(c: char)
    ensures IsLetter(c) <==> 'a' <= c <= 'z' || 'A' <= c <= 'Z' || '0' <= c <= '9'
  {
  }

  /** No character below the space, and none of the two blocks of control characters above ASCII's letters. */
  predicate NoControls(s: string) {
    forall c <- s :: c as int >= 32 && !(127 <= c as int <= 159)
  }

  /** "" or "/" and segments between slashes: none empty, none that points elsewhere, each of unreserved
      characters. */
  predicate Segment(s: string) {
    s != "" && s != "." && s != ".." && forall c <- s :: IsLetter(c) || c in "-_.~"
  }

  ghost predicate Segments(s: string) {
    exists segs: seq<string> :: segs != [] && (forall seg <- segs :: Segment(seg)) && s == Join(segs, "/")
  }

  lemma {:induction false} BadInExactly(seg: string)
    ensures BadIn(seg).None? <==> forall c <- seg :: IsLetter(c) || c in "-_.~"
    decreases |seg|
  {
    if seg != "" {
      BadInExactly(seg[1..]);
      LettersAre(seg[0]);
      hide IsLetter;
      assert seg == [seg[0]] + seg[1..];
    }
  }

  lemma {:induction false} SlashFirst(seg: string, rest: string)
    requires '/' !in seg
    ensures SegmentLength(seg + "/" + rest) == |seg| && SegmentLength(seg) == |seg|
    decreases |seg|
  {
    if seg != "" {
      assert (seg + "/" + rest)[1..] == seg[1..] + "/" + rest;
      SlashFirst(seg[1..], rest);
    }
  }

  lemma SegmentHasNoSlash(seg: string)
    requires Segment(seg)
    ensures '/' !in seg
  {
    LettersAre('/');
  }

  lemma FirstSegment(s: string)
    ensures
      var n := SegmentLength(s);
      SegmentsProblem(s).None? <==> Segment(s[..n]) && (n < |s| ==> SegmentsProblem(s[n + 1..]).None?)
  {
    BadInExactly(s[..SegmentLength(s)]);
    hide BadIn, IsLetter;
  }

  lemma {:induction false} SegmentsExactly(s: string)
    ensures SegmentsProblem(s).None? <==> Segments(s)
    decreases |s|
  {
    var n := SegmentLength(s);
    FirstSegment(s);
    if n < |s| {
      SegmentsExactly(s[n + 1..]);
    }
    hide SegmentsProblem, Segment;
    if SegmentsProblem(s).None? {
      SegmentsJoin(s, n);
    }
    if Segments(s) {
      SegmentsCut(s, n);
    }
  }

  lemma JoinFirst(segs: seq<string>)
    ensures |segs| == 1 ==> Join(segs, "/") == segs[0]
    ensures |segs| > 1 ==> Join(segs, "/") == segs[0] + "/" + Join(segs[1..], "/")
  {
  }

  lemma CutAt(a: string, b: string)
    ensures var s := a + "/" + b; |a| < |s| && s[..|a|] == a && s[|a| + 1..] == b
  {
  }

  lemma SegmentsCons(seg: string, rest: string)
    requires Segment(seg) && Segments(rest)
    ensures Segments(seg + "/" + rest)
  {
    hide Segment, Join;
    var segs: seq<string> :| segs != [] && (forall s <- segs :: Segment(s)) && rest == Join(segs, "/");
    var all := [seg] + segs;
    JoinFirst(all);
    assert all[1..] == segs;
  }

  lemma OneSegment(s: string)
    requires Segment(s)
    ensures Segments(s)
  {
    hide Segment, Join;
    JoinFirst([s]);
  }

  lemma RejoinAt(s: string, n: nat)
    requires n < |s| && s[n] == '/'
    ensures s[..n] + "/" + s[n + 1..] == s
  {
    var slash := "/";
    assert s == s[..n] + ([s[n]] + s[n + 1..]);
    assert slash == [s[n]];
  }

  lemma SegmentsJoin(s: string, n: nat)
    requires n == SegmentLength(s) && Segment(s[..n]) && (n < |s| ==> Segments(s[n + 1..]))
    ensures Segments(s)
  {
    hide *;
    if n < |s| {
      SegmentsCons(s[..n], s[n + 1..]);
      RejoinAt(s, n);
    } else {
      OneSegment(s[..n]);
      WholeIs(s, n);
    }
  }

  lemma WholeIs(s: string, n: nat)
    requires n == |s|
    ensures s[..n] == s
  {
  }

  lemma SegmentsCut(s: string, n: nat)
    requires n == SegmentLength(s) && Segments(s)
    ensures Segment(s[..n]) && (n < |s| ==> Segments(s[n + 1..]))
  {
    var segs: seq<string> :| segs != [] && (forall seg <- segs :: Segment(seg)) && s == Join(segs, "/");
    hide Segment, Join, SegmentLength, Segments;
    JoinFirst(segs);
    SegmentHasNoSlash(segs[0]);
    if |segs| == 1 {
      SlashFirst(s, "");
      assert s[..n] == s;
    } else {
      var rest := Join(segs[1..], "/");
      SlashFirst(segs[0], rest);
      CutAt(segs[0], rest);
      RestHas(segs);
    }
  }

  lemma RestHas(segs: seq<string>)
    requires |segs| > 1 && forall seg <- segs :: Segment(seg)
    ensures Segments(Join(segs[1..], "/"))
  {
    hide Segment, Join;
    assert forall seg <- segs[1..] :: seg in segs;
  }

  // ----- When a configuration is valid -----

  function TextOf(v: Value): string {
    if v.S? then v.s else ""
  }

  function NumberOf(v: Value): int {
    if v.N? then v.n else 0
  }

  /** What the values of a normalised configuration must be. */
  ghost predicate Rules(isIp: string -> bool, c: Config) {
    && (c[BIND] == S("*") || isIp(TextOf(c[BIND])))
    && 1 <= NumberOf(c[PORT]) <= 65535 && 1 <= NumberOf(c[SSL_PORT]) <= 65535
    && (c[ENABLE_SSL] == B(true) ==> c[SSL_PORT] != c[PORT] && c[SSL_CERT] != S("") && c[SSL_KEY] != S(""))
    && NameRule(TextOf(c[SSL_CERT]), 0, 4096) && NameRule(TextOf(c[SSL_KEY]), 0, 4096)
    && UrlBaseRule(TextOf(c[URL_BASE]))
    && KeyRule(TextOf(c[API_KEY]))
    && c[METHOD] in {S("None"), S("Forms"), S("External")}
    && c[REQUIRED] in {S("Enabled"), S("DisabledForLocalAddresses")}
    && c[LOG_LEVEL] in {S("trace"), S("debug"), S("info"), S("warn"), S("error")}
    && 1 <= NumberOf(c[LOG_SIZE]) <= 10
    && NameRule(TextOf(c[INSTANCE]), 1, 100) && NameRule(TextOf(c[BRANCH]), 1, 100)
  }

  predicate NameRule(s: string, least: nat, most: nat) {
    least <= |s| <= most && NoControls(s)
  }

  predicate KeyRule(s: string) {
    20 <= |s| <= 128 && forall ch <- s :: IsLetter(ch) || ch in "-_"
  }

  ghost predicate UrlBaseRule(s: string) {
    s == "" || (|s| <= 200 && Segments(if s[0] == '/' then s[1..] else s))
  }

  lemma ControlsExactly(s: string)
    ensures HasControl(s) <==> !NoControls(s)
  {
    if i :| 0 <= i < |s| && IsControl(s[i]) {
      assert s[i] in s;
    }
    if c :| c in s && !(c as int >= 32 && !(127 <= c as int <= 159)) {
      var i :| 0 <= i < |s| && s[i] == c;
      assert IsControl(s[i]);
    }
  }

  lemma KeyExactly(s: string)
    ensures ApiKeyProblem(s).None? <==> KeyRule(s)
  {
    forall i | 0 <= i < |s| ensures KeyChar(s[i]) <==> IsLetter(s[i]) || s[i] in "-_" {
      LettersAre(s[i]);
    }
    hide IsLetter, KeyChar;
  }

  lemma UrlBaseExactly(s: string)
    ensures UrlBaseProblem(s).None? <==> UrlBaseRule(s)
  {
    if s != "" {
      SegmentsExactly(if s[0] == '/' then s[1..] else s);
    }
    hide SegmentsProblem, Segments;
  }

  /** Just the configurations that keep the rules, once normalised, have no problem. */
  lemma ValidExactly(isIp: string -> bool, c: Config)
    ensures Validate(isIp, c) == {} <==> Rules(isIp, Normalize(c))
  {
    hide Normalize, Validate, Rules, Check;
    NoneIsValid(isIp, c);
    RulesExactly(isIp, Normalize(c));
  }

  lemma RulesExactly(isIp: string -> bool, c: Config)
    ensures (forall i: Index :: Check(isIp, c, i).None?) <==> Rules(isIp, c)
  {
    hide Check, UrlBaseRule, KeyRule, NameRule, TextOf, NumberOf;
    ChecksAre(isIp, c);
    TextChecks(isIp, c);
    NumberChecks(isIp, c);
    WordChecks(isIp, c);
  }

  lemma TextChecks(isIp: string -> bool, c: Config)
    ensures Check(isIp, c, BIND).None? <==> c[BIND] == S("*") || isIp(TextOf(c[BIND]))
    ensures Check(isIp, c, URL_BASE).None? <==> UrlBaseRule(TextOf(c[URL_BASE]))
    ensures Check(isIp, c, API_KEY).None? <==> KeyRule(TextOf(c[API_KEY]))
    ensures Check(isIp, c, INSTANCE).None? <==> NameRule(TextOf(c[INSTANCE]), 1, 100)
    ensures Check(isIp, c, BRANCH).None? <==> NameRule(TextOf(c[BRANCH]), 1, 100)
  {
    hide UrlBaseProblem, UrlBaseRule, ApiKeyProblem, KeyRule, HasControl, NoControls;
    UrlBaseExactly(c[URL_BASE].s);
    KeyExactly(c[API_KEY].s);
    ControlsExactly(c[INSTANCE].s);
    ControlsExactly(c[BRANCH].s);
  }

  lemma NumberChecks(isIp: string -> bool, c: Config)
    ensures Check(isIp, c, PORT).None? <==> 1 <= NumberOf(c[PORT]) <= 65535
    ensures
      Check(isIp, c, SSL_PORT).None?
      <==> 1 <= NumberOf(c[SSL_PORT]) <= 65535 && (c[ENABLE_SSL] == B(true) ==> c[SSL_PORT] != c[PORT])
    ensures
      Check(isIp, c, SSL_CERT).None?
      <==> NameRule(TextOf(c[SSL_CERT]), 0, 4096) && (c[ENABLE_SSL] == B(true) ==> c[SSL_CERT] != S(""))
    ensures
      Check(isIp, c, SSL_KEY).None?
      <==> NameRule(TextOf(c[SSL_KEY]), 0, 4096) && (c[ENABLE_SSL] == B(true) ==> c[SSL_KEY] != S(""))
    ensures Check(isIp, c, LOG_SIZE).None? <==> 1 <= NumberOf(c[LOG_SIZE]) <= 10
  {
    hide HasControl, NoControls;
    ControlsExactly(c[SSL_CERT].s);
    ControlsExactly(c[SSL_KEY].s);
  }

  lemma WordChecks(isIp: string -> bool, c: Config)
    ensures Check(isIp, c, METHOD).None? <==> c[METHOD] in {S("None"), S("Forms"), S("External")}
    ensures Check(isIp, c, REQUIRED).None? <==> c[REQUIRED] in {S("Enabled"), S("DisabledForLocalAddresses")}
    ensures
      Check(isIp, c, LOG_LEVEL).None? <==> c[LOG_LEVEL] in {S("trace"), S("debug"), S("info"), S("warn"), S("error")}
  {
  }

  lemma NoneIsValid(isIp: string -> bool, c: Config)
    ensures Validate(isIp, c) == {} <==> forall i: Index :: Check(isIp, Normalize(c), i).None?
  {
    hide Check, Normalize;
    if i: Index :| Check(isIp, Normalize(c), i).Some? {
      assert Problem(i, Check(isIp, Normalize(c), i).value) in Validate(isIp, c);
    }
  }

  lemma ChecksAre(isIp: string -> bool, c: Config)
    ensures
      (forall i: Index :: Check(isIp, c, i).None?) <==>
        && Check(isIp, c, BIND).None? && Check(isIp, c, PORT).None? && Check(isIp, c, URL_BASE).None?
        && Check(isIp, c, SSL_PORT).None? && Check(isIp, c, SSL_CERT).None? && Check(isIp, c, SSL_KEY).None?
        && Check(isIp, c, API_KEY).None? && Check(isIp, c, METHOD).None? && Check(isIp, c, REQUIRED).None?
        && Check(isIp, c, LOG_LEVEL).None? && Check(isIp, c, LOG_SIZE).None?
        && Check(isIp, c, INSTANCE).None? && Check(isIp, c, BRANCH).None?
  {
  }

  // ----- What settings are normalised to -----

  /** The spellings of the settings that are one of a few words: case and surrounding white space do not matter,
      and the older names are taken for the newer. */
  lemma SpellingsOf(s: string)
    ensures
      var t := Lower(Trim(s, SPACES));
      && (t == "none" ==> NormalText(METHOD, s) == "None")
      && (t in {"forms", "basic"} ==> NormalText(METHOD, s) == "Forms")
      && (t == "external" ==> NormalText(METHOD, s) == "External")
      && (t == "enabled" ==> NormalText(REQUIRED, s) == "Enabled")
      && (t == "disabledforlocaladdresses" ==> NormalText(REQUIRED, s) == "DisabledForLocalAddresses")
      && (t == "warning" ==> NormalText(LOG_LEVEL, s) == "warn")
      && (t == "fatal" ==> NormalText(LOG_LEVEL, s) == "error")
      && (t in {"trace", "debug", "info", "warn", "error"} ==> NormalText(LOG_LEVEL, s) == t)
      && (t in {"true", "1", "yes"} <==> ParseBool(s) == Some(true))
      && (t in {"false", "0", "no"} <==> ParseBool(s) == Some(false))
      && NormalText(BRANCH, s) == t
      && (t == "" ==> NormalText(BIND, s) == "*")
  {
    hide Trim, Lower;
    LowerKeepsLength(Trim(s, SPACES));
  }

  lemma LowerKeepsLength(s: string)
    ensures |Lower(s)| == |s|
  {
  }
}
