/** The text of a session token: what the signature covers, and how it is read back.

    Above base64: a token is the text inside it. */
module SessionToken {
  import opened Wrappers
  import opened Text

  const ID_LENGTH := 32        // hexadecimal digits
  const SIGNATURE_LENGTH := 64

  datatype Token = Token(userId: int, exp: int, remember: bool, id: string, signature: string)

  predicate IsHex(c: char) {
    '0' <= c <= '9' || 'a' <= c <= 'f' || 'A' <= c <= 'F'
  }

  predicate Hex(s: string, n: nat) {
    |s| == n && forall i | 0 <= i < n :: IsHex(s[i])
  }

  /** As the server writes it: digits and lower-case letters. */
  predicate Canonical(s: string, n: nat) {
    Hex(s, n) && Lower(s) == s
  }

  function Fields(userId: int, exp: int, remember: bool, id: string): seq<string> {
    [Itoa(userId), Itoa(exp), if remember then "1" else "0", id]
  }

  function Payload(userId: int, exp: int, remember: bool, id: string): string {
    Join(Fields(userId, exp, remember, id), "|")
  }

  /** The text signToken puts together. */
  function Written(t: Token): string {
    Payload(t.userId, t.exp, t.remember, t.id) + "|" + t.signature
  }

  function FirstBar(s: string): (n: nat)
    ensures n <= |s| && '|' !in s[..n] && (n < |s| ==> s[n] == '|')
  {
    if s == "" || s[0] == '|' then 0 else 1 + FirstBar(s[1..])
  }

  function Parts(s: string): (parts: seq<string>)
    ensures parts != []
    decreases |s|
  {
    var n := FirstBar(s);
    if n < |s| then [s[..n]] + Parts(s[n + 1..]) else [s]
  }

  /** parseToken: five parts, whatever the case of the hexadecimal ones. */
  function Parse(raw: string): Option<Token> {
    var parts := Parts(raw);
    if |parts| != 5 then None
    else
      match (Atoi(parts[0]), Atoi(parts[1]))
      case (Some(userId), Some(exp)) =>
        if userId <= 0 || (parts[2] != "0" && parts[2] != "1")
           || !Hex(parts[3], ID_LENGTH) || !Hex(parts[4], SIGNATURE_LENGTH) then None
        else Some(Token(userId, exp, parts[2] == "1", Lower(parts[3]), Lower(parts[4])))
      case _ => None
  }

  /** A token the server can have written. */
  predicate Issuable(t: Token) {
    && 0 < t.userId <= MAX_INT && MIN_INT <= t.exp <= MAX_INT
    && Canonical(t.id, ID_LENGTH) && Canonical(t.signature, SIGNATURE_LENGTH)
  }

  lemma {:induction false} BarAfter(part: string, rest: string)
    requires '|' !in part
    ensures FirstBar(part + "|" + rest) == |part|
    decreases |part|
  {
    var s := part + "|" + rest;
    if part != "" {
      assert s[1..] == part[1..] + "|" + rest && s[0] == part[0];
      BarAfter(part[1..], rest);
    }
  }

  lemma PartsOf(part: string, rest: string)
    requires '|' !in part
    ensures Parts(part + "|" + rest) == [part] + Parts(rest)
  {
    var s := part + "|" + rest;
    BarAfter(part, rest);
    assert s[..|part|] == part && s[|part| + 1..] == rest;
  }

  lemma LastPart(part: string)
    requires '|' !in part
    ensures Parts(part) == [part]
  {
    assert FirstBar(part) == |part|;
  }

  lemma NoBarInNumber(n: int)
    requires MIN_INT <= n <= MAX_INT
    ensures '|' !in Itoa(n)
  {
    ValueOfDigits(if n < 0 then -n else n);
  }

  lemma {:induction false} PartsOfJoined(parts: seq<string>)
    requires parts != [] && forall p <- parts :: '|' !in p
    ensures Parts(Join(parts, "|")) == parts
    decreases |parts|
  {
    if |parts| == 1 {
      LastPart(parts[0]);
    } else {
      assert forall p <- parts[1..] :: p in parts;
      PartsOfJoined(parts[1..]);
      PartsOf(parts[0], Join(parts[1..], "|"));
    }
  }

  lemma {:induction false} JoinSnoc(parts: seq<string>, last: string)
    requires parts != []
    ensures Join(parts + [last], "|") == Join(parts, "|") + "|" + last
    decreases |parts|
  {
    assert (parts + [last])[1..] == parts[1..] + [last];
    if |parts| > 1 {
      JoinSnoc(parts[1..], last);
    }
  }

  lemma NoBarInHex(s: string, n: nat)
    requires Hex(s, n)
    ensures '|' !in s
  {
  }

  lemma PartsOfWritten(t: Token)
    requires Issuable(t)
    ensures Parts(Written(t)) == Fields(t.userId, t.exp, t.remember, t.id) + [t.signature]
  {
    NoBarInNumber(t.userId);
    NoBarInNumber(t.exp);
    NoBarInHex(t.id, ID_LENGTH);
    NoBarInHex(t.signature, SIGNATURE_LENGTH);
    hide Parts, Itoa, Hex, Join, Lower;
    var fields := Fields(t.userId, t.exp, t.remember, t.id);
    JoinSnoc(fields, t.signature);
    PartsOfJoined(fields + [t.signature]);
  }

  /** What the server writes it reads back. */
  lemma ParseWritten(t: Token)
    requires Issuable(t)
    ensures Parse(Written(t)) == Some(t)
  {
    PartsOfWritten(t);
    AtoiItoa(t.userId);
    AtoiItoa(t.exp);
    hide Parts, Itoa, Atoi, Hex, Written, Lower;
  }

  /** The signature covers every field: payloads are equal only if all of them are. */
  lemma PayloadIsInjective(s: Token, t: Token)
    requires Issuable(s) && Issuable(t)
    requires Payload(s.userId, s.exp, s.remember, s.id) == Payload(t.userId, t.exp, t.remember, t.id)
    ensures (s.userId, s.exp, s.remember, s.id) == (t.userId, t.exp, t.remember, t.id)
  {
    ParseWritten(s.(signature := t.signature));
    ParseWritten(t);
  }

  /** However a token is spelled, what is checked is the canonical spelling of its fields: a token that
      is read can be written again, and reads the same. */
  lemma ReadIsIssuable(raw: string)
    requires Parse(raw).Some?
    ensures Issuable(Parse(raw).value) && Parse(Written(Parse(raw).value)) == Parse(raw)
  {
    var parts := Parts(raw);
    LowerTwice(parts[3]);
    LowerTwice(parts[4]);
    LowerHex(parts[3], ID_LENGTH);
    LowerHex(parts[4], SIGNATURE_LENGTH);
    AtoiBounds(parts[0]);
    AtoiBounds(parts[1]);
    hide Parts, Atoi, Lower;
    ParseWritten(Parse(raw).value);
  }

  lemma LowerHex(s: string, n: nat)
    requires Hex(s, n)
    ensures Hex(Lower(s), n)
  {
    forall i | 0 <= i < n ensures IsHex(Lower(s)[i]) {
      assert IsHex(s[i]) && Lower(s)[i] == LowerChar(s[i]);
    }
  }

  lemma AtoiBounds(s: string)
    ensures Atoi(s).Some? ==> MIN_INT <= Atoi(s).value <= MAX_INT
  {
  }

  lemma {:induction false} PartsRejoin(s: string)
    ensures Join(Parts(s), "|") == s && forall p <- Parts(s) :: '|' !in p
    decreases |s|
  {
    var n := FirstBar(s);
    if n < |s| {
      PartsRejoin(s[n + 1..]);
      assert s == s[..n] + "|" + s[n + 1..];
    }
  }

  /** The text has this token's fields between its bars: numbers as they are read, "1" or "0", and two
      hexadecimal texts of the right lengths in any case. */
  predicate Spells(parts: seq<string>, t: Token) {
    && |parts| == 5 && (forall p <- parts :: '|' !in p)
    && Atoi(parts[0]) == Some(t.userId) && t.userId > 0 && Atoi(parts[1]) == Some(t.exp)
    && parts[2] == (if t.remember then "1" else "0")
    && Hex(parts[3], ID_LENGTH) && t.id == Lower(parts[3])
    && Hex(parts[4], SIGNATURE_LENGTH) && t.signature == Lower(parts[4])
  }

  /** Just the texts that spell a token are read, and as the token they spell. */
  lemma ParseExactly(raw: string, t: Token)
    ensures Parse(raw) == Some(t) <==> exists parts :: Spells(parts, t) && Join(parts, "|") == raw
  {
    PartsRejoin(raw);
    hide Parts, Join, Atoi, Hex, Lower;
    if Parse(raw) == Some(t) {
      assert Spells(Parts(raw), t);
    }
    if parts :| Spells(parts, t) && Join(parts, "|") == raw {
      PartsOfJoined(parts);
    }
  }

  lemma HexDigits(c: char)
    ensures IsHex(c) <==> c in "0123456789abcdefABCDEF"
  {
  }

}
