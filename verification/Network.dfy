/** Who the client of a request behind reverse proxies is, and how the headers that say so are split.

    Addresses are abstract: `parse` reads one, `trusts` says whether it is a trusted proxy's. */
module Network {
  import opened Wrappers
  import opened Text

  // ----- Splitting outside quotes (section 4 of RFC 7239) -----

  datatype Quote = Outside | Inside | Escaped

  function Step(q: Quote, c: char): Quote {
    match q
    case Outside => if c == '"' then Inside else Outside
    case Inside => if c == '\\' then Escaped else if c == '"' then Outside else Inside
    case Escaped => Inside
  }

  /** Where a reader of `s` is at its end. */
  function EndOf(s: string): Quote
    decreases |s|
  {
    if s == "" then Outside else Step(EndOf(s[..|s| - 1]), s[|s| - 1])
  }

  predicate SplitsAt(s: string, sep: char, k: nat)
    requires k < |s|
  {
    s[k] == sep && EndOf(s[..k]).Outside?
  }

  /** No separator but inside quotes. */
  predicate Whole(s: string, sep: char) {
    forall k | 0 <= k < |s| :: !SplitsAt(s, sep, k)
  }

  function Rejoin(pieces: seq<string>, sep: char): string
    requires pieces != []
    decreases |pieces|
  {
    if |pieces| == 1 then pieces[0] else Rejoin(pieces[..|pieces| - 1], sep) + [sep] + pieces[|pieces| - 1]
  }

  /** The pieces make up the text, none can be split further, and each but the last ends outside quotes. */
  predicate Pieces(pieces: seq<string>, s: string, sep: char) {
    && pieces != [] && Rejoin(pieces, sep) == s
    && (forall p <- pieces :: Whole(p, sep))
    && (forall i | 0 <= i < |pieces| - 1 :: EndOf(pieces[i]).Outside?)
  }

  lemma {:induction false} EndOfAppend(a: string, b: string)
    requires EndOf(a).Outside?
    ensures EndOf(a + b) == EndOf(b)
    decreases |b|
  {
    if b == "" {
      assert a + b == a;
    } else {
      var n := |a + b| - 1;
      assert (a + b)[..n] == a + b[..|b| - 1] && (a + b)[n] == b[|b| - 1];
      EndOfAppend(a, b[..|b| - 1]);
    }
  }

  lemma WholeSnoc(s: string, c: char, sep: char)
    requires Whole(s, sep) && !(c == sep && EndOf(s).Outside?)
    ensures Whole(s + [c], sep) && EndOf(s + [c]) == Step(EndOf(s), c)
  {
    var t := s + [c];
    assert t[..|s|] == s && t[|s|] == c;
    forall k | 0 <= k < |t| ensures !SplitsAt(t, sep, k) {
      if k < |s| {
        assert t[..k] == s[..k] && !SplitsAt(s, sep, k);
      }
    }
  }

  /** Pieces cut off so far, from the front of a text. */
  predicate CutOff(out: seq<string>, front: string, sep: char) {
    && (forall p <- out :: Whole(p, sep) && EndOf(p).Outside?)
    && front == if out == [] then "" else Rejoin(out, sep) + [sep]
  }

  lemma CutOffMore(out: seq<string>, front: string, piece: string, sep: char)
    requires CutOff(out, front, sep) && Whole(piece, sep)
    ensures Pieces(out + [piece], front + piece, sep)
    ensures EndOf(piece).Outside? ==> CutOff(out + [piece], front + piece + [sep], sep)
  {
    var more := out + [piece];
    assert more[..|more| - 1] == out;
    if out == [] {
      assert "" + piece == piece;
    }
    forall i | 0 <= i < |more| - 1 ensures EndOf(more[i]).Outside? {
      assert more[i] in out;
    }
  }

  method SplitQuoted(s: string, sep: char) returns (out: seq<string>)
    requires sep != '"'
    ensures Pieces(out, s, sep)
  {
    hide CutOff, Pieces, Whole, EndOf;
    out := [];
    var quoted, start, i := false, 0, 0;
    EmptyFront(sep);
    while i < |s|
      invariant 0 <= start <= i <= |s| + 1 && start <= |s| && (i == |s| + 1 ==> quoted)
      invariant CutOff(out, s[..start], sep)
      invariant
        var piece := s[start..if i <= |s| then i else |s|];
        Whole(piece, sep) && EndOf(piece) == if i > |s| then Escaped else if quoted then Inside else Outside
    {
      var c := s[i];
      ghost var piece := s[start..i];
      assert s[start..i + 1] == piece + [c];
      if c == '\\' && quoted {
        WholeSnoc(piece, c, sep);
        if i + 1 < |s| {
          assert s[start..i + 2] == s[start..i + 1] + [s[i + 1]];
          WholeSnoc(s[start..i + 1], s[i + 1], sep);
        }
        i := i + 1;
      } else if c == '"' {
        WholeSnoc(piece, c, sep);
        quoted := !quoted;
      } else if c == sep && !quoted {
        CutOffMore(out, s[..start], piece, sep);
        assert s[..i + 1] == s[..start] + piece + [sep];
        out := out + [s[start..i]];
        start := i + 1;
        EmptyFront(sep);
        assert s[start..i + 1] == "";
      } else {
        WholeSnoc(piece, c, sep);
      }
      i := i + 1;
    }
    assert s[start..] == s[start..|s|] && s == s[..start] + s[start..];
    CutOffMore(out, s[..start], s[start..], sep);
    out := out + [s[start..]];
  }

  lemma EmptyFront(sep: char)
    ensures CutOff([], "", sep) && Whole("", sep) && EndOf("").Outside?
  {
  }

  /** There is only one way to split a text so. */
  lemma {:induction false} SplitIsUnique(a: seq<string>, b: seq<string>, s: string, sep: char)
    requires sep != '"' && Pieces(a, s, sep) && Pieces(b, s, sep)
    ensures a == b
    decreases |s|
  {
    if |a| == 1 && |b| == 1 {
    } else if |a| == 1 {
      CutIsInside(b, a[0], sep);
    } else if |b| == 1 {
      CutIsInside(a, b[0], sep);
    } else {
      var x, y := Rejoin(a[..|a| - 1], sep), Rejoin(b[..|b| - 1], sep);
      LastCut(a, s, sep);
      LastCut(b, s, sep);
      if |x| < |y| {
        LaterCut(x, a[|a| - 1], y, s, sep);
      } else if |y| < |x| {
        LaterCut(y, b[|b| - 1], x, s, sep);
      } else {
        assert x == s[..|x|] == y;
        assert a[|a| - 1] == s[|x| + 1..] == b[|b| - 1];
        SplitIsUnique(a[..|a| - 1], b[..|b| - 1], x, sep);
        assert a == a[..|a| - 1] + [a[|a| - 1]] && b == b[..|b| - 1] + [b[|b| - 1]];
      }
    }
  }

  /** The text before the last separator splits into the other pieces, and ends outside quotes. */
  lemma {:induction false} LastCut(a: seq<string>, s: string, sep: char)
    requires sep != '"' && Pieces(a, s, sep) && |a| > 1
    ensures
      var x := Rejoin(a[..|a| - 1], sep);
      && Pieces(a[..|a| - 1], x, sep) && EndOf(x).Outside? && EndOf(x + [sep]).Outside?
      && |x| < |s| && s == x + [sep] + a[|a| - 1]
  {
    var rest := a[..|a| - 1];
    var x := Rejoin(rest, sep);
    assert forall p <- rest :: p in a;
    EndsOutside(rest, sep);
    assert (x + [sep])[..|x|] == x;
  }

  lemma {:induction false} EndsOutside(a: seq<string>, sep: char)
    requires sep != '"' && a != [] && forall p <- a :: EndOf(p).Outside?
    ensures EndOf(Rejoin(a, sep)).Outside?
    decreases |a|
  {
    if |a| > 1 {
      var rest := a[..|a| - 1];
      EndsOutside(rest, sep);
      var x := Rejoin(rest, sep);
      assert (x + [sep])[..|x|] == x;
      EndOfAppend(x + [sep], a[|a| - 1]);
      assert a[|a| - 1] in a;
    }
  }

  lemma CutIsInside(b: seq<string>, s: string, sep: char)
    requires sep != '"' && Pieces(b, s, sep) && |b| > 1
    ensures !Whole(s, sep)
  {
    LastCut(b, s, sep);
    var x := Rejoin(b[..|b| - 1], sep);
    assert s[..|x|] == x && SplitsAt(s, sep, |x|);
  }

  /** A text cut twice: the later cut lies in what follows the earlier. */
  lemma LaterCut(x: string, last: string, y: string, s: string, sep: char)
    requires s == x + [sep] + last && EndOf(x + [sep]).Outside?
    requires y + [sep] <= s && EndOf(y).Outside? && |x| < |y|
    ensures !Whole(last, sep)
  {
    hide EndOf;
    var k := |y| - |x| - 1;
    assert s[|y|] == sep by {
      assert (y + [sep])[|y|] == sep;
    }
    assert last[k] == sep;
    assert y == s[..|y|];
    assert y == (x + [sep]) + last[..k];
    EndOfAppend(x + [sep], last[..k]);
    assert SplitsAt(last, sep, k);
  }

  // ----- The client behind the proxies -----

  type Addr = nat

  /** What a request carries: its peer, and the entries of the three headers, left to right. */
  datatype Request = Request(peer: Option<Addr>, xff: seq<string>, forwarded: seq<string>, realIp: string)

  /** Reading an address and the list of trusted proxies, one snapshot of both. */
  datatype Trust = Trust(parse: string -> Option<Addr>, trusts: Addr -> bool)

  function Chain(r: Request): seq<string> {
    if r.xff != [] then r.xff
    else if r.forwarded != [] then r.forwarded
    else if !Blank(r.realIp) then [Trim(r.realIp, SPACES)]
    else []
  }

  /** An entry that ends the walk: it cannot be read, or it is nobody's proxy. */
  predicate Decisive(t: Trust, entry: string) {
    var ip := t.parse(entry);
    ip.None? || !t.trusts(ip.value)
  }

  /** From the right, the first entry that ends the walk. */
  function LastDecisive(t: Trust, chain: seq<string>): Option<nat>
    decreases |chain|
  {
    if chain == [] then None
    else if Decisive(t, chain[|chain| - 1]) then Some(|chain| - 1)
    else LastDecisive(t, chain[..|chain| - 1])
  }

  /** The client the walk finds: the decisive entry's address, or the peer when that cannot be read; with
      none, the left-most proxy. */
  function Client(t: Trust, peer: Addr, chain: seq<string>): Addr {
    var at := LastDecisive(t, chain);
    if at.Some? && at.value < |chain| then
      (match t.parse(chain[at.value]) case None => peer case Some(ip) => ip)
    else if chain == [] then peer
    else
      match t.parse(chain[0]) case None => peer case Some(ip) => ip
  }

  lemma {:induction false} LastDecisiveIs(t: Trust, chain: seq<string>)
    ensures
      match LastDecisive(t, chain)
      case None => forall i | 0 <= i < |chain| :: !Decisive(t, chain[i])
      case Some(k) => k < |chain| && Decisive(t, chain[k]) && forall i | k < i < |chain| :: !Decisive(t, chain[i])
    decreases |chain|
  {
    if chain != [] {
      LastDecisiveIs(t, chain[..|chain| - 1]);
    }
  }

  /** Who the client of a chain of entries is: the address of the right-most decisive entry, or the peer
      when that one cannot be read; with no decisive entry the left-most address, and with no entry at all
      the peer. */
  ghost predicate IsClient(t: Trust, peer: Addr, chain: seq<string>, ip: Addr) {
    && (forall k | 0 <= k < |chain| && Decisive(t, chain[k]) && (forall i | k < i < |chain| :: !Decisive(t, chain[i])) ::
          ip == if t.parse(chain[k]).Some? then t.parse(chain[k]).value else peer)
    && (chain != [] && (forall entry <- chain :: !Decisive(t, entry)) ==> t.parse(chain[0]) == Some(ip))
    && (chain == [] ==> ip == peer)
  }

  lemma ClientIs(t: Trust, peer: Addr, chain: seq<string>)
    ensures IsClient(t, peer, chain, Client(t, peer, chain))
  {
    LastDecisiveIs(t, chain);
  }

  /** A peer that is no trusted proxy is the client. Behind one X-Forwarded-For decides if it has entries,
      else Forwarded if it has, else X-Real-Ip if it is not blank, and with none of them the peer. */
  method ClientIp(r: Request, t: Trust) returns (ip: Option<Addr>)
    ensures r.peer.None? || !t.trusts(r.peer.value) ==> ip == r.peer
    ensures r.peer.Some? && t.trusts(r.peer.value) ==> ip == Some(Client(t, r.peer.value, Chain(r)))
    ensures
      r.peer.Some? && t.trusts(r.peer.value) ==>
        && ip.Some?
        && (r.xff != [] ==> IsClient(t, r.peer.value, r.xff, ip.value))
        && (r.xff == [] && r.forwarded != [] ==> IsClient(t, r.peer.value, r.forwarded, ip.value))
        && (r.xff == [] && r.forwarded == [] ==>
              if Blank(r.realIp) then ip == r.peer else IsClient(t, r.peer.value, [Trim(r.realIp, SPACES)], ip.value))
  {
    if r.peer == None || !t.trusts(r.peer.value) {
      return r.peer;
    }
    var peer := r.peer.value;
    var chain := Chain(r);
    LastDecisiveIs(t, chain);
    ClientIs(t, peer, chain);
    var i := |chain| - 1;
    while i >= 0
      invariant -1 <= i < |chain|
      invariant i == -1 ==> chain == []
      invariant forall k | i < k < |chain| :: !Decisive(t, chain[k])
    {
      var at := t.parse(chain[i]);
      if at.None? {
        return Some(peer);
      }
      if !t.trusts(at.value) {
        return at;
      }
      if i == 0 {
        return at;
      }
      i := i - 1;
    }
    ip := Some(peer);
  }

  /** Once a chain holds an entry that is no trusted proxy's, whatever is put in front of it changes
      nothing: the client cannot choose who it is. */
  lemma PrefixIsIgnored(t: Trust, peer: Addr, prefix: seq<string>, chain: seq<string>)
    requires exists entry <- chain :: Decisive(t, entry)
    ensures Client(t, peer, prefix + chain) == Client(t, peer, chain)
  {
    LastDecisiveIs(t, chain);
    LastDecisiveIs(t, prefix + chain);
    var k := LastDecisive(t, chain).value;
    var j := LastDecisive(t, prefix + chain).value;
    assert (prefix + chain)[|prefix| + k] == chain[k];
    assert forall i | |prefix| <= i < |prefix + chain| :: (prefix + chain)[i] == chain[i - |prefix|];
  }

  /** The answer is an address the chain names that is not a trusted proxy's; or, when every hop is one, the
      left-most; or the peer, and then there is no entry or one that cannot be read. */
  lemma ClientIsNamed(t: Trust, peer: Addr, chain: seq<string>)
    ensures
      var c := Client(t, peer, chain);
      || (exists entry <- chain :: t.parse(entry) == Some(c) && !t.trusts(c))
      || (chain != [] && t.parse(chain[0]) == Some(c) && forall entry <- chain :: !Decisive(t, entry))
      || (c == peer && (chain == [] || exists entry <- chain :: t.parse(entry).None?))
  {
    LastDecisiveIs(t, chain);
  }

  // ----- From header lines to a chain -----

  /** The text up to the first comma, or all of it. */
  function FirstPart(line: string): (n: nat)
    ensures n <= |line|
    ensures ',' !in line[..n] && (n < |line| ==> line[n] == ',')
  {
    if line == "" || line[0] == ',' then 0 else 1 + FirstPart(line[1..])
  }

  function FirstEntry(part: string): seq<string> {
    if Blank(part) then [] else [Trim(part, SPACES)]
  }

  /** X-Forwarded-For: the trimmed parts of a line between commas, without blank ones. */
  function LineEntries(line: string): seq<string>
    decreases |line|
  {
    var n := FirstPart(line);
    FirstEntry(line[..n]) + if n < |line| then LineEntries(line[n + 1..]) else []
  }

  function Entries(lines: seq<string>): seq<string> {
    if lines == [] then [] else LineEntries(lines[0]) + Entries(lines[1..])
  }

  lemma {:induction false} EntriesAppend(a: seq<string>, b: seq<string>)
    ensures Entries(a + b) == Entries(a) + Entries(b)
    decreases |a|
  {
    if a == [] {
      assert a + b == b;
    } else {
      assert (a + b)[1..] == a[1..] + b;
      EntriesAppend(a[1..], b);
    }
  }

  lemma {:induction false} FirstPartOfJoined(a: string, b: string)
    ensures FirstPart(a + "," + b) == FirstPart(a)
    decreases |a|
  {
    if a != "" && a[0] != ',' {
      assert (a + "," + b)[1..] == a[1..] + "," + b;
      FirstPartOfJoined(a[1..], b);
    }
  }

  lemma LineSplits(line: string, n: nat)
    requires n == FirstPart(line)
    ensures LineEntries(line) == FirstEntry(line[..n]) + if n < |line| then LineEntries(line[n + 1..]) else []
  {
    hide Trim, Blank;
  }

  /** A proxy appends to the line it was sent: the entries of what it adds come last. */
  lemma {:induction false} LineAppend(a: string, b: string)
    ensures LineEntries(a + "," + b) == LineEntries(a) + LineEntries(b)
    decreases |a|
  {
    hide LineEntries, FirstPart;
    var n := FirstPart(a);
    if n < |a| {
      LineAppend(a[n + 1..], b);
      LineGoesOn(a, b, n);
    } else {
      LineEnds(a, b, n);
    }
  }

  lemma LineGoesOn(a: string, b: string, n: nat)
    requires n == FirstPart(a) < |a|
    requires LineEntries(a[n + 1..] + "," + b) == LineEntries(a[n + 1..]) + LineEntries(b)
    ensures LineEntries(a + "," + b) == LineEntries(a) + LineEntries(b)
  {
    hide LineEntries, FirstEntry, FirstPart;
    FirstPartOfJoined(a, b);
    JoinedAt(a, b, n);
    LineSplits(a + "," + b, n);
    LineSplits(a, n);
    Associative(FirstEntry(a[..n]), LineEntries(a[n + 1..]), LineEntries(b));
  }

  lemma LineEnds(a: string, b: string, n: nat)
    requires n == FirstPart(a) == |a|
    ensures LineEntries(a + "," + b) == LineEntries(a) + LineEntries(b)
  {
    hide LineEntries, FirstEntry, FirstPart;
    FirstPartOfJoined(a, b);
    JoinedAt(a, b, n);
    LineSplits(a + "," + b, n);
    LineSplits(a, n);
  }

  lemma JoinedAt(a: string, b: string, n: nat)
    requires n <= |a|
    ensures
      var line := a + "," + b;
      && n < |line| && line[..n] == a[..n]
      && line[n + 1..] == if n < |a| then a[n + 1..] + "," + b else b
  {
  }

  lemma Associative(a: seq<string>, b: seq<string>, c: seq<string>)
    ensures (a + b) + c == a + (b + c)
  {
  }

  lemma OneEntry(seen: string)
    requires !Blank(seen) && ',' !in seen
    ensures LineEntries(seen) == [Trim(seen, SPACES)]
  {
    assert FirstPart(seen) == |seen| && seen[..|seen|] == seen;
    hide Trim;
  }

  lemma OneLine(line: string)
    ensures Entries([line]) == LineEntries(line)
  {
    hide LineEntries;
    assert [line][0] == line && [line][1..] == [];
    assert Entries([line]) == LineEntries(line) + Entries([]);
  }

  lemma EntriesEnd(lines: seq<string>, last: string, seen: string)
    requires !Blank(seen) && ',' !in seen
    ensures Entries(lines + [last + "," + seen]) == (Entries(lines) + LineEntries(last)) + [Trim(seen, SPACES)]
  {
    hide LineEntries, Entries, Trim, Blank;
    OneEntry(seen);
    OneLine(last + "," + seen);
    EntriesAppend(lines, [last + "," + seen]);
    LineAppend(last, seen);
    Associative(Entries(lines), LineEntries(last), [Trim(seen, SPACES)]);
  }

  /** Whatever X-Forwarded-For a client sends: behind a trusted proxy that adds an entry of its own, for a
      peer that is no proxy, to the last line, the client is the one the proxy saw, or the trusted proxy when
      what it wrote cannot be read. */
  lemma ClientIsWhoTheProxySaw(t: Trust, peer: Addr, lines: seq<string>, last: string, seen: string)
    requires !Blank(seen) && ',' !in seen && Decisive(t, Trim(seen, SPACES))
    ensures
      Client(t, peer, Entries(lines + [last + "," + seen]))
      == match t.parse(Trim(seen, SPACES)) case None => peer case Some(ip) => ip
  {
    hide Client, Trim, Blank, LineEntries, Entries, Decisive;
    var entry := Trim(seen, SPACES);
    EntriesEnd(lines, last, seen);
    assert [entry][0] == entry;
    PrefixIsIgnored(t, peer, Entries(lines) + LineEntries(last), [entry]);
    ClientIs(t, peer, [entry]);
  }
}
