/** Session cookies: verification, renewal, logout and rotation of the signing state.

    A token's tag is an ideal MAC: it names what was signed, and nobody but the server makes one.
    Each step is one critical section of the server, so requests interleave in every way. */
module Session {
  import opened Wrappers

  type Id = nat       // session id: random, so fresh at each login
  type UserId = nat
  type Hash = nat     // password hash
  type Rid = nat      // a request in flight

  /** Times are nanoseconds. */
  const SECOND := 1_000_000_000
  const MINUTE := 60 * SECOND
  const DAY := 24 * 60 * MINUTE
  const MAX_REVOKED := 256

  function Lifetime(remember: bool): int {
    if remember then 14 * DAY else 7 * DAY
  }

  /** Whole seconds, rounded down. */
  function Unix(t: int): int {
    t / SECOND
  }

  datatype Signing = Signing(key: nat, generation: nat)

  datatype Payload = Payload(userId: UserId, exp: int, remember: bool, id: Id)

  datatype Tag = Signed(signing: Signing, payload: Payload, hash: Hash) | Forged(bits: nat)

  datatype Token = Token(payload: Payload, tag: Tag)

  /** A verified session, and what it was verified against. */
  datatype Session = Session(userId: UserId, exp: int, remember: bool, id: Id, signing: Signing, hash: Hash)

  // ----- The service's fields and the critical sections that use them -----

  predicate RevokedOrRotated(revoked: map<Id, int>, current: Signing, id: Id, st: Signing) {
    id in revoked || current != st
  }

  function Prune(revoked: map<Id, int>, now: int): map<Id, int> {
    map id | id in revoked && !(revoked[id] < Unix(now)) :: revoked[id]
  }

  /** The last second in which a token of the session, renewed just now, may still be valid. */
  function Entry(remember: bool, now: int): int {
    Unix(now + Lifetime(remember) + MINUTE)
  }

  /** The list after a logout, and whether it was full: then the caller must rotate instead. */
  function Listed(revoked: map<Id, int>, id: Id, remember: bool, now: int): (map<Id, int>, bool) {
    var kept := Prune(revoked, now);
    if |kept| >= MAX_REVOKED then (kept, true) else (kept[id := Entry(remember, now)], false)
  }

  lemma PruneShrinks(revoked: map<Id, int>, now: int)
    ensures |Prune(revoked, now)| <= |revoked|
  {
    SubsetSize(Prune(revoked, now).Keys, revoked.Keys);
    assert |Prune(revoked, now).Keys| == |Prune(revoked, now)| && |revoked.Keys| == |revoked|;
  }

  class Service {
    var signing: Signing
    var revoked: map<Id, int>

    constructor (signing: Signing, revoked: map<Id, int>)
      ensures this.signing == signing && this.revoked == revoked
    {
      this.signing, this.revoked := signing, revoked;
    }

    method IsRevokedOrRotated(id: Id, st: Signing) returns (refused: bool)
      ensures refused <==> RevokedOrRotated(revoked, signing, id, st)
    {
      refused := id in revoked || signing != st;
    }

    /** The critical section of RevokeSessions. */
    method SwapState(next: Signing)
      modifies this
      ensures signing == next && revoked == map[]
    {
      signing := next;
      revoked := map[];
    }

    /** The critical section of revokeSession. */
    method Revoke(id: Id, remember: bool, now: int) returns (full: bool)
      modifies this`revoked
      ensures (revoked, full) == Listed(old(revoked), id, remember, now)
      ensures |old(revoked)| <= MAX_REVOKED ==> |revoked| <= MAX_REVOKED
    {
      ghost var before := revoked;
      var left := revoked.Keys;
      while left != {}
        invariant left <= before.Keys
        invariant forall k :: k in revoked <==> k in before && (k in left || !(before[k] < Unix(now)))
        invariant forall k :: k in revoked ==> revoked[k] == before[k]
        decreases |left|
      {
        var k :| k in left;
        if revoked[k] < Unix(now) {
          revoked := revoked - {k};
        }
        left := left - {k};
      }
      assert revoked == Prune(before, now);
      if |revoked| >= MAX_REVOKED {
        PruneShrinks(before, now);
        return true;
      }
      revoked := revoked[id := Entry(remember, now)];
      full := false;
    }
  }

  // ----- The whole system -----

  /** How long after its first reading of the clock a request makes its last check (`verify`) and
      reads the clock for a token it issues (`issue`). */
  datatype Spans = Spans(verify: nat, issue: nat)

  /** Whole seconds, rounded up. */
  function Whole(t: nat): nat {
    (t + SECOND - 1) / SECOND
  }

  /** The condition under which a logout holds; see SlackIsExact. */
  predicate WithinSlack(spans: Spans) {
    spans.verify + Whole(spans.issue) * SECOND <= MINUTE + SECOND
  }

  /** Where a request is; `at` is its first reading of the clock. */
  datatype Pc =
    | Parsed(token: Token, at: int)
    | Loaded(token: Token, at: int, signing: Signing)
    | Cleared(token: Token, at: int, signing: Signing)
    | Looked(token: Token, at: int, signing: Signing, hash: Hash)
    | Accepted(session: Session, at: int)
    | Keeping(session: Session, at: int, reading: int, hash: Hash)  // KeepSession, before it signs
    | Overflowed(session: Session, at: int)                         // logout found the list full

  datatype Owner = Owner(userId: UserId, remember: bool)

  datatype Rotation = Rotation(next: Signing, asker: Option<Rid>)

  /** A logout that took effect at time `at`, when `signing` was current. */
  datatype LoggedOut = LoggedOut(id: Id, signing: Signing, remember: bool, at: int)

  datatype State = State(
    now: int, users: map<UserId, Hash>, signing: Signing, revoked: map<Id, int>,
    rotation: Option<Rotation>, reqs: map<Rid, Pc>,
    owners: map<Id, Owner>,      // every session id handed out by a login
    issued: set<Tag>,            // every tag the server made
    outs: set<LoggedOut>,
    prompt: bool)                // every request so far kept to the spans

  function Initial(now: int, users: map<UserId, Hash>, signing: Signing, revoked: map<Id, int>): State {
    State(now, users, signing, revoked, None, map[], map[], {}, {}, true)
  }

  datatype Event =
    | Tick(d: nat)
    | SetPassword(userId: UserId, hash: Hash)
    | RemoveUser(userId: UserId)
    | Login(userId: UserId, hash: Hash, remember: bool, id: Id, reading: int)
    | Present(r: Rid, token: Token)
    | Load(r: Rid)
    | FirstCheck(r: Rid)
    | Lookup(r: Rid)
    | FinalCheck(r: Rid)
    | Renew(r: Rid)
    | KeepRead(r: Rid)
    | KeepIssue(r: Rid)
    | Logout(r: Rid)
    | Finish(r: Rid)
    | BeginRotation(asker: Option<Rid>, key: nat)
    | FailRotation
    | Swap

  function Issue(st: Signing, userId: UserId, hash: Hash, remember: bool, id: Id, reading: int): Tag {
    Signed(st, Payload(userId, Unix(reading + Lifetime(remember)), remember, id), hash)
  }

  /** A token is refused out of hand when it has expired or lives longer than any it could be. */
  predicate Timely(p: Payload, now: int) {
    now < p.exp * SECOND && p.exp * SECOND - now <= Lifetime(p.remember) + MINUTE
  }

  /** Renewed once less than half of the lifetime is left. */
  predicate Stale(sess: Session, now: int) {
    sess.exp * SECOND - now < Lifetime(sess.remember) / 2
  }

  function SessionOf(pc: Pc): Session
    requires pc.Looked?
  {
    var p := pc.token.payload;
    Session(p.userId, p.exp, p.remember, p.id, pc.signing, pc.hash)
  }

  predicate Passes(s: State, pc: Pc)
    requires pc.Looked?
  {
    && pc.token.tag == Signed(pc.signing, pc.token.payload, pc.hash)
    && !RevokedOrRotated(s.revoked, s.signing, pc.token.payload.id, pc.signing)
  }

  /** A check is late when it outlasts its span and the token expires meanwhile. */
  predicate Late(pc: Pc, now: int, spans: Spans)
    requires pc.Looked?
  {
    now > pc.at + spans.verify && now >= pc.token.payload.exp * SECOND
  }

  function Drop(s: State, r: Rid): State {
    s.(reqs := s.reqs - {r})
  }

  function Move(s: State, r: Rid, pc: Pc): State {
    s.(reqs := s.reqs[r := pc])
  }

  function AddTag(s: State, tag: Tag): State {
    s.(issued := s.issued + {tag})
  }

  /** Record whether the request kept to its spans. */
  function Judge(s: State, prompt: bool): State {
    s.(prompt := s.prompt && prompt)
  }

  predicate Overflows(s: State, r: Rid) {
    r in s.reqs && s.reqs[r].Overflowed?
  }

  /** A step is None when it is not enabled. */
  function LoginStep(s: State, userId: UserId, hash: Hash, remember: bool, id: Id, reading: int): Option<State> {
    if id in s.owners || reading > s.now then None
    else
      Some(s.(owners := s.owners[id := Owner(userId, remember)],
              issued := s.issued + {Issue(s.signing, userId, hash, remember, id, reading)}))
  }

  function PresentStep(s: State, r: Rid, token: Token): Option<State> {
    if r in s.reqs || (token.tag.Signed? && token.tag !in s.issued) then None
    else if !Timely(token.payload, s.now) then Some(s)
    else Some(Move(s, r, Parsed(token, s.now)))
  }

  function LoadStep(s: State, r: Rid): Option<State> {
    if !(r in s.reqs && s.reqs[r].Parsed?) then None
    else Some(Move(s, r, Loaded(s.reqs[r].token, s.reqs[r].at, s.signing)))
  }

  function FirstCheckStep(s: State, r: Rid): Option<State> {
    if !(r in s.reqs && s.reqs[r].Loaded?) then None
    else
      var pc := s.reqs[r];
      if RevokedOrRotated(s.revoked, s.signing, pc.token.payload.id, pc.signing) then Some(Drop(s, r))
      else Some(Move(s, r, Cleared(pc.token, pc.at, pc.signing)))
  }

  function LookupStep(s: State, r: Rid): Option<State> {
    if !(r in s.reqs && s.reqs[r].Cleared?) then None
    else
      var pc := s.reqs[r];
      if pc.token.payload.userId !in s.users then Some(Drop(s, r))
      else Some(Move(s, r, Looked(pc.token, pc.at, pc.signing, s.users[pc.token.payload.userId])))
  }

  function FinalCheckStep(s: State, r: Rid, spans: Spans): Option<State> {
    if !(r in s.reqs && s.reqs[r].Looked?) then None
    else
      var pc := s.reqs[r];
      if !Passes(s, pc) then Some(Drop(s, r))
      else Some(Move(Judge(s, !Late(pc, s.now, spans)), r, Accepted(SessionOf(pc), pc.at)))
  }

  function RenewStep(s: State, r: Rid, spans: Spans): Option<State> {
    if !(r in s.reqs && s.reqs[r].Accepted?) then None
    else
      var sess := s.reqs[r].session;
      if !Stale(sess, s.now) then Some(s)
      else
        var tag := Issue(sess.signing, sess.userId, sess.hash, sess.remember, sess.id, s.now);
        Some(AddTag(Judge(s, s.now <= s.reqs[r].at + spans.issue), tag))
  }

  function KeepReadStep(s: State, r: Rid, spans: Spans): Option<State> {
    if !(r in s.reqs && s.reqs[r].Accepted?) then None
    else
      var pc := s.reqs[r];
      if pc.session.userId !in s.users then Some(s)
      else
        Some(Move(Judge(s, s.now <= pc.at + spans.issue), r,
                  Keeping(pc.session, pc.at, s.now, s.users[pc.session.userId])))
  }

  function KeepIssueStep(s: State, r: Rid): Option<State> {
    if !(r in s.reqs && s.reqs[r].Keeping?) then None
    else
      var pc := s.reqs[r];
      var sess := pc.session;
      var tag := Issue(s.signing, sess.userId, pc.hash, sess.remember, sess.id, pc.reading);
      Some(Move(AddTag(s, tag), r, Accepted(sess, pc.at)))
  }

  function LogoutStep(s: State, r: Rid): Option<State> {
    if !(r in s.reqs && s.reqs[r].Accepted?) then None
    else
      var sess := s.reqs[r].session;
      var (revoked, full) := Listed(s.revoked, sess.id, sess.remember, s.now);
      if full then Some(Move(s.(revoked := revoked), r, Overflowed(sess, s.reqs[r].at)))
      else Some(s.(revoked := revoked, outs := s.outs + {LoggedOut(sess.id, s.signing, sess.remember, s.now)}))
  }

  function FinishStep(s: State, r: Rid): Option<State> {
    if !(r in s.reqs && s.reqs[r].Accepted?) then None else Some(Drop(s, r))
  }

  /** RevokeSessions, asked for by an administrator or by a logout that found the list full. */
  function BeginRotationStep(s: State, asker: Option<Rid>, key: nat): Option<State> {
    if s.rotation.Some? || (asker.Some? && !Overflows(s, asker.value)) then None
    else Some(s.(rotation := Some(Rotation(Signing(key, s.signing.generation + 1), asker))))
  }

  /** No new key could be saved: nothing is revoked. */
  function FailRotationStep(s: State): Option<State> {
    if s.rotation.None? then None
    else
      var t := s.(rotation := None);
      Some(if s.rotation.value.asker.None? then t else Drop(t, s.rotation.value.asker.value))
  }

  function SwapStep(s: State): Option<State> {
    if s.rotation.None? then None
    else
      var asker := s.rotation.value.asker;
      var t := s.(signing := s.rotation.value.next, revoked := map[], rotation := None);
      if asker.None? || !Overflows(s, asker.value) then Some(t)
      else
        var sess := s.reqs[asker.value].session;
        Some(Drop(t.(outs := s.outs + {LoggedOut(sess.id, s.signing, sess.remember, s.now)}), asker.value))
  }

  function Next(s: State, e: Event, spans: Spans): Option<State> {
    match e
    case Tick(d) => Some(s.(now := s.now + d))
    case SetPassword(userId, hash) => Some(s.(users := s.users[userId := hash]))
    case RemoveUser(userId) => Some(s.(users := s.users - {userId}))
    case Login(userId, hash, remember, id, reading) => LoginStep(s, userId, hash, remember, id, reading)
    case Present(r, token) => PresentStep(s, r, token)
    case Load(r) => LoadStep(s, r)
    case FirstCheck(r) => FirstCheckStep(s, r)
    case Lookup(r) => LookupStep(s, r)
    case FinalCheck(r) => FinalCheckStep(s, r, spans)
    case Renew(r) => RenewStep(s, r, spans)
    case KeepRead(r) => KeepReadStep(s, r, spans)
    case KeepIssue(r) => KeepIssueStep(s, r)
    case Logout(r) => LogoutStep(s, r)
    case Finish(r) => FinishStep(s, r)
    case BeginRotation(asker, key) => BeginRotationStep(s, asker, key)
    case FailRotation => FailRotationStep(s)
    case Swap => SwapStep(s)
  }

  ghost function Run(s: State, es: seq<Event>, spans: Spans): Option<State>
    decreases |es|
  {
    if es == [] then Some(s)
    else
      match Next(s, es[0], spans)
      case None => None
      case Some(t) => Run(t, es[1..], spans)
  }

  // ----- What every step keeps -----

  /** `st` was current once, and is again only if it still is. */
  predicate KnownSigning(st: Signing, current: Signing) {
    st.generation < current.generation || st == current
  }

  predicate RotationKept(rotation: Option<Rotation>, current: Signing) {
    rotation.Some? ==> rotation.value.next.generation == current.generation + 1
  }

  predicate Owned(owners: map<Id, Owner>, id: Id, userId: UserId, remember: bool) {
    id in owners && owners[id] == Owner(userId, remember)
  }

  predicate TagKept(tag: Tag, owners: map<Id, Owner>, now: int, current: Signing) {
    && tag.Signed?
    && KnownSigning(tag.signing, current)
    && Owned(owners, tag.payload.id, tag.payload.userId, tag.payload.remember)
    && tag.payload.exp * SECOND <= now + Lifetime(tag.payload.remember)
  }

  ghost predicate TagsKept(issued: set<Tag>, owners: map<Id, Owner>, now: int, current: Signing) {
    forall tag <- issued :: TagKept(tag, owners, now, current)
  }

  predicate Checking(pc: Pc) {
    pc.Parsed? || pc.Loaded? || pc.Cleared? || pc.Looked?
  }

  predicate PcKept(pc: Pc, issued: set<Tag>, owners: map<Id, Owner>, now: int, current: Signing,
                   issueSpan: nat, prompt: bool) {
    && pc.at <= now
    && (Checking(pc) ==>
          && (pc.token.tag.Signed? ==> pc.token.tag in issued)
          && pc.at < pc.token.payload.exp * SECOND)
    && (Checking(pc) && !pc.Parsed? ==> KnownSigning(pc.signing, current))
    && (!Checking(pc) ==>
          && Owned(owners, pc.session.id, pc.session.userId, pc.session.remember)
          && KnownSigning(pc.session.signing, current))
    && (pc.Keeping? ==> pc.reading <= now && (prompt ==> pc.reading <= pc.at + issueSpan))
  }

  ghost predicate ReqsKept(reqs: map<Rid, Pc>, issued: set<Tag>, owners: map<Id, Owner>, now: int,
                           current: Signing, issueSpan: nat, prompt: bool) {
    forall r <- reqs :: PcKept(reqs[r], issued, owners, now, current, issueSpan, prompt)
  }

  predicate OutKept(o: LoggedOut, owners: map<Id, Owner>, now: int, current: Signing) {
    && o.at <= now
    && KnownSigning(o.signing, current)
    && o.id in owners && owners[o.id].remember == o.remember
  }

  ghost predicate OutsKept(outs: set<LoggedOut>, owners: map<Id, Owner>, now: int, current: Signing) {
    forall o <- outs :: OutKept(o, owners, now, current)
  }

  /** The end of the life of every token of the session that its logout state ever signs. */
  function Horizon(o: LoggedOut, issueSpan: nat): int {
    Unix(o.at + Lifetime(o.remember)) + Whole(issueSpan)
  }

  predicate Bounded(o: LoggedOut, tag: Tag, issueSpan: nat) {
    tag.Signed? && tag.payload.id == o.id && tag.signing == o.signing
    ==> tag.payload.exp <= Horizon(o, issueSpan)
  }

  ghost predicate TagsBounded(outs: set<LoggedOut>, issued: set<Tag>, issueSpan: nat) {
    forall o <- outs, tag <- issued :: Bounded(o, tag, issueSpan)
  }

  predicate StillListed(o: LoggedOut, revoked: map<Id, int>, current: Signing, now: int) {
    o.signing == current ==>
      || (o.id in revoked && revoked[o.id] >= Entry(o.remember, o.at))
      || Unix(now) > Entry(o.remember, o.at)
  }

  ghost predicate OutsListed(outs: set<LoggedOut>, revoked: map<Id, int>, current: Signing, now: int) {
    forall o <- outs :: StillListed(o, revoked, current, now)
  }

  predicate AcceptedEarlier(o: LoggedOut, pc: Pc) {
    !Checking(pc) && pc.session.id == o.id && pc.session.signing.generation <= o.signing.generation
    ==> pc.at <= o.at
  }

  ghost predicate HoldersEarlier(outs: set<LoggedOut>, reqs: map<Rid, Pc>) {
    forall o <- outs, r <- reqs :: AcceptedEarlier(o, reqs[r])
  }

  predicate Trusted(prompt: bool, spans: Spans) {
    prompt && WithinSlack(spans)
  }

  ghost predicate Inv(s: State, spans: Spans) {
    && |s.revoked| <= MAX_REVOKED
    && RotationKept(s.rotation, s.signing)
    && TagsKept(s.issued, s.owners, s.now, s.signing)
    && ReqsKept(s.reqs, s.issued, s.owners, s.now, s.signing, spans.issue, s.prompt)
    && OutsKept(s.outs, s.owners, s.now, s.signing)
    && OutsListed(s.outs, s.revoked, s.signing, s.now)
    && (Trusted(s.prompt, spans) ==> TagsBounded(s.outs, s.issued, spans.issue) && HoldersEarlier(s.outs, s.reqs))
  }

  /** The heart of it: while requests are prompt, the last check refuses every token of a logged-out
      session that a state no newer than the logout's signed. */
  lemma RefusesLoggedOut(s: State, r: Rid, o: LoggedOut, spans: Spans)
    requires Inv(s, spans) && WithinSlack(spans) && s.prompt
    requires r in s.reqs && s.reqs[r].Looked? && o in s.outs
    requires s.reqs[r].token.payload.id == o.id
    requires s.reqs[r].signing.generation <= o.signing.generation
    requires !Late(s.reqs[r], s.now, spans)
    ensures !Passes(s, s.reqs[r])
  {
    var pc := s.reqs[r];
    assert PcKept(pc, s.issued, s.owners, s.now, s.signing, spans.issue, s.prompt);
    assert OutKept(o, s.owners, s.now, s.signing);
    assert StillListed(o, s.revoked, s.signing, s.now);
    if pc.token.tag.Signed? {
      assert Bounded(o, pc.token.tag, spans.issue);
    }
  }

  // ----- One lemma per kind of update -----

  lemma MoveKeeps(s: State, r: Rid, pc: Pc, spans: Spans)
    requires Inv(s, spans)
    requires PcKept(pc, s.issued, s.owners, s.now, s.signing, spans.issue, s.prompt)
    requires Trusted(s.prompt, spans) ==> forall o <- s.outs :: AcceptedEarlier(o, pc)
    ensures Inv(Move(s, r, pc), spans)
  {
  }

  /** A request that stays accepted keeps what its session had. */
  lemma MoveOnKeeps(s: State, r: Rid, pc: Pc, spans: Spans)
    requires Inv(s, spans) && r in s.reqs && !Checking(s.reqs[r])
    requires !Checking(pc) && pc.session == s.reqs[r].session && pc.at == s.reqs[r].at
    requires pc.Keeping? ==> pc.reading <= s.now && (s.prompt ==> pc.reading <= pc.at + spans.issue)
    ensures Inv(Move(s, r, pc), spans)
  {
    assert PcKept(s.reqs[r], s.issued, s.owners, s.now, s.signing, spans.issue, s.prompt);
    forall o | o in s.outs && Trusted(s.prompt, spans) ensures AcceptedEarlier(o, pc) {
      assert AcceptedEarlier(o, s.reqs[r]);
    }
    MoveKeeps(s, r, pc, spans);
  }

  lemma DropKeeps(s: State, r: Rid, spans: Spans)
    requires Inv(s, spans)
    ensures Inv(Drop(s, r), spans)
  {
  }

  lemma JudgeKeeps(s: State, prompt: bool, spans: Spans)
    requires Inv(s, spans)
    ensures Inv(Judge(s, prompt), spans)
  {
    forall r | r in s.reqs
      ensures PcKept(s.reqs[r], s.issued, s.owners, s.now, s.signing, spans.issue, s.prompt && prompt)
    {
      assert PcKept(s.reqs[r], s.issued, s.owners, s.now, s.signing, spans.issue, s.prompt);
    }
  }

  lemma AddTagKeeps(s: State, tag: Tag, spans: Spans)
    requires Inv(s, spans)
    requires TagKept(tag, s.owners, s.now, s.signing)
    requires Trusted(s.prompt, spans) ==> forall o <- s.outs :: Bounded(o, tag, spans.issue)
    ensures Inv(AddTag(s, tag), spans)
  {
    forall r | r in s.reqs
      ensures PcKept(s.reqs[r], s.issued + {tag}, s.owners, s.now, s.signing, spans.issue, s.prompt)
    {
      assert PcKept(s.reqs[r], s.issued, s.owners, s.now, s.signing, spans.issue, s.prompt);
    }
  }

  // ----- One lemma per step -----

  ghost predicate Kept(t: Option<State>, spans: Spans) {
    t.Some? ==> Inv(t.value, spans)
  }

  lemma FloorBelow(t: int)
    ensures Unix(t) * SECOND <= t
  {
  }

  lemma FloorAbove(n: int, t: int)
    requires n * SECOND <= t
    ensures n <= Unix(t)
  {
  }

  lemma FloorSum(a: int, b: int, span: nat, life: int)
    requires a <= b + span
    ensures Unix(a + life) <= Unix(b + life) + Whole(span)
  {
  }

  lemma FloorMonotone(a: int, b: int)
    requires a <= b
    ensures Unix(a) <= Unix(b)
  {
  }

  lemma TickKeeps(s: State, d: nat, spans: Spans)
    requires Inv(s, spans)
    ensures Inv(s.(now := s.now + d), spans)
  {
    var t := s.(now := s.now + d);
    forall r | r in s.reqs ensures PcKept(s.reqs[r], s.issued, s.owners, t.now, s.signing, spans.issue, s.prompt) {
      assert PcKept(s.reqs[r], s.issued, s.owners, s.now, s.signing, spans.issue, s.prompt);
    }
    forall o | o in s.outs
      ensures OutKept(o, s.owners, t.now, s.signing) && StillListed(o, s.revoked, s.signing, t.now)
    {
      assert OutKept(o, s.owners, s.now, s.signing) && StillListed(o, s.revoked, s.signing, s.now);
    }
    forall tag | tag in s.issued ensures TagKept(tag, s.owners, t.now, s.signing) {
      assert TagKept(tag, s.owners, s.now, s.signing);
    }
  }

  /** A fresh session id touches nothing that is already there. */
  lemma OwnerKeeps(s: State, id: Id, owner: Owner, spans: Spans)
    requires Inv(s, spans) && id !in s.owners
    ensures Inv(s.(owners := s.owners[id := owner]), spans)
  {
    var t := s.(owners := s.owners[id := owner]);
    forall r | r in s.reqs ensures PcKept(s.reqs[r], s.issued, t.owners, s.now, s.signing, spans.issue, s.prompt) {
      assert PcKept(s.reqs[r], s.issued, s.owners, s.now, s.signing, spans.issue, s.prompt);
    }
    forall tag | tag in s.issued ensures TagKept(tag, t.owners, s.now, s.signing) {
      assert TagKept(tag, s.owners, s.now, s.signing);
    }
    forall o | o in s.outs ensures OutKept(o, t.owners, s.now, s.signing) {
      assert OutKept(o, s.owners, s.now, s.signing);
    }
  }

  lemma LoginKeeps(s: State, userId: UserId, hash: Hash, remember: bool, id: Id, reading: int, spans: Spans)
    requires Inv(s, spans)
    ensures Kept(LoginStep(s, userId, hash, remember, id, reading), spans)
  {
    if id !in s.owners && reading <= s.now {
      OwnerKeeps(s, id, Owner(userId, remember), spans);
      FloorBelow(reading + Lifetime(remember));
      var t := s.(owners := s.owners[id := Owner(userId, remember)]);
      var tag := Issue(s.signing, userId, hash, remember, id, reading);
      forall o | o in s.outs ensures Bounded(o, tag, spans.issue) {
        assert OutKept(o, s.owners, s.now, s.signing);
      }
      AddTagKeeps(t, tag, spans);
    }
  }

  lemma CheckingKeeps(s: State, r: Rid, pc: Pc, spans: Spans)
    requires Inv(s, spans) && Checking(pc)
    requires PcKept(pc, s.issued, s.owners, s.now, s.signing, spans.issue, s.prompt)
    ensures Inv(Move(s, r, pc), spans) && Inv(Drop(s, r), spans)
  {
    MoveKeeps(s, r, pc, spans);
    DropKeeps(s, r, spans);
  }

  lemma PresentKeeps(s: State, r: Rid, token: Token, spans: Spans)
    requires Inv(s, spans)
    ensures Kept(PresentStep(s, r, token), spans)
  {
    if PresentStep(s, r, token).Some? && Timely(token.payload, s.now) {
      CheckingKeeps(s, r, Parsed(token, s.now), spans);
    }
  }

  lemma ChecksKeep(s: State, r: Rid, spans: Spans)
    requires Inv(s, spans)
    ensures Kept(LoadStep(s, r), spans) && Kept(FirstCheckStep(s, r), spans) && Kept(LookupStep(s, r), spans)
  {
    if r in s.reqs && Checking(s.reqs[r]) {
      var pc := s.reqs[r];
      assert PcKept(pc, s.issued, s.owners, s.now, s.signing, spans.issue, s.prompt);
      if pc.Parsed? {
        CheckingKeeps(s, r, Loaded(pc.token, pc.at, s.signing), spans);
      } else if pc.Loaded? {
        CheckingKeeps(s, r, Cleared(pc.token, pc.at, pc.signing), spans);
      } else if pc.Cleared? {
        DropKeeps(s, r, spans);
        if pc.token.payload.userId in s.users {
          CheckingKeeps(s, r, Looked(pc.token, pc.at, pc.signing, s.users[pc.token.payload.userId]), spans);
        }
      }
    }
  }

  lemma FinalCheckKeeps(s: State, r: Rid, spans: Spans)
    requires Inv(s, spans)
    ensures Kept(FinalCheckStep(s, r, spans), spans)
  {
    if r in s.reqs && s.reqs[r].Looked? {
      var pc := s.reqs[r];
      DropKeeps(s, r, spans);
      if Passes(s, pc) {
        var j := Judge(s, !Late(pc, s.now, spans));
        JudgeKeeps(s, !Late(pc, s.now, spans), spans);
        assert PcKept(pc, s.issued, s.owners, s.now, s.signing, spans.issue, s.prompt);
        assert TagKept(pc.token.tag, s.owners, s.now, s.signing);
        forall o | o in j.outs && Trusted(j.prompt, spans) ensures AcceptedEarlier(o, Accepted(SessionOf(pc), pc.at)) {
          if pc.token.payload.id == o.id && pc.signing.generation <= o.signing.generation {
            RefusesLoggedOut(j, r, o, spans);
          }
        }
        MoveKeeps(j, r, Accepted(SessionOf(pc), pc.at), spans);
      }
    }
  }

  /** A session accepted before a logout has no token that outlives the logout's horizon. */
  lemma IssueBounded(s: State, r: Rid, o: LoggedOut, st: Signing, hash: Hash, reading: int, spans: Spans)
    requires Inv(s, spans) && Trusted(s.prompt, spans) && o in s.outs
    requires r in s.reqs && !Checking(s.reqs[r]) && KnownSigning(s.reqs[r].session.signing, st)
    requires reading <= s.reqs[r].at + spans.issue
    ensures
      var sess := s.reqs[r].session;
      Bounded(o, Issue(st, sess.userId, hash, sess.remember, sess.id, reading), spans.issue)
  {
    var sess := s.reqs[r].session;
    assert PcKept(s.reqs[r], s.issued, s.owners, s.now, s.signing, spans.issue, s.prompt);
    assert OutKept(o, s.owners, s.now, s.signing);
    assert AcceptedEarlier(o, s.reqs[r]);
    if sess.id == o.id && st == o.signing {
      FloorSum(reading, o.at, spans.issue, Lifetime(o.remember));
    }
  }

  lemma RenewKeeps(s: State, r: Rid, spans: Spans)
    requires Inv(s, spans)
    ensures Kept(RenewStep(s, r, spans), spans)
  {
    if r in s.reqs && s.reqs[r].Accepted? {
      var sess := s.reqs[r].session;
      var tag := Issue(sess.signing, sess.userId, sess.hash, sess.remember, sess.id, s.now);
      var ok := s.now <= s.reqs[r].at + spans.issue;
      JudgeKeeps(s, ok, spans);
      assert PcKept(s.reqs[r], s.issued, s.owners, s.now, s.signing, spans.issue, s.prompt);
      FloorBelow(s.now + Lifetime(sess.remember));
      var j := Judge(s, ok);
      forall o | o in j.outs && Trusted(j.prompt, spans) ensures Bounded(o, tag, spans.issue) {
        IssueBounded(j, r, o, sess.signing, sess.hash, s.now, spans);
      }
      AddTagKeeps(j, tag, spans);
    }
  }

  lemma KeepReadKeeps(s: State, r: Rid, spans: Spans)
    requires Inv(s, spans)
    ensures Kept(KeepReadStep(s, r, spans), spans)
  {
    if r in s.reqs && s.reqs[r].Accepted? {
      var pc := s.reqs[r];
      if pc.session.userId in s.users {
        JudgeKeeps(s, s.now <= pc.at + spans.issue, spans);
        MoveOnKeeps(Judge(s, s.now <= pc.at + spans.issue), r,
                    Keeping(pc.session, pc.at, s.now, s.users[pc.session.userId]), spans);
      }
    }
  }

  lemma KeepIssueKeeps(s: State, r: Rid, spans: Spans)
    requires Inv(s, spans)
    ensures Kept(KeepIssueStep(s, r), spans)
  {
    if r in s.reqs && s.reqs[r].Keeping? {
      var pc := s.reqs[r];
      var sess := pc.session;
      var tag := Issue(s.signing, sess.userId, pc.hash, sess.remember, sess.id, pc.reading);
      assert PcKept(pc, s.issued, s.owners, s.now, s.signing, spans.issue, s.prompt);
      FloorBelow(pc.reading + Lifetime(sess.remember));
      forall o | o in s.outs && Trusted(s.prompt, spans) ensures Bounded(o, tag, spans.issue) {
        IssueBounded(s, r, o, s.signing, pc.hash, pc.reading, spans);
      }
      AddTagKeeps(s, tag, spans);
      MoveOnKeeps(AddTag(s, tag), r, Accepted(sess, pc.at), spans);
    }
  }

  /** Pruning forgets a logout only once all its tokens have expired. */
  lemma PruneKeepsListed(o: LoggedOut, s: State, spans: Spans)
    requires Inv(s, spans) && o in s.outs
    ensures StillListed(o, Prune(s.revoked, s.now), s.signing, s.now)
  {
    assert StillListed(o, s.revoked, s.signing, s.now);
  }

  lemma PruneKeeps(s: State, spans: Spans)
    requires Inv(s, spans)
    ensures Inv(s.(revoked := Prune(s.revoked, s.now)), spans)
  {
    PruneShrinks(s.revoked, s.now);
    forall o | o in s.outs ensures StillListed(o, Prune(s.revoked, s.now), s.signing, s.now) {
      PruneKeepsListed(o, s, spans);
    }
  }

  /** Adding a logout: everything issued or accepted so far is early enough. */
  lemma OutKeeps(s: State, o: LoggedOut, spans: Spans)
    requires Inv(s, spans) && o.at == s.now && OutKept(o, s.owners, s.now, s.signing)
    requires StillListed(o, s.revoked, s.signing, s.now)
    ensures Inv(s.(outs := s.outs + {o}), spans)
  {
    forall tag | tag in s.issued ensures Bounded(o, tag, spans.issue) {
      assert TagKept(tag, s.owners, s.now, s.signing);
      if tag.payload.id == o.id {
        FloorAbove(tag.payload.exp, s.now + Lifetime(o.remember));
      }
    }
    forall r | r in s.reqs ensures AcceptedEarlier(o, s.reqs[r]) {
      assert PcKept(s.reqs[r], s.issued, s.owners, s.now, s.signing, spans.issue, s.prompt);
    }
  }

  lemma ListingKeeps(s: State, id: Id, remember: bool, spans: Spans)
    requires Inv(s, spans) && |s.revoked| < MAX_REVOKED && id in s.owners && s.owners[id].remember == remember
    ensures
      var t := s.(revoked := s.revoked[id := Entry(remember, s.now)]);
      Inv(t, spans) && Inv(t.(outs := t.outs + {LoggedOut(id, s.signing, remember, s.now)}), spans)
  {
    var t := s.(revoked := s.revoked[id := Entry(remember, s.now)]);
    forall o | o in s.outs ensures StillListed(o, t.revoked, s.signing, s.now) {
      assert StillListed(o, s.revoked, s.signing, s.now) && OutKept(o, s.owners, s.now, s.signing);
      FloorMonotone(o.at + Lifetime(o.remember) + MINUTE, s.now + Lifetime(o.remember) + MINUTE);
    }
    OutKeeps(t, LoggedOut(id, s.signing, remember, s.now), spans);
  }

  lemma LogoutKeeps(s: State, r: Rid, spans: Spans)
    requires Inv(s, spans)
    ensures Kept(LogoutStep(s, r), spans)
  {
    if r in s.reqs && s.reqs[r].Accepted? {
      var sess := s.reqs[r].session;
      assert PcKept(s.reqs[r], s.issued, s.owners, s.now, s.signing, spans.issue, s.prompt);
      PruneKeeps(s, spans);
      var p := s.(revoked := Prune(s.revoked, s.now));
      if |p.revoked| < MAX_REVOKED {
        ListingKeeps(p, sess.id, sess.remember, spans);
      } else {
        MoveOnKeeps(p, r, Overflowed(sess, s.reqs[r].at), spans);
      }
    }
  }

  /** A new state retires the old one: nothing signed so far is signed with the new one. */
  lemma RetireKeeps(s: State, next: Signing, spans: Spans)
    requires Inv(s, spans) && next.generation == s.signing.generation + 1
    ensures Inv(s.(signing := next, revoked := map[], rotation := None), spans)
  {
    forall tag | tag in s.issued ensures TagKept(tag, s.owners, s.now, next) {
      assert TagKept(tag, s.owners, s.now, s.signing);
    }
    forall r | r in s.reqs ensures PcKept(s.reqs[r], s.issued, s.owners, s.now, next, spans.issue, s.prompt) {
      assert PcKept(s.reqs[r], s.issued, s.owners, s.now, s.signing, spans.issue, s.prompt);
    }
    forall o | o in s.outs ensures OutKept(o, s.owners, s.now, next) && StillListed(o, map[], next, s.now) {
      assert OutKept(o, s.owners, s.now, s.signing);
    }
  }

  lemma SwapKeeps(s: State, spans: Spans)
    requires Inv(s, spans)
    ensures Kept(SwapStep(s), spans)
  {
    if s.rotation.Some? {
      RetireKeeps(s, s.rotation.value.next, spans);
      var t := s.(signing := s.rotation.value.next, revoked := map[], rotation := None);
      var asker := s.rotation.value.asker;
      if asker.Some? && Overflows(s, asker.value) {
        var pc := s.reqs[asker.value];
        assert PcKept(pc, s.issued, s.owners, s.now, s.signing, spans.issue, s.prompt);
        var o := LoggedOut(pc.session.id, s.signing, pc.session.remember, s.now);
        OutKeeps(t, o, spans);
        DropKeeps(t.(outs := s.outs + {o}), asker.value, spans);
      }
    }
  }

  lemma RotationKeeps(s: State, asker: Option<Rid>, key: nat, spans: Spans)
    requires Inv(s, spans)
    ensures Kept(BeginRotationStep(s, asker, key), spans) && Kept(FailRotationStep(s), spans)
  {
    if s.rotation.Some? && s.rotation.value.asker.Some? {
      DropKeeps(s.(rotation := None), s.rotation.value.asker.value, spans);
    }
  }

  lemma NextKeeps(s: State, e: Event, spans: Spans)
    requires Inv(s, spans)
    ensures Kept(Next(s, e, spans), spans)
  {
    match e
    case Tick(d) => TickKeeps(s, d, spans);
    case SetPassword(_, _) =>
    case RemoveUser(_) =>
    case Login(userId, hash, remember, id, reading) => LoginKeeps(s, userId, hash, remember, id, reading, spans);
    case Present(r, token) => PresentKeeps(s, r, token, spans);
    case Load(r) => ChecksKeep(s, r, spans);
    case FirstCheck(r) => ChecksKeep(s, r, spans);
    case Lookup(r) => ChecksKeep(s, r, spans);
    case FinalCheck(r) => FinalCheckKeeps(s, r, spans);
    case Renew(r) => RenewKeeps(s, r, spans);
    case KeepRead(r) => KeepReadKeeps(s, r, spans);
    case KeepIssue(r) => KeepIssueKeeps(s, r, spans);
    case Logout(r) => LogoutKeeps(s, r, spans);
    case Finish(r) => DropKeeps(s, r, spans);
    case BeginRotation(asker, key) => RotationKeeps(s, asker, key, spans);
    case FailRotation => RotationKeeps(s, None, 0, spans);
    case Swap => SwapKeeps(s, spans);
  }

  // ----- Main results, over every run -----

  predicate Starts(s: State) {
    && |s.revoked| <= MAX_REVOKED
    && s == Initial(s.now, s.users, s.signing, s.revoked)
  }

  lemma {:induction false} RunInv(s: State, es: seq<Event>, spans: Spans)
    requires Inv(s, spans)
    ensures Kept(Run(s, es, spans), spans)
    decreases |es|
  {
    if es != [] {
      NextKeeps(s, es[0], spans);
      if Next(s, es[0], spans).Some? {
        RunInv(Next(s, es[0], spans).value, es[1..], spans);
      }
    }
  }

  lemma {:induction false} RunAppend(s: State, es: seq<Event>, fs: seq<Event>, spans: Spans)
    requires Run(s, es, spans).Some?
    ensures Run(s, es + fs, spans) == Run(Run(s, es, spans).value, fs, spans)
    decreases |es|
  {
    if es == [] {
      assert es + fs == fs;
    } else {
      assert (es + fs)[1..] == es[1..] + fs;
      RunAppend(Next(s, es[0], spans).value, es[1..], fs, spans);
    }
  }

  /** What only ever grows, and the signing state, which never comes back. */
  predicate Grown(s: State, t: State) {
    && KnownSigning(s.signing, t.signing)
    && s.now <= t.now
    && s.outs <= t.outs && s.issued <= t.issued
    && (t.prompt ==> s.prompt)
  }

  ghost predicate Grows(s: State, t: Option<State>) {
    t.Some? ==> Grown(s, t.value) && RotationKept(t.value.rotation, t.value.signing)
  }

  lemma ChecksGrow(s: State, r: Rid, spans: Spans)
    requires RotationKept(s.rotation, s.signing)
    ensures Grows(s, LoadStep(s, r)) && Grows(s, FirstCheckStep(s, r))
    ensures Grows(s, LookupStep(s, r)) && Grows(s, FinalCheckStep(s, r, spans))
  {
  }

  lemma SessionsGrow(s: State, r: Rid, spans: Spans)
    requires RotationKept(s.rotation, s.signing)
    ensures Grows(s, RenewStep(s, r, spans)) && Grows(s, KeepReadStep(s, r, spans)) && Grows(s, KeepIssueStep(s, r))
    ensures Grows(s, LogoutStep(s, r)) && Grows(s, FinishStep(s, r))
  {
  }

  lemma BeginRotationGrows(s: State, asker: Option<Rid>, key: nat)
    requires RotationKept(s.rotation, s.signing)
    ensures Grows(s, BeginRotationStep(s, asker, key))
  {
  }

  lemma FailRotationGrows(s: State)
    requires RotationKept(s.rotation, s.signing)
    ensures Grows(s, FailRotationStep(s))
  {
  }

  lemma SwapGrows(s: State)
    requires RotationKept(s.rotation, s.signing)
    ensures Grows(s, SwapStep(s))
  {
  }

  lemma NextGrows(s: State, e: Event, spans: Spans)
    requires RotationKept(s.rotation, s.signing)
    ensures Grows(s, Next(s, e, spans))
  {
    match e
    case Tick(d) =>
    case SetPassword(_, _) =>
    case RemoveUser(_) =>
    case Login(userId, hash, remember, id, reading) =>
    case Present(r, token) =>
    case Load(r) => ChecksGrow(s, r, spans);
    case FirstCheck(r) => ChecksGrow(s, r, spans);
    case Lookup(r) => ChecksGrow(s, r, spans);
    case FinalCheck(r) => ChecksGrow(s, r, spans);
    case Renew(r) => SessionsGrow(s, r, spans);
    case KeepRead(r) => SessionsGrow(s, r, spans);
    case KeepIssue(r) => SessionsGrow(s, r, spans);
    case Logout(r) => SessionsGrow(s, r, spans);
    case Finish(r) => SessionsGrow(s, r, spans);
    case BeginRotation(asker, key) => BeginRotationGrows(s, asker, key);
    case FailRotation => FailRotationGrows(s);
    case Swap => SwapGrows(s);
  }

  lemma {:induction false} RunGrows(s: State, es: seq<Event>, spans: Spans)
    requires RotationKept(s.rotation, s.signing)
    ensures Grows(s, Run(s, es, spans))
    decreases |es|
  {
    if es != [] {
      NextGrows(s, es[0], spans);
      if Next(s, es[0], spans).Some? {
        RunGrows(Next(s, es[0], spans).value, es[1..], spans);
      }
    }
  }

  /** In the state just before it, the last check of request `r` accepts its token. */
  predicate AcceptsNow(s: State, r: Rid) {
    r in s.reqs && s.reqs[r].Looked? && Passes(s, s.reqs[r])
  }

  /** A signing state once replaced is never current again. */
  lemma StateNeverReturns(s: State, es: seq<Event>, fs: seq<Event>, spans: Spans)
    requires RotationKept(s.rotation, s.signing)
    requires Run(s, es, spans).Some? && Run(Run(s, es, spans).value, fs, spans).Some?
    requires Run(s, es, spans).value.signing != s.signing
    ensures Run(Run(s, es, spans).value, fs, spans).value.signing != s.signing
  {
    RunGrows(s, es, spans);
    RunGrows(Run(s, es, spans).value, fs, spans);
  }

  /** Once RevokeSessions has swapped the state, no last check accepts a token signed before: neither
      one issued by then, nor one that a session accepted by then renews later. */
  lemma RevocationIsFinal(s0: State, es: seq<Event>, s: State, fs: seq<Event>, r: Rid, spans: Spans)
    requires Starts(s0) && Run(s0, es, spans) == Some(s)
    requires SwapStep(s).Some? && Run(SwapStep(s).value, fs, spans).Some?
    requires AcceptsNow(Run(SwapStep(s).value, fs, spans).value, r)
    ensures
      var tag := Run(SwapStep(s).value, fs, spans).value.reqs[r].token.tag;
      && tag !in s.issued
      && tag.signing.generation > s.signing.generation
      && forall q <- s.reqs | !Checking(s.reqs[q]) :: s.reqs[q].session.signing != tag.signing
  {
    RunInv(s0, es, spans);
    NextGrows(s, Swap, spans);
    RunGrows(SwapStep(s).value, fs, spans);
    OlderThanNext(s, spans);
  }

  lemma OlderThanNext(s: State, spans: Spans)
    requires Inv(s, spans)
    ensures forall tag <- s.issued :: tag.Signed? && tag.signing.generation <= s.signing.generation
    ensures forall q <- s.reqs | !Checking(s.reqs[q]) ::
              s.reqs[q].session.signing.generation <= s.signing.generation
  {
    forall tag | tag in s.issued ensures tag.Signed? && tag.signing.generation <= s.signing.generation {
      assert TagKept(tag, s.owners, s.now, s.signing);
    }
    forall q | q in s.reqs && !Checking(s.reqs[q])
      ensures s.reqs[q].session.signing.generation <= s.signing.generation
    {
      assert PcKept(s.reqs[q], s.issued, s.owners, s.now, s.signing, spans.issue, s.prompt);
    }
  }

  /** A logged-out session whose token a last check accepts all the same, without anybody dawdling
      beyond the spans. */
  ghost predicate Revives(s: State, r: Rid, o: LoggedOut, spans: Spans) {
    && AcceptsNow(s, r) && o in s.outs
    && s.reqs[r].token.payload.id == o.id
    && s.reqs[r].signing.generation <= o.signing.generation
    && s.prompt && !Late(s.reqs[r], s.now, spans)
  }

  /** After a logout no token of the session, signed with the state of the logout or an earlier one,
      passes a later last check. */
  lemma LoggedOutStaysOut(s: State, es: seq<Event>, r: Rid, o: LoggedOut, spans: Spans)
    requires Starts(s) && WithinSlack(spans) && Run(s, es, spans).Some?
    ensures !Revives(Run(s, es, spans).value, r, o, spans)
  {
    RunInv(s, es, spans);
    var t := Run(s, es, spans).value;
    if Revives(t, r, o, spans) {
      RefusesLoggedOut(t, r, o, spans);
    }
  }

  /** Whoever is accepted holds a token the server made, for the user who logged in with that session
      and for no longer than that login allowed; and the revocation list stays short. */
  lemma AcceptedIsGenuine(s: State, es: seq<Event>, r: Rid, spans: Spans)
    requires Starts(s) && Run(s, es, spans).Some?
    ensures
      var t := Run(s, es, spans).value;
      && |t.revoked| <= MAX_REVOKED
      && (AcceptsNow(t, r) ==>
            var pc := t.reqs[r];
            var p := pc.token.payload;
            && pc.token.tag in t.issued
            && Owned(t.owners, p.id, p.userId, p.remember)
            && pc.at < p.exp * SECOND <= t.now + Lifetime(p.remember))
  {
    RunInv(s, es, spans);
    var t := Run(s, es, spans).value;
    if AcceptsNow(t, r) {
      assert PcKept(t.reqs[r], t.issued, t.owners, t.now, t.signing, spans.issue, t.prompt);
      assert TagKept(t.reqs[r].token.tag, t.owners, t.now, t.signing);
    }
  }

  /** A logout takes effect at once, or it waits for a rotation, which then retires every token. */
  lemma LogoutTakesEffect(s: State, r: Rid, key: nat, spans: Spans)
    requires LogoutStep(s, r).Some?
    ensures
      var t := LogoutStep(s, r).value;
      var o := LoggedOut(s.reqs[r].session.id, s.signing, s.reqs[r].session.remember, s.now);
      if |Prune(s.revoked, s.now)| < MAX_REVOKED then o in t.outs && o.id in t.revoked
      else
        && t.outs == s.outs && t.revoked == Prune(s.revoked, s.now)
        && (t.rotation.None? ==>
              var u := Run(t, [BeginRotation(Some(r), key), Swap], spans);
              u.Some? && o in u.value.outs && u.value.signing.generation > o.signing.generation)
  {
    var t := LogoutStep(s, r).value;
    if |Prune(s.revoked, s.now)| >= MAX_REVOKED && t.rotation.None? {
      var begun := BeginRotationStep(t, Some(r), key).value;
      assert Run(t, [BeginRotation(Some(r), key), Swap], spans) == Run(begun, [Swap], spans);
      assert Run(begun, [Swap], spans) == Run(SwapStep(begun).value, [], spans);
    }
  }

  // ----- The slack is exact -----

  ghost predicate Reaches(s0: State, s: State, spans: Spans) {
    exists es :: Run(s0, es, spans) == Some(s)
  }

  lemma Hop(s0: State, s: State, e: Event, t: State, spans: Spans)
    requires Reaches(s0, s, spans) && Next(s, e, spans) == Some(t)
    ensures Reaches(s0, t, spans)
  {
    var es :| Run(s0, es, spans) == Some(s);
    RunAppend(s0, es, [e], spans);
    assert Run(s, [e], spans) == Run(t, [], spans);
    assert Run(s0, es + [e], spans) == Some(t);
  }

  function Good(s: State, p: Payload): Token
    requires p.userId in s.users
  {
    Token(p, Signed(s.signing, p, s.users[p.userId]))
  }

  function SessionFor(s: State, p: Payload): Session
    requires p.userId in s.users
  {
    Session(p.userId, p.exp, p.remember, p.id, s.signing, s.users[p.userId])
  }

  /** A good token, checked in time, is accepted. */
  lemma CheckAccepts(s0: State, s: State, r: Rid, p: Payload, at: int, spans: Spans) returns (looked: State)
    requires p.userId in s.users && p.id !in s.revoked && s.now <= at + spans.verify
    requires Reaches(s0, Move(s, r, Parsed(Good(s, p), at)), spans)
    ensures Reaches(s0, looked, spans)
    ensures looked == Move(s, r, Looked(Good(s, p), at, s.signing, s.users[p.userId]))
    ensures AcceptsNow(looked, r) && !Late(looked.reqs[r], s.now, spans)
    ensures Reaches(s0, Move(s, r, Accepted(SessionFor(s, p), at)), spans)
  {
    var c := Move(s, r, Cleared(Good(s, p), at, s.signing));
    looked := Move(s, r, Looked(Good(s, p), at, s.signing, s.users[p.userId]));
    var d := Move(s, r, Accepted(SessionFor(s, p), at));
    MoveTwice(s, r, c.reqs[r], looked.reqs[r]);
    MoveTwice(s, r, looked.reqs[r], d.reqs[r]);
    assert Judge(looked, true) == looked;
    CheckBegins(s0, s, r, p, at, spans);
    Hop(s0, c, Lookup(r), looked, spans);
    Hop(s0, looked, FinalCheck(r), d, spans);
  }

  lemma CheckBegins(s0: State, s: State, r: Rid, p: Payload, at: int, spans: Spans)
    requires p.userId in s.users && p.id !in s.revoked && s.now <= at + spans.verify
    requires Reaches(s0, Move(s, r, Parsed(Good(s, p), at)), spans)
    ensures Reaches(s0, Move(s, r, Cleared(Good(s, p), at, s.signing)), spans)
  {
    var a := Move(s, r, Parsed(Good(s, p), at));
    var b := Move(s, r, Loaded(Good(s, p), at, s.signing));
    var c := Move(s, r, Cleared(Good(s, p), at, s.signing));
    MoveTwice(s, r, a.reqs[r], b.reqs[r]);
    MoveTwice(s, r, b.reqs[r], c.reqs[r]);
    Hop(s0, a, Load(r), b, spans);
    Hop(s0, b, FirstCheck(r), c, spans);
  }

  lemma MoveTwice(s: State, r: Rid, a: Pc, b: Pc)
    ensures Move(Move(s, r, a), r, b) == Move(s, r, b)
  {
  }

  /** Presented, checked and accepted at once. */
  lemma SignIn(s0: State, s: State, r: Rid, p: Payload, spans: Spans)
    requires Reaches(s0, s, spans) && r !in s.reqs
    requires p.userId in s.users && p.id !in s.revoked && Good(s, p).tag in s.issued && Timely(p, s.now)
    ensures Reaches(s0, Move(s, r, Accepted(SessionFor(s, p), s.now)), spans)
  {
    Hop(s0, s, Present(r, Good(s, p)), Move(s, r, Parsed(Good(s, p), s.now)), spans);
    var looked := CheckAccepts(s0, s, r, p, s.now, spans);
  }

  // A run that revives a session: one request verifies it, the owner logs out, the request renews it
  // `delay` later; once the entry is pruned, a request that read the clock `pause` before is accepted.

  function Steps(issue: nat): nat {
    if Whole(issue) < 62 then Whole(issue) else 62
  }

  function Delay(k: nat): nat {
    if k == 0 then 0 else (k - 1) * SECOND + 1
  }

  function Pause(k: nat): nat {
    if k >= 62 then 0 else (61 - k) * SECOND + 1
  }

  const WEEK := 604_800        // seconds, as are the next two
  const HALFWAY := 400_000
  const PRUNED := HALFWAY + WEEK + 61

  const USER := map[1 := 7]
  const STATE := Signing(0, 0)
  const FIRST := Payload(1, WEEK, false, 5)
  const OTHER := Payload(1, PRUNED + WEEK, false, 6)

  /** When the owner logs out. */
  function OutAt(k: nat): int {
    HALFWAY * SECOND + if k == 0 then 0 else SECOND - 1
  }

  function Renewed(k: nat): Payload {
    Payload(1, HALFWAY + WEEK + k, false, 5)
  }

  function SignedBy(p: Payload): Tag {
    Signed(STATE, p, 7)
  }

  function SessionBy(p: Payload): Session {
    Session(p.userId, p.exp, p.remember, p.id, STATE, 7)
  }

  function TwoAccepted(k: nat): State {
    var pc := Accepted(SessionBy(FIRST), OutAt(k));
    State(OutAt(k), USER, STATE, map[], None, map[0 := pc, 1 := pc], map[5 := Owner(1, false)],
          {SignedBy(FIRST)}, {}, true)
  }

  function RenewedLate(k: nat): State {
    TwoAccepted(k).(
      now := OutAt(k) + Delay(k), revoked := map[5 := HALFWAY + WEEK + 60],
      outs := {LoggedOut(5, STATE, false, OutAt(k))}, issued := {SignedBy(FIRST), SignedBy(Renewed(k))})
  }

  function Waiting(k: nat): State {
    var s := RenewedLate(k);
    s.(now := PRUNED * SECOND,
       reqs := s.reqs[2 := Parsed(Token(Renewed(k), SignedBy(Renewed(k))), PRUNED * SECOND - Pause(k))])
  }

  function OtherIn(k: nat): State {
    var s := Waiting(k);
    s.(reqs := s.reqs[3 := Accepted(SessionBy(OTHER), PRUNED * SECOND)], owners := s.owners[6 := Owner(1, false)],
       issued := s.issued + {SignedBy(OTHER)})
  }

  function Pruned(k: nat): State {
    var s := OtherIn(k);
    s.(revoked := map[6 := PRUNED + WEEK + 60], outs := s.outs + {LoggedOut(6, STATE, false, PRUNED * SECOND)})
  }

  const START := Initial(0, USER, STATE, map[])

  lemma ReachTwoAccepted(k: nat, spans: Spans)
    ensures Reaches(START, TwoAccepted(k), spans)
  {
    var t := TwoAccepted(k);
    assert Run(START, [], spans) == Some(START);
    var a := t.(now := 0, reqs := map[]);
    assert Issue(STATE, 1, 7, false, 5, 0) == SignedBy(FIRST);
    assert START.issued + {SignedBy(FIRST)} == a.issued;
    Hop(START, START, Login(1, 7, false, 5, 0), a, spans);
    var b := t.(reqs := map[]);
    Hop(START, a, Tick(OutAt(k)), b, spans);
    SignIn(START, b, 0, FIRST, spans);
    var c := Move(b, 0, t.reqs[0]);
    SignIn(START, c, 1, FIRST, spans);
    assert Move(c, 1, t.reqs[1]) == t;
  }

  function OwnerGone(k: nat): State {
    TwoAccepted(k).(revoked := map[5 := HALFWAY + WEEK + 60], outs := {LoggedOut(5, STATE, false, OutAt(k))})
  }

  /** The list is empty, or all of it has expired. */
  lemma LogoutOnEmpty(s: State, r: Rid)
    requires r in s.reqs && s.reqs[r].Accepted? && Prune(s.revoked, s.now) == map[]
    ensures
      var sess := s.reqs[r].session;
      LogoutStep(s, r)
      == Some(s.(revoked := map[sess.id := Entry(sess.remember, s.now)],
                 outs := s.outs + {LoggedOut(sess.id, s.signing, sess.remember, s.now)}))
  {
    var sess := s.reqs[r].session;
    assert Listed(s.revoked, sess.id, sess.remember, s.now) == (map[sess.id := Entry(sess.remember, s.now)], false);
  }

  lemma OwnerEntry(k: nat)
    ensures Entry(false, OutAt(k)) == HALFWAY + WEEK + 60
  {
  }

  lemma OwnerLeaves(k: nat)
    ensures LogoutStep(TwoAccepted(k), 1) == Some(OwnerGone(k))
  {
    hide OutAt, Entry, LogoutStep;
    var a := TwoAccepted(k);
    OwnerEntry(k);
    assert Prune(a.revoked, a.now) == map[];
    LogoutOnEmpty(a, 1);
    assert a.outs + {LoggedOut(5, STATE, false, OutAt(k))} == OwnerGone(k).outs;
  }

  lemma ReachOwnerGone(k: nat, spans: Spans)
    ensures Reaches(START, OwnerGone(k), spans)
  {
    ReachTwoAccepted(k, spans);
    OwnerLeaves(k);
    hide OwnerGone, TwoAccepted, LogoutStep;
    Hop(START, TwoAccepted(k), Logout(1), OwnerGone(k), spans);
  }

  lemma ReachRenewedLate(k: nat, spans: Spans)
    requires k <= 62 && Delay(k) <= spans.issue
    ensures Reaches(START, RenewedLate(k), spans)
  {
    ReachOwnerGone(k, spans);
    var c := OwnerGone(k).(now := OutAt(k) + Delay(k));
    Hop(START, OwnerGone(k), Tick(Delay(k)), c, spans);
    assert Issue(STATE, 1, 7, false, 5, c.now) == SignedBy(Renewed(k));
    assert c.issued + {SignedBy(Renewed(k))} == RenewedLate(k).issued;
    assert RenewStep(c, 0, spans) == Some(RenewedLate(k));
    Hop(START, c, Renew(0), RenewedLate(k), spans);
  }

  lemma ReachWaiting(k: nat, spans: Spans)
    requires k <= 62 && Delay(k) <= spans.issue
    ensures Reaches(START, Waiting(k), spans)
  {
    ReachRenewedLate(k, spans);
    var a := RenewedLate(k);
    var b := a.(now := PRUNED * SECOND - Pause(k));
    Hop(START, a, Tick(b.now - a.now), b, spans);
    var c := Move(b, 2, Waiting(k).reqs[2]);
    Hop(START, b, Present(2, Token(Renewed(k), SignedBy(Renewed(k)))), c, spans);
    Hop(START, c, Tick(Pause(k)), Waiting(k), spans);
  }

  lemma ReachOtherIn(k: nat, spans: Spans)
    requires k <= 62 && Delay(k) <= spans.issue
    ensures Reaches(START, OtherIn(k), spans)
  {
    ReachWaiting(k, spans);
    var a := Waiting(k);
    var t := OtherIn(k);
    var b := a.(owners := t.owners, issued := t.issued);
    assert Issue(STATE, 1, 7, false, 6, a.now) == SignedBy(OTHER);
    Hop(START, a, Login(1, 7, false, 6, a.now), b, spans);
    SignIn(START, b, 3, OTHER, spans);
    assert Move(b, 3, t.reqs[3]) == t;
  }

  lemma OtherLeaves(k: nat)
    ensures LogoutStep(OtherIn(k), 3) == Some(Pruned(k))
  {
    var c := OtherIn(k);
    assert Entry(false, c.now) == PRUNED + WEEK + 60;
    assert Prune(c.revoked, c.now) == map[];
    hide Entry, Prune, LogoutStep;
    LogoutOnEmpty(c, 3);
  }

  lemma ReachPruned(k: nat, spans: Spans)
    requires k <= 62 && Delay(k) <= spans.issue
    ensures Reaches(START, Pruned(k), spans)
  {
    ReachOtherIn(k, spans);
    OtherLeaves(k);
    hide OtherIn, Pruned, LogoutStep;
    Hop(START, OtherIn(k), Logout(3), Pruned(k), spans);
  }

  /** A logout holds in every run if and only if the spans fit the slack. */
  lemma SlackIsExact(spans: Spans)
    ensures WithinSlack(spans) <==>
            forall s0, s, r, o | Starts(s0) && Reaches(s0, s, spans) :: !Revives(s, r, o, spans)
  {
    if WithinSlack(spans) {
      forall s0, s, r, o | Starts(s0) && Reaches(s0, s, spans) ensures !Revives(s, r, o, spans) {
        var es :| Run(s0, es, spans) == Some(s);
        LoggedOutStaysOut(s0, es, r, o, spans);
      }
    } else {
      var s, r, o := RevivingRun(spans);
      hide Revives, Reaches, Starts;
      assert Starts(START) && Reaches(START, s, spans);
    }
  }

  /** The run that revives a session. */
  lemma RevivingRun(spans: Spans) returns (s: State, r: Rid, o: LoggedOut)
    requires !WithinSlack(spans)
    ensures Starts(START) && Reaches(START, s, spans) && Revives(s, r, o, spans)
  {
    var k := Steps(spans.issue);
    ReachPruned(k, spans);
    var p := Pruned(k);
    assert Move(p, 2, Parsed(Good(p, Renewed(k)), PRUNED * SECOND - Pause(k))) == p;
    r, o := 2, LoggedOut(5, STATE, false, OutAt(k));
    s := CheckAccepts(START, p, r, Renewed(k), PRUNED * SECOND - Pause(k), spans);
  }

  /** The minute the entry adds is enough for requests that finish within it. */
  lemma MinuteIsEnough(spans: Spans)
    requires spans.verify + spans.issue <= MINUTE
    ensures WithinSlack(spans)
  {
  }
}
