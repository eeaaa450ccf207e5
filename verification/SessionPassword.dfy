/** Session cookies and the password: a cookie is signed for the password hash its user has. */
module SessionPassword {
  import opened Wrappers
  import opened Session

  lemma {:induction false} RunLast(s: State, es: seq<Event>, spans: Spans)
    requires es != [] && Run(s, es, spans).Some?
    ensures
      var front := Run(s, es[..|es| - 1], spans);
      front.Some? && Next(front.value, es[|es| - 1], spans) == Run(s, es, spans)
    decreases |es|
  {
    hide Next;
    if |es| == 1 {
      assert es[..0] == [] && es[1..] == [];
      assert Run(s, es, spans) == Run(Next(s, es[0], spans).value, [], spans);
    } else {
      var t := Next(s, es[0], spans).value;
      RunLast(t, es[1..], spans);
      assert es[1..][..|es| - 2] == es[..|es| - 1][1..];
      assert es[1..][|es| - 2] == es[|es| - 1];
    }
  }

  /** No rotation waits for the request. */
  predicate NotAsking(s: State, r: Rid) {
    s.rotation.Some? ==> s.rotation.value.asker != Some(r)
  }

  /** A step of the request itself. */
  predicate Mine(e: Event, r: Rid) {
    || (e.Present? && e.r == r)
    || e in {Load(r), FirstCheck(r), Lookup(r), FinalCheck(r), Renew(r), KeepRead(r), KeepIssue(r), Logout(r), Finish(r)}
  }

  /** Other steps leave the request where it is, but for the end of a rotation it waits for. */
  ghost predicate LeavesAlone(s: State, t: State, r: Rid) {
    && (r in t.reqs ==> r in s.reqs && t.reqs[r] == s.reqs[r])
    && (r in s.reqs && !s.reqs[r].Overflowed? && NotAsking(s, r) ==> r in t.reqs)
    && (NotAsking(s, r) && !Overflows(s, r) ==> NotAsking(t, r))
  }

  lemma OthersLeaveAlone(s: State, e: Event, r: Rid, spans: Spans)
    requires !Mine(e, r) && Next(s, e, spans).Some?
    ensures LeavesAlone(s, Next(s, e, spans).value, r)
  {
    hide LeavesAlone;
    if e.Swap? || e.FailRotation? || e.BeginRotation? {
      RotationLeavesAlone(s, e, r, spans);
      hide Next;
    } else if e.Present? || e.Load? || e.FirstCheck? || e.Lookup? || e.FinalCheck? {
      ChecksLeaveAlone(s, e, r, spans);
      hide Next;
    } else {
      SessionsLeaveAlone(s, e, r, spans);
      hide Next;
    }
  }

  lemma ChecksLeaveAlone(s: State, e: Event, r: Rid, spans: Spans)
    requires e.Present? || e.Load? || e.FirstCheck? || e.Lookup? || e.FinalCheck?
    requires !Mine(e, r) && Next(s, e, spans).Some?
    ensures LeavesAlone(s, Next(s, e, spans).value, r)
  {
    assert e.r != r;
    hide Timely, Passes, Late, RevokedOrRotated, Mine;
  }

  lemma SessionsLeaveAlone(s: State, e: Event, r: Rid, spans: Spans)
    requires !(e.Swap? || e.FailRotation? || e.BeginRotation?)
    requires !(e.Present? || e.Load? || e.FirstCheck? || e.Lookup? || e.FinalCheck?)
    requires !Mine(e, r) && Next(s, e, spans).Some?
    ensures LeavesAlone(s, Next(s, e, spans).value, r)
  {
    assert e.Renew? || e.KeepRead? || e.KeepIssue? || e.Logout? || e.Finish? ==> e.r != r;
    hide Listed, Stale, Issue, Mine, SwapStep, FailRotationStep, BeginRotationStep, PresentStep, LoadStep, FirstCheckStep,
      LookupStep, FinalCheckStep;
  }

  lemma RotationLeavesAlone(s: State, e: Event, r: Rid, spans: Spans)
    requires (e.Swap? || e.FailRotation? || e.BeginRotation?) && Next(s, e, spans).Some?
    ensures LeavesAlone(s, Next(s, e, spans).value, r)
  {
  }

  // ----- What the last check has seen -----

  /** Request `r` looks for its user, and finds one with this password hash. */
  predicate FindsUser(s: State, r: Rid, token: Token, hash: Hash) {
    && r in s.reqs && s.reqs[r].Cleared? && s.reqs[r].token == token
    && token.payload.userId in s.users && s.users[token.payload.userId] == hash
  }

  /** The look-up that a request has behind it was the k-th step of the run. */
  ghost predicate LookedUpAt(s: State, es: seq<Event>, k: nat, r: Rid, token: Token, hash: Hash, spans: Spans) {
    && k < |es| && es[k] == Lookup(r) && (forall j | k < j < |es| :: es[j] != Lookup(r))
    && Run(s, es[..k], spans).Some? && FindsUser(Run(s, es[..k], spans).value, r, token, hash)
  }

  predicate LookedWith(s: State, r: Rid, token: Token, hash: Hash) {
    r in s.reqs && s.reqs[r].Looked? && s.reqs[r].token == token && s.reqs[r].hash == hash
  }

  /** Only a look-up makes a request have looked. */
  lemma LooksOnce(s: State, e: Event, r: Rid, token: Token, hash: Hash, spans: Spans)
    requires Next(s, e, spans).Some? && LookedWith(Next(s, e, spans).value, r, token, hash)
    ensures if e == Lookup(r) then FindsUser(s, r, token, hash) else LookedWith(s, r, token, hash)
  {
    hide Timely, Passes, Listed, Stale, Issue, Late, RevokedOrRotated;
    if !Mine(e, r) {
      OthersLeaveAlone(s, e, r, spans);
      hide Next, NotAsking, Overflows;
    }
  }

  lemma {:induction false} LookedUpOnce(s: State, es: seq<Event>, r: Rid, token: Token, hash: Hash, spans: Spans) returns (k: nat)
    requires Starts(s) && Run(s, es, spans).Some? && LookedWith(Run(s, es, spans).value, r, token, hash)
    ensures LookedUpAt(s, es, k, r, token, hash, spans)
    decreases |es|
  {
    if es != [] {
      var front, e := es[..|es| - 1], es[|es| - 1];
      RunLast(s, es, spans);
      LooksOnce(Run(s, front, spans).value, e, r, token, hash, spans);
      hide Next, FindsUser, Starts, LookedWith;
      if e == Lookup(r) {
        k := |es| - 1;
      } else {
        k := LookedUpOnce(s, front, r, token, hash, spans);
        assert es[..k] == front[..k];
      }
    }
  }

  /** Whoever is accepted holds a cookie that is signed with the current state, for the password hash its
      user had when the request looked, and whose session nobody logged out. */
  lemma AcceptedIsSignedForHash(s: State, es: seq<Event>, r: Rid, spans: Spans)
    requires Starts(s) && Run(s, es, spans).Some? && AcceptsNow(Run(s, es, spans).value, r)
    ensures
      var t := Run(s, es, spans).value;
      var token := t.reqs[r].token;
      && token.payload.id !in t.revoked
      && exists k, hash :: LookedUpAt(s, es, k, r, token, hash, spans)
                           && token.tag == Signed(t.signing, token.payload, hash)
  {
    var pc := Run(s, es, spans).value.reqs[r];
    var k := LookedUpOnce(s, es, r, pc.token, pc.hash, spans);
  }

  // ----- After the password was changed -----

  /** The user's password hash is another than this one, and request `r` has not found this one before. */
  predicate Changed(s: State, r: Rid, userId: UserId, hash: Hash) {
    && !(userId in s.users && s.users[userId] == hash)
    && !(r in s.reqs && s.reqs[r].Looked? && s.reqs[r].token.payload.userId == userId && s.reqs[r].hash == hash)
  }

  lemma ChangedStays(s: State, e: Event, r: Rid, userId: UserId, hash: Hash, spans: Spans)
    requires Changed(s, r, userId, hash) && Next(s, e, spans).Some? && e != SetPassword(userId, hash)
    ensures Changed(Next(s, e, spans).value, r, userId, hash)
  {
    UsersStay(s, e, spans);
    var t := Next(s, e, spans).value;
    if r in t.reqs && t.reqs[r].Looked? {
      LooksOnce(s, e, r, t.reqs[r].token, t.reqs[r].hash, spans);
    }
    hide Next;
  }

  lemma UsersStay(s: State, e: Event, spans: Spans)
    requires Next(s, e, spans).Some?
    ensures
      var t := Next(s, e, spans).value;
      match e
      case SetPassword(userId, hash) => t.users == s.users[userId := hash]
      case RemoveUser(userId) => t.users == s.users - {userId}
      case _ => t.users == s.users
  {
    hide Timely, Passes, Listed, Stale, Issue, Late, RevokedOrRotated;
  }

  /** From the moment a user's password hash is not `hash` any more, and until it is set to that again, no
      request that looks the user up is accepted with a cookie signed for it: neither one issued before
      nor one renewed since from a session of that time. */
  lemma {:induction false} PasswordChangeIsFinal(s: State, es: seq<Event>, r: Rid, userId: UserId, hash: Hash, spans: Spans)
    requires Changed(s, r, userId, hash) && Run(s, es, spans).Some? && SetPassword(userId, hash) !in es
    requires AcceptsNow(Run(s, es, spans).value, r)
    ensures
      var token := Run(s, es, spans).value.reqs[r].token;
      token.payload.userId == userId ==> token.tag.Signed? && token.tag.hash != hash
    decreases |es|
  {
    if es != [] {
      ChangedStays(s, es[0], r, userId, hash, spans);
      hide Next, Changed, AcceptsNow;
      PasswordChangeIsFinal(Next(s, es[0], spans).value, es[1..], r, userId, hash, spans);
    }
  }

  /** A renewal is made when less than half of the lifetime is left, and then for the same session: signed with
      the state and for the hash its cookie was verified against, whatever they are by now. Only a session
      that is kept on purpose is signed anew. */
  lemma RenewalIsBound(s: State, r: Rid, spans: Spans)
    requires RenewStep(s, r, spans).Some?
    ensures
      var t, sess := RenewStep(s, r, spans).value, s.reqs[r].session;
      var renewed := Payload(sess.userId, Unix(s.now + Lifetime(sess.remember)), sess.remember, sess.id);
      && t.issued == (if 2 * (sess.exp * SECOND - s.now) < Lifetime(sess.remember)
                      then s.issued + {Signed(sess.signing, renewed, sess.hash)} else s.issued)
      && t.reqs == s.reqs && t.users == s.users && t.signing == s.signing && t.revoked == s.revoked
  {
  }

  /** What an accepted session is signed with and for is what its cookie was. */
  lemma SessionIsAsSigned(s: State, r: Rid, spans: Spans)
    requires AcceptsNow(s, r)
    ensures
      var t, token := Next(s, FinalCheck(r), spans), s.reqs[r].token;
      && t.Some? && r in t.value.reqs && t.value.reqs[r].Accepted?
      && var sess := t.value.reqs[r].session;
         && token.tag == Signed(sess.signing, token.payload, sess.hash)
         && token.payload == Payload(sess.userId, sess.exp, sess.remember, sess.id)
  {
  }

  // ----- A good cookie is accepted -----

  /** The cookie is signed with the current state, for its user's hash, and nobody logged its session out. */
  predicate InForce(s: State, token: Token) {
    && token.payload.userId in s.users
    && token.tag == Signed(s.signing, token.payload, s.users[token.payload.userId])
    && token.payload.id !in s.revoked
  }

  ghost predicate InForceAlong(s: State, es: seq<Event>, token: Token, spans: Spans)
    decreases |es|
  {
    && InForce(s, token)
    && (es != [] && Next(s, es[0], spans).Some? ==> InForceAlong(Next(s, es[0], spans).value, es[1..], token, spans))
  }

  /** The request has got this far with the cookie. */
  predicate OnItsWay(pc: Pc, token: Token) {
    && token.tag.Signed?
    && (Checking(pc) ==> pc.token == token)
    && (Checking(pc) && !pc.Parsed? ==> pc.signing == token.tag.signing)
    && (pc.Looked? ==> pc.hash == token.tag.hash)
    && (!Checking(pc) ==>
          && token.payload == Payload(pc.session.userId, pc.session.exp, pc.session.remember, pc.session.id)
          && pc.session.signing == token.tag.signing && pc.session.hash == token.tag.hash)
  }

  predicate Leaves(e: Event, r: Rid) {
    e == Finish(r) || e == Logout(r)
  }

  lemma GoesOn(s: State, e: Event, r: Rid, token: Token, spans: Spans)
    requires InForce(s, token) && Next(s, e, spans).Some? && InForce(Next(s, e, spans).value, token)
    requires r in s.reqs && OnItsWay(s.reqs[r], token) && !s.reqs[r].Overflowed? && !Leaves(e, r) && NotAsking(s, r)
    ensures
      var t := Next(s, e, spans).value;
      && NotAsking(t, r)
      && r in t.reqs && OnItsWay(t.reqs[r], token) && !t.reqs[r].Overflowed?
      && (e == FinalCheck(r) ==> t.reqs[r].Accepted?)
      && (!Checking(s.reqs[r]) ==> !Checking(t.reqs[r]))
  {
    if Mine(e, r) {
      hide Timely, Listed, Stale, Issue, Late;
      if Checking(s.reqs[r]) {
        ChecksGoOn(s, e, r, token, spans);
        hide Next, OnItsWay;
      }
    } else {
      OthersLeaveAlone(s, e, r, spans);
      hide Next, OnItsWay, InForce, NotAsking;
    }
  }

  lemma ChecksGoOn(s: State, e: Event, r: Rid, token: Token, spans: Spans)
    requires InForce(s, token) && Next(s, e, spans).Some?
    requires r in s.reqs && OnItsWay(s.reqs[r], token) && Checking(s.reqs[r]) && Mine(e, r)
    ensures
      var t := Next(s, e, spans).value;
      && t.rotation == s.rotation
      && r in t.reqs && OnItsWay(t.reqs[r], token) && !t.reqs[r].Overflowed?
      && (e == FinalCheck(r) ==> t.reqs[r].Accepted?)
  {
    hide Timely, Listed, Stale, Issue, Late;
  }

  /** A login with the user's hash, and a session that is kept, get a cookie that is in force. */
  lemma LoginIsInForce(s: State, userId: UserId, remember: bool, id: Id, reading: int)
    requires userId in s.users && id !in s.revoked && LoginStep(s, userId, s.users[userId], remember, id, reading).Some?
    ensures
      var t := LoginStep(s, userId, s.users[userId], remember, id, reading).value;
      var p := Payload(userId, Unix(reading + Lifetime(remember)), remember, id);
      var token := Token(p, Signed(s.signing, p, s.users[userId]));
      InForce(t, token) && t.issued == s.issued + {token.tag} && t.owners == s.owners[id := Owner(userId, remember)]
  {
  }

  lemma KeptIsInForce(s: State, r: Rid)
    requires KeepIssueStep(s, r).Some? && s.reqs[r].session.id !in s.revoked
    requires s.reqs[r].session.userId in s.users && s.users[s.reqs[r].session.userId] == s.reqs[r].hash
    ensures
      var t, sess := KeepIssueStep(s, r).value, s.reqs[r].session;
      var p := Payload(sess.userId, Unix(s.reqs[r].reading + Lifetime(sess.remember)), sess.remember, sess.id);
      var token := Token(p, Signed(s.signing, p, s.reqs[r].hash));
      InForce(t, token) && t.issued == s.issued + {token.tag}
  {
  }

  /** Whatever other requests do meanwhile, a request whose cookie stays in force is never turned away, and
      is accepted once it has made its last check. */
  lemma {:induction false} GoodCookieIsAccepted(s: State, es: seq<Event>, r: Rid, token: Token, spans: Spans)
    requires Run(s, es, spans).Some? && InForceAlong(s, es, token, spans) && (forall e <- es :: !Leaves(e, r))
    requires r in s.reqs && OnItsWay(s.reqs[r], token) && !s.reqs[r].Overflowed? && NotAsking(s, r)
    ensures
      var t := Run(s, es, spans).value;
      && r in t.reqs && OnItsWay(t.reqs[r], token) && !t.reqs[r].Overflowed?
      && (FinalCheck(r) in es || !Checking(s.reqs[r]) ==> !Checking(t.reqs[r]))
    decreases |es|
  {
    if es != [] {
      var t := Next(s, es[0], spans).value;
      GoesOn(s, es[0], r, token, spans);
      hide Next, InForce, OnItsWay, Leaves, Checking, NotAsking;
      GoodCookieIsAccepted(t, es[1..], r, token, spans);
    }
  }

  /** Undisturbed, a cookie the server issued is accepted if it is in force and has not expired, and is not for
      longer than its lifetime; and one that has expired is turned away at once. */
  lemma GoodCookieGetsThrough(s: State, r: Rid, token: Token, spans: Spans)
    requires InForce(s, token) && token.tag in s.issued && r !in s.reqs
    ensures
      var life := token.payload.exp * SECOND - s.now;
      if 0 < life <= Lifetime(token.payload.remember) + MINUTE then
        var t := Run(s, [Present(r, token), Load(r), FirstCheck(r), Lookup(r), FinalCheck(r)], spans);
        t.Some? && r in t.value.reqs && t.value.reqs[r].Accepted?
      else Next(s, Present(r, token), spans) == Some(s)
  {
    if Timely(token.payload, s.now) {
      var p := Move(s, r, Parsed(token, s.now));
      GetsLookedUp(p, r, token, s.now, spans);
      assert Next(s, Present(r, token), spans) == Some(p);
      hide Next, Timely, InForce;
      RunFirst(s, Present(r, token), [Load(r), FirstCheck(r), Lookup(r), FinalCheck(r)], spans);
      assert [Present(r, token)] + [Load(r), FirstCheck(r), Lookup(r), FinalCheck(r)]
          == [Present(r, token), Load(r), FirstCheck(r), Lookup(r), FinalCheck(r)];
    }
  }

  lemma RunFirst(s: State, e: Event, es: seq<Event>, spans: Spans)
    requires Next(s, e, spans).Some?
    ensures Run(s, [e] + es, spans) == Run(Next(s, e, spans).value, es, spans)
  {
    hide Next;
    assert ([e] + es)[1..] == es;
  }

  lemma GetsLookedUp(s: State, r: Rid, token: Token, at: int, spans: Spans)
    requires InForce(s, token) && r in s.reqs && s.reqs[r] == Parsed(token, at)
    ensures
      var t := Run(s, [Load(r), FirstCheck(r), Lookup(r), FinalCheck(r)], spans);
      t.Some? && r in t.value.reqs && t.value.reqs[r].Accepted?
  {
    var l := Move(s, r, Loaded(token, at, s.signing));
    var c := Move(l, r, Cleared(token, at, s.signing));
    assert Next(s, Load(r), spans) == Some(l) && Next(l, FirstCheck(r), spans) == Some(c);
    GetsAccepted(c, r, token, at, spans);
    hide Next, InForce;
    RunFirst(l, FirstCheck(r), [Lookup(r), FinalCheck(r)], spans);
    RunFirst(s, Load(r), [FirstCheck(r), Lookup(r), FinalCheck(r)], spans);
  }

  lemma GetsAccepted(s: State, r: Rid, token: Token, at: int, spans: Spans)
    requires InForce(s, token) && r in s.reqs && s.reqs[r] == Cleared(token, at, s.signing)
    ensures
      var t := Run(s, [Lookup(r), FinalCheck(r)], spans);
      t.Some? && r in t.value.reqs && t.value.reqs[r].Accepted?
  {
    var k := Move(s, r, Looked(token, at, s.signing, s.users[token.payload.userId]));
    assert Next(s, Lookup(r), spans) == Some(k);
    var t := Next(k, FinalCheck(r), spans);
    assert t.Some? && r in t.value.reqs && t.value.reqs[r].Accepted?;
    hide Next, InForce;
    RunFirst(k, FinalCheck(r), [], spans);
    RunFirst(s, Lookup(r), [FinalCheck(r)], spans);
    assert [FinalCheck(r)] + [] == [FinalCheck(r)];
  }

  // ----- Rotations -----

  /** A rotation asked for by an administrator replaces the signing state by one of the next generation and
      empties the list; if no key could be saved it leaves everything as it was. */
  lemma RotationRotates(s: State, key: nat, spans: Spans)
    requires s.rotation.None?
    ensures
      var b := Next(s, BeginRotation(None, key), spans);
      && b.Some?
      && Next(b.value, Swap, spans) == Some(s.(signing := Signing(key, s.signing.generation + 1), revoked := map[]))
      && Next(b.value, FailRotation, spans) == Some(s)
      && Next(b.value, BeginRotation(None, key), spans) == None
  {
  }

}
