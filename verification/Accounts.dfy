/**
 Member accounts, their emailed links and their linked identities
 (packages/db/repos/users.py, packages/db/repos/email_tokens.py,
 apps/api/routers/auth.py, apps/api/routers/internal_auth.py), each
 transaction as one atomic change. Addresses are already trimmed and in lower
 case, passwords already hashed.
 */
module Accounts {
  import opened Wrappers

  /** Microseconds. */
  type Time = int
  type Hash = nat

  datatype Purpose = VerifyEmail | ResetPassword

  function Lifetime(purpose: Purpose): nat {
    match purpose
    case VerifyEmail => 86_400_000_000
    case ResetPassword => 3_600_000_000
  }

  /** `cutoff` is sessions_valid_after; `writes`, kept for the proofs, counts the writes of the password. */
  datatype User = User(email: string, name: Option<string>, password: Option<string>, verified: bool, cutoff: Time,
                       writes: nat)

  /** `writes`, kept for the proofs, is its user's count when the link was issued. */
  datatype Token = Token(user: nat, purpose: Purpose, expires: Time, used: bool, writes: nat)

  datatype Identity = Identity(provider: string, account: string)

  datatype Db = Db(users: seq<User>, tokens: map<Hash, Token>, identities: map<Identity, nat>)

  /** The one email a request sends, or its refusal. */
  datatype Reply = Link(hash: Hash) | AccountExists | Quiet | InvalidToken | EmailUnverified | Welcome(user: nat)

  function FindEmail(users: seq<User>, email: string): (found: Option<nat>)
    ensures found.Some? ==> found.value < |users| && users[found.value].email == email
    ensures found.None? ==> forall i :: 0 <= i < |users| ==> users[i].email != email
  {
    if users == [] then None
    else if users[|users| - 1].email == email then Some(|users| - 1)
    else FindEmail(users[..|users| - 1], email)
  }

  predicate Live(token: Token, user: nat, purpose: Purpose) {
    token.user == user && token.purpose == purpose && !token.used
  }

  /** One statement that voids every unused token of a purpose. */
  function VoidUnused(tokens: map<Hash, Token>, user: nat, purpose: Purpose): map<Hash, Token> {
    map h | h in tokens :: if Live(tokens[h], user, purpose) then tokens[h].(used := true) else tokens[h]
  }

  predicate Valid(tokens: map<Hash, Token>, hash: Hash, purpose: Purpose, now: Time) {
    hash in tokens && tokens[hash].purpose == purpose && !tokens[hash].used && now < tokens[hash].expires
  }

  predicate Spends(db: Db, hash: Hash, purpose: Purpose, now: Time) {
    Valid(db.tokens, hash, purpose, now) && db.tokens[hash].user < |db.users|
  }

  function Named(before: Option<string>, name: Option<string>): Option<string> {
    if name.Some? && name.value != "" then name else before
  }

  /** `_issue_link`: a fresh unused token for the user as it now stands. */
  function IssueLink(db: Db, user: nat, purpose: Purpose, hash: Hash, now: Time): Db
    requires user < |db.users|
  {
    db.(tokens := db.tokens[hash := Token(user, purpose, now + Lifetime(purpose), false, db.users[user].writes)])
  }

  function ReplacedPending(u: User, password: string, name: Option<string>, now: Time): User {
    if u.verified then u
    else u.(password := Some(password), cutoff := now, name := Named(u.name, name), writes := u.writes + 1)
  }

  function MarkedVerified(u: User): User {
    if u.verified then u else u.(verified := true)
  }

  function WithReset(u: User, password: string, now: Time): User {
    u.(password := Some(password), cutoff := now, verified := true, writes := u.writes + 1)
  }

  function ClaimedByProvider(u: User, name: Option<string>, now: Time): User {
    var v := if u.verified then u
             else if u.password.Some? then u.(password := None, cutoff := now, verified := true, writes := u.writes + 1)
             else u.(verified := true);
    if v.name.None? && name.Some? && name.value != "" then v.(name := name) else v
  }

  function Signup(db: Db, email: string, password: string, name: Option<string>, hash: Hash, now: Time): (Db, Reply) {
    var found := FindEmail(db.users, email);
    if found.None? then
      var created := db.(users := db.users + [User(email, name, Some(password), false, now, 1)]);
      (IssueLink(created, |db.users|, VerifyEmail, hash, now), Link(hash))
    else if db.users[found.value].verified then (db, AccountExists)
    else
      var i := found.value;
      var replaced := db.(tokens := VoidUnused(db.tokens, i, VerifyEmail),
                          users := db.users[i := ReplacedPending(db.users[i], password, name, now)]);
      (IssueLink(replaced, i, VerifyEmail, hash, now), Link(hash))
  }

  function Resend(db: Db, email: string, hash: Hash, now: Time): (Db, Reply) {
    var found := FindEmail(db.users, email);
    if found.None? || (!db.users[found.value].verified && db.users[found.value].password.None?) then (db, Quiet)
    else if db.users[found.value].verified then (db, AccountExists)
    else
      (IssueLink(db.(tokens := VoidUnused(db.tokens, found.value, VerifyEmail)), found.value, VerifyEmail, hash, now),
       Link(hash))
  }

  function Verify(db: Db, hash: Hash, now: Time): (Db, Reply) {
    if !Spends(db, hash, VerifyEmail, now) then (db, InvalidToken)
    else
      var t := db.tokens[hash];
      (db.(tokens := VoidUnused(db.tokens, t.user, VerifyEmail),
       users := db.users[t.user := MarkedVerified(db.users[t.user])]), Welcome(t.user))
  }

  function RequestReset(db: Db, email: string, hash: Hash, now: Time): (Db, Reply) {
    var found := FindEmail(db.users, email);
    if found.None? then (db, Quiet)
    else
      (IssueLink(db.(tokens := VoidUnused(db.tokens, found.value, ResetPassword)), found.value, ResetPassword, hash,
                 now), Link(hash))
  }

  function Reset(db: Db, hash: Hash, password: string, now: Time): (Db, Reply) {
    if !Spends(db, hash, ResetPassword, now) then (db, InvalidToken)
    else
      var t := db.tokens[hash];
      (db.(tokens := VoidUnused(db.tokens, t.user, ResetPassword),
       users := db.users[t.user := WithReset(db.users[t.user], password, now)]), Welcome(t.user))
  }

  function OAuthUpsert(db: Db, who: Identity, email: string, emailVerified: bool, name: Option<string>, now: Time)
    : (Db, Reply)
  {
    if who in db.identities then (db, Welcome(db.identities[who]))
    else if !emailVerified then (db, EmailUnverified)
    else
      var found := FindEmail(db.users, email);
      if found.None? then
        (db.(users := db.users + [User(email, name, None, true, now, 0)],
         identities := db.identities[who := |db.users|]), Welcome(|db.users|))
      else
        (db.(users := db.users[found.value := ClaimedByProvider(db.users[found.value], name, now)],
         identities := db.identities[who := found.value]), Welcome(found.value))
  }

  predicate Dead(t: Token, now: Time) {
    t.used || t.expires <= now
  }

  /** The sweep: some of the rows that can no longer be spent. */
  function DeleteDead(db: Db, some: set<Hash>, now: Time): Db {
    db.(tokens := map h | h in db.tokens && !(h in some && Dead(db.tokens[h], now)) :: db.tokens[h])
  }

  // ------------------------------------------------------------------ runs

  datatype Step =
    | DoSignup(now: Time, email: string, password: string, name: Option<string>, hash: Hash)
    | DoResend(now: Time, email: string, hash: Hash)
    | DoVerify(now: Time, hash: Hash)
    | DoRequestReset(now: Time, email: string, hash: Hash)
    | DoReset(now: Time, hash: Hash, password: string)
    | DoOAuth(now: Time, who: Identity, email: string, emailVerified: bool, name: Option<string>)
    | DoSweep(now: Time, some: set<Hash>)

  /** `issued` are the random tokens drawn so far, which never repeat; `spent` those a request was let in by. */
  datatype World = World(db: Db, clock: Time, issued: set<Hash>, spent: seq<Hash>)

  function Start(now: Time): World {
    World(Db([], map[], map[]), now, {}, [])
  }

  predicate Draws(s: Step) {
    s.DoSignup? || s.DoResend? || s.DoRequestReset?
  }

  function Do(db: Db, s: Step): (Db, Reply) {
    match s
    case DoSignup(now, email, password, name, hash) => Signup(db, email, password, name, hash, now)
    case DoResend(now, email, hash) => Resend(db, email, hash, now)
    case DoVerify(now, hash) => Verify(db, hash, now)
    case DoRequestReset(now, email, hash) => RequestReset(db, email, hash, now)
    case DoReset(now, hash, password) => Reset(db, hash, password, now)
    case DoOAuth(now, who, email, emailVerified, name) => OAuthUpsert(db, who, email, emailVerified, name, now)
    case DoSweep(now, some) => (DeleteDead(db, some, now), Quiet)
  }

  predicate Enters(s: Step, reply: Reply) {
    (s.DoVerify? || s.DoReset?) && reply.Welcome?
  }

  function Next(w: World, s: Step): World {
    if s.now < w.clock || (Draws(s) && s.hash in w.issued) then w
    else
      var done := Do(w.db, s);
      World(done.0, s.now, if Draws(s) then w.issued + {s.hash} else w.issued,
            if Enters(s, done.1) then w.spent + [s.hash] else w.spent)
  }

  function Exec(w: World, steps: seq<Step>): World {
    if steps == [] then w else Next(Exec(w, steps[..|steps| - 1]), steps[|steps| - 1])
  }

  // ------------------------------------------------------------------ the invariant

  ghost predicate OneAddressEach(users: seq<User>) {
    forall i, j :: 0 <= i < j < |users| ==> users[i].email != users[j].email
  }

  /** At most one unused token for each user and purpose. */
  ghost predicate OneLiveLink(tokens: map<Hash, Token>) {
    forall g, h :: (g in tokens && h in tokens && !tokens[g].used
                    && Live(tokens[h], tokens[g].user, tokens[g].purpose)) ==> g == h
  }

  /** A link that can still verify an address was issued after the last write of the password pending there. */
  predicate Vouches(t: Token, users: seq<User>) {
    t.user < |users| && (!t.used && t.purpose.VerifyEmail? && !users[t.user].verified ==>
                           t.writes == users[t.user].writes)
  }

  ghost predicate LinksVouch(db: Db) {
    forall h :: h in db.tokens ==> Vouches(db.tokens[h], db.users)
  }

  ghost predicate SpentOnce(w: World) {
    && (forall i, j :: 0 <= i < j < |w.spent| ==> w.spent[i] != w.spent[j])
    && (forall i :: 0 <= i < |w.spent| ==> w.spent[i] in w.issued)
    && (forall i :: 0 <= i < |w.spent| && w.spent[i] in w.db.tokens ==> w.db.tokens[w.spent[i]].used)
    && (forall h :: h in w.db.tokens ==> h in w.issued)
  }

  ghost predicate Inv(w: World) {
    && OneAddressEach(w.db.users)
    && OneLiveLink(w.db.tokens)
    && LinksVouch(w.db)
    && (forall i :: 0 <= i < |w.db.users| ==> w.db.users[i].cutoff <= w.clock)
    && SpentOnce(w)
    && (forall who :: who in w.db.identities ==> w.db.identities[who] < |w.db.users|)
  }

  lemma AddressesStep(w: World, s: Step)
    requires OneAddressEach(w.db.users)
    ensures OneAddressEach(Do(w.db, s).0.users)
  {
  }

  lemma IssueKeepsOneLink(tokens: map<Hash, Token>, hash: Hash, t: Token)
    requires OneLiveLink(tokens)
    ensures OneLiveLink(VoidUnused(tokens, t.user, t.purpose)[hash := t])
  {
  }

  lemma LinksStep(w: World, s: Step)
    requires Inv(w) && (Draws(s) ==> s.hash !in w.issued)
    ensures OneLiveLink(Do(w.db, s).0.tokens)
  {
    if Draws(s) {
      var found := FindEmail(w.db.users, s.email);
      var after := Do(w.db, s).0.tokens;
      if found.Some? {
        if s.hash in after { IssueKeepsOneLink(w.db.tokens, s.hash, after[s.hash]); }
      } else if s.DoSignup? {
        forall h | h in w.db.tokens
          ensures w.db.tokens[h].user < |w.db.users|
        {
          assert Vouches(w.db.tokens[h], w.db.users);
        }
        assert VoidUnused(w.db.tokens, |w.db.users|, VerifyEmail) == w.db.tokens;
        IssueKeepsOneLink(w.db.tokens, s.hash, after[s.hash]);
      }
    }
  }

  lemma SignupVouches(w: World, s: Step)
    requires Inv(w) && s.DoSignup? && s.hash !in w.issued
    ensures LinksVouch(Do(w.db, s).0)
  {
    var db := Do(w.db, s).0;
    forall h | h in db.tokens
      ensures Vouches(db.tokens[h], db.users)
    {
      if h in w.db.tokens { assert Vouches(w.db.tokens[h], w.db.users); }
    }
  }

  lemma NewLinkVouches(w: World, s: Step)
    requires Inv(w) && (s.DoResend? || s.DoRequestReset?) && s.hash !in w.issued
    ensures LinksVouch(Do(w.db, s).0)
  {
    var db := Do(w.db, s).0;
    forall h | h in db.tokens
      ensures Vouches(db.tokens[h], db.users)
    {
      if h in w.db.tokens { assert Vouches(w.db.tokens[h], w.db.users); }
    }
  }

  lemma OldLinksVouch(w: World, s: Step)
    requires Inv(w) && !Draws(s)
    ensures LinksVouch(Do(w.db, s).0)
  {
    var db := Do(w.db, s).0;
    forall h | h in db.tokens
      ensures Vouches(db.tokens[h], db.users)
    {
      assert Vouches(w.db.tokens[h], w.db.users);
    }
  }

  lemma VouchStep(w: World, s: Step)
    requires Inv(w) && (Draws(s) ==> s.hash !in w.issued)
    ensures LinksVouch(Do(w.db, s).0)
  {
    if s.DoSignup? { SignupVouches(w, s); } else if Draws(s) { NewLinkVouches(w, s); } else { OldLinksVouch(w, s); }
  }

  lemma CutoffStep(w: World, s: Step)
    requires Inv(w) && w.clock <= s.now
    ensures forall i :: 0 <= i < |Do(w.db, s).0.users| ==> Do(w.db, s).0.users[i].cutoff <= s.now
  {
  }

  lemma DrawnStaysUnspent(w: World, s: Step)
    requires Inv(w) && Draws(s) && s.hash !in w.issued && w.clock <= s.now
    ensures SpentOnce(Next(w, s))
  {
  }

  lemma SpentStep(w: World, s: Step)
    requires Inv(w) && (Draws(s) ==> s.hash !in w.issued) && w.clock <= s.now
    ensures SpentOnce(Next(w, s))
  {
    if Draws(s) { DrawnStaysUnspent(w, s); }
  }

  lemma InvStep(w: World, s: Step)
    requires Inv(w)
    ensures Inv(Next(w, s))
  {
    if w.clock <= s.now && !(Draws(s) && s.hash in w.issued) {
      AddressesStep(w, s);
      LinksStep(w, s);
      VouchStep(w, s);
      CutoffStep(w, s);
      SpentStep(w, s);
    }
  }

  lemma {:induction false} EveryRunKeepsInv(start: Time, steps: seq<Step>)
    ensures Inv(Exec(Start(start), steps))
  {
    if steps != [] {
      EveryRunKeepsInv(start, steps[..|steps| - 1]);
      InvStep(Exec(Start(start), steps[..|steps| - 1]), steps[|steps| - 1]);
    }
  }

  /** At most one link of a purpose can be spent for a user. */
  lemma OneSpendableLink(start: Time, steps: seq<Step>, g: Hash, h: Hash)
    requires var db := Exec(Start(start), steps).db;
             && g in db.tokens && h in db.tokens && !db.tokens[g].used && !db.tokens[h].used
             && db.tokens[g].user == db.tokens[h].user && db.tokens[g].purpose == db.tokens[h].purpose
    ensures g == h
  {
    EveryRunKeepsInv(start, steps);
    var tokens := Exec(Start(start), steps).db.tokens;
    assert Live(tokens[h], tokens[g].user, tokens[g].purpose);
  }

  /** No link lets two requests in, and one that has let a request in can never do so again. */
  lemma SpentAtMostOnce(start: Time, steps: seq<Step>, now: Time, purpose: Purpose)
    ensures var w := Exec(Start(start), steps);
            && (forall i, j :: 0 <= i < j < |w.spent| ==> w.spent[i] != w.spent[j])
            && (forall i :: 0 <= i < |w.spent| ==> !Valid(w.db.tokens, w.spent[i], purpose, now))
  {
    EveryRunKeepsInv(start, steps);
  }

  /** A link that can still verify an address was issued after the last write of the password pending there. */
  lemma VerifyLinksAreCurrent(start: Time, steps: seq<Step>, h: Hash)
    requires var db := Exec(Start(start), steps).db;
             && h in db.tokens && !db.tokens[h].used && db.tokens[h].purpose.VerifyEmail?
    ensures var db := Exec(Start(start), steps).db;
            && db.tokens[h].user < |db.users|
            && (!db.users[db.tokens[h].user].verified ==> db.tokens[h].writes == db.users[db.tokens[h].user].writes)
  {
    EveryRunKeepsInv(start, steps);
    assert Vouches(Exec(Start(start), steps).db.tokens[h], Exec(Start(start), steps).db.users);
  }

  /**
   Step `s` proves password `p` for user `i`: the inbox's link sets it, or
   verifies the address while it is the pending one, and was issued after it
   was last written.
   */
  predicate Proves(w: World, s: Step, i: nat, p: string) {
    && w.clock <= s.now
    && match s
       case DoReset(now, hash, password) =>
         Spends(w.db, hash, ResetPassword, now) && w.db.tokens[hash].user == i && password == p
       case DoVerify(now, hash) =>
         && Spends(w.db, hash, VerifyEmail, now) && w.db.tokens[hash].user == i
         && w.db.users[i].password == Some(p) && w.db.tokens[hash].writes == w.db.users[i].writes
       case _ => false
  }

  /** Only a proving step gives a verified account a password. */
  lemma VerifiedWithPassword(w: World, s: Step, i: nat)
    requires Inv(w) && i < |Next(w, s).db.users|
    requires var u := Next(w, s).db.users[i]; u.verified && u.password.Some?
    ensures var u := Next(w, s).db.users[i];
            || (i < |w.db.users| && w.db.users[i].verified && w.db.users[i].password == u.password)
            || Proves(w, s, i, u.password.value)
  {
    if s.DoVerify? && Spends(w.db, s.hash, VerifyEmail, s.now) {
      assert Vouches(w.db.tokens[s.hash], w.db.users);
    }
  }

  ghost predicate ProvenIn(start: Time, steps: seq<Step>, i: nat, p: string) {
    exists k :: 0 <= k < |steps| && Proves(Exec(Start(start), steps[..k]), steps[k], i, p)
  }

  lemma ProvenLater(start: Time, steps: seq<Step>, i: nat, p: string)
    requires steps != [] && ProvenIn(start, steps[..|steps| - 1], i, p)
    ensures ProvenIn(start, steps, i, p)
  {
    var front := steps[..|steps| - 1];
    var k :| 0 <= k < |front| && Proves(Exec(Start(start), front[..k]), front[k], i, p);
    assert front[..k] == steps[..k] && front[k] == steps[k];
  }

  /** Every password of a verified account was proven by its inbox at some step of the run. */
  lemma {:induction false} NoUnprovenPassword(start: Time, steps: seq<Step>, i: nat)
    requires i < |Exec(Start(start), steps).db.users|
    requires var u := Exec(Start(start), steps).db.users[i]; u.verified && u.password.Some?
    ensures ProvenIn(start, steps, i, Exec(Start(start), steps).db.users[i].password.value)
  {
    if steps != [] {
      var n := |steps| - 1;
      var w, p := Exec(Start(start), steps[..n]), Exec(Start(start), steps).db.users[i].password.value;
      EveryRunKeepsInv(start, steps[..n]);
      VerifiedWithPassword(w, steps[n], i);
      if i < |w.db.users| && w.db.users[i].verified && w.db.users[i].password == Some(p) {
        NoUnprovenPassword(start, steps[..n], i);
        ProvenLater(start, steps, i, p);
      }
    }
  }

  // ------------------------------------------------------------------ what a link is good for

  /** A sign-up's link verifies the password signed up with, for a day and once. */
  lemma SignupThenVerify(
    db: Db, email: string, password: string, name: Option<string>, hash: Hash, now: Time, later: Time)
    requires Signup(db, email, password, name, hash, now).1 == Link(hash)
    ensures var signed := Signup(db, email, password, name, hash, now).0;
            var (after, reply) := Verify(signed, hash, later);
            && (reply.Welcome? <==> later < now + Lifetime(VerifyEmail))
            && (reply.Welcome? ==>
                  && reply.user < |after.users| && after.users[reply.user].email == email
                  && after.users[reply.user].verified && after.users[reply.user].password == Some(password)
                  && Verify(after, hash, later) == (after, InvalidToken))
            && (!reply.Welcome? ==> after == signed)
  {
    var signed := Signup(db, email, password, name, hash, now).0;
    assert Valid(signed.tokens, hash, VerifyEmail, later) <==> later < now + Lifetime(VerifyEmail);
  }

  /** A reset link sets the new password, proves the address and cuts off older sessions, for an hour and once. */
  lemma RequestThenReset(db: Db, email: string, hash: Hash, now: Time, password: string, later: Time)
    requires RequestReset(db, email, hash, now).1 == Link(hash)
    ensures var asked := RequestReset(db, email, hash, now).0;
            var (after, reply) := Reset(asked, hash, password, later);
            && (reply.Welcome? <==> later < now + Lifetime(ResetPassword))
            && (reply.Welcome? ==>
                  && reply.user < |after.users| && after.users[reply.user].email == email
                  && after.users[reply.user].verified && after.users[reply.user].password == Some(password)
                  && after.users[reply.user].cutoff == later
                  && Reset(after, hash, password, later) == (after, InvalidToken))
            && (!reply.Welcome? ==> after == asked)
  {
    var asked := RequestReset(db, email, hash, now).0;
    assert Valid(asked.tokens, hash, ResetPassword, later) <==> later < now + Lifetime(ResetPassword);
  }

  // ------------------------------------------------------------------ what later steps cannot undo

  /** How one user may have changed since. */
  predicate Descends(u: User, v: User) {
    && v.email == u.email
    && (u.verified ==> v.verified)
    && u.cutoff <= v.cutoff && u.writes <= v.writes
  }

  ghost predicate Later(a: World, b: World) {
    && a.clock <= b.clock
    && |a.db.users| <= |b.db.users|
    && (forall i :: 0 <= i < |a.db.users| ==> Descends(a.db.users[i], b.db.users[i]))
    && (forall who :: who in a.db.identities ==>
          who in b.db.identities && b.db.identities[who] == a.db.identities[who])
  }

  /** What one transaction at `now` may do to a user. */
  predicate Moves(u: User, v: User, now: Time) {
    && v.email == u.email && (u.verified ==> v.verified)
    && if v.writes == u.writes then v.password == u.password && v.cutoff == u.cutoff
       else v.writes == u.writes + 1 && v.cutoff == now
  }

  lemma SignupMoves(db: Db, s: Step, i: nat)
    requires s.DoSignup? && i < |db.users|
    ensures i < |Do(db, s).0.users| && Moves(db.users[i], Do(db, s).0.users[i], s.now)
  {
  }

  lemma OAuthMoves(db: Db, s: Step, i: nat)
    requires s.DoOAuth? && i < |db.users|
    ensures i < |Do(db, s).0.users| && Moves(db.users[i], Do(db, s).0.users[i], s.now)
  {
  }

  lemma SpendingMoves(db: Db, s: Step, i: nat)
    requires (s.DoVerify? || s.DoReset?) && i < |db.users|
    ensures i < |Do(db, s).0.users| && Moves(db.users[i], Do(db, s).0.users[i], s.now)
  {
  }

  lemma NothingMoves(db: Db, s: Step)
    requires s.DoResend? || s.DoRequestReset? || s.DoSweep?
    ensures Do(db, s).0.users == db.users
  {
  }

  lemma UserMoves(w: World, s: Step, i: nat)
    requires i < |w.db.users|
    ensures i < |Next(w, s).db.users|
    ensures Next(w, s) == w || (w.clock <= s.now && Moves(w.db.users[i], Next(w, s).db.users[i], s.now))
  {
    if s.DoSignup? {
      SignupMoves(w.db, s, i);
    } else if s.DoOAuth? {
      OAuthMoves(w.db, s, i);
    } else if s.DoVerify? || s.DoReset? {
      SpendingMoves(w.db, s, i);
    } else {
      NothingMoves(w.db, s);
    }
  }

  lemma UserStep(w: World, s: Step, i: nat)
    requires Inv(w) && i < |w.db.users|
    ensures i < |Next(w, s).db.users| && Descends(w.db.users[i], Next(w, s).db.users[i])
  {
    UserMoves(w, s, i);
  }

  lemma IdentityStep(w: World, s: Step)
    ensures w.clock <= Next(w, s).clock && |w.db.users| <= |Next(w, s).db.users|
    ensures forall who :: who in w.db.identities ==>
              who in Next(w, s).db.identities && Next(w, s).db.identities[who] == w.db.identities[who]
  {
  }

  lemma LaterStep(a: World, w: World, s: Step)
    requires Later(a, w) && Inv(w)
    ensures Later(a, Next(w, s))
  {
    var w' := Next(w, s);
    IdentityStep(w, s);
    forall i | 0 <= i < |a.db.users|
      ensures Descends(a.db.users[i], w'.db.users[i])
    {
      assert Descends(a.db.users[i], w.db.users[i]);
      UserStep(w, s, i);
    }
  }

  lemma {:induction false} RunsGoForward(a: World, steps: seq<Step>)
    requires Inv(a)
    ensures Inv(Exec(a, steps)) && Later(a, Exec(a, steps))
  {
    if steps != [] {
      RunsGoForward(a, steps[..|steps| - 1]);
      InvStep(Exec(a, steps[..|steps| - 1]), steps[|steps| - 1]);
      LaterStep(a, Exec(a, steps[..|steps| - 1]), steps[|steps| - 1]);
    }
  }

  predicate WritesTo(w: World, s: Step, i: nat) {
    i < |w.db.users| && i < |Next(w, s).db.users| && Next(w, s).db.users[i].writes != w.db.users[i].writes
  }

  /** A step that writes a user's password stamps the cutoff with its own time; any other leaves both. */
  lemma WritesCutOff(w: World, s: Step, i: nat)
    requires i < |w.db.users|
    ensures i < |Next(w, s).db.users|
    ensures var u, v := w.db.users[i], Next(w, s).db.users[i];
            if WritesTo(w, s, i) then v.writes == u.writes + 1 && v.cutoff == s.now && w.clock <= s.now
            else v.password == u.password && v.cutoff == u.cutoff
  {
    UserMoves(w, s, i);
  }

  /** Step `k` of the run from `a` is the last to write the password of `i`. */
  ghost predicate LastWrite(a: World, steps: seq<Step>, k: nat, i: nat) {
    && k < |steps| && WritesTo(Exec(a, steps[..k]), steps[k], i)
    && i < |Exec(a, steps).db.users|
    && Exec(a, steps).db.users[i].writes == Next(Exec(a, steps[..k]), steps[k]).db.users[i].writes
  }

  /** How the run from `a` to `b` accounts for a user's cutoff; `k` is the last write, if any. */
  ghost predicate Follows(a: World, steps: seq<Step>, k: nat, i: nat) {
    && i < |a.db.users| && i < |Exec(a, steps).db.users|
    && var u, v := a.db.users[i], Exec(a, steps).db.users[i];
       if v.writes == u.writes then v.password == u.password && v.cutoff == u.cutoff
       else u.writes < v.writes && LastWrite(a, steps, k, i) && v.cutoff == steps[k].now && a.clock <= v.cutoff
  }

  lemma LastWriteStays(a: World, steps: seq<Step>, k: nat, i: nat)
    requires steps != [] && LastWrite(a, steps[..|steps| - 1], k, i)
    requires !WritesTo(Exec(a, steps[..|steps| - 1]), steps[|steps| - 1], i)
    ensures LastWrite(a, steps, k, i) && steps[k] == steps[..|steps| - 1][k]
  {
    assert steps[..|steps| - 1][..k] == steps[..k];
    WritesCutOff(Exec(a, steps[..|steps| - 1]), steps[|steps| - 1], i);
  }

  lemma {:induction false} CutoffFollowsWrites(a: World, steps: seq<Step>, i: nat) returns (k: nat)
    requires Inv(a) && i < |a.db.users|
    ensures Follows(a, steps, k, i)
  {
    k := 0;
    if steps != [] {
      var front, s := steps[..|steps| - 1], steps[|steps| - 1];
      k := CutoffFollowsWrites(a, front, i);
      RunsGoForward(a, front);
      k := FollowsOn(a, steps, k, i);
    }
  }

  lemma FollowsOn(a: World, steps: seq<Step>, before: nat, i: nat) returns (k: nat)
    requires steps != [] && Follows(a, steps[..|steps| - 1], before, i)
    requires a.clock <= Exec(a, steps[..|steps| - 1]).clock
    ensures Follows(a, steps, k, i)
  {
    var front, s := steps[..|steps| - 1], steps[|steps| - 1];
    var w := Exec(a, front);
    WritesCutOff(w, s, i);
    if WritesTo(w, s, i) {
      return |front|;
    }
    if w.db.users[i].writes != a.db.users[i].writes { LastWriteStays(a, steps, before, i); }
    return before;
  }

  /** `auth_time` and the cutoff's encoding: the whole second of a moment. */
  function Second(t: Time): int {
    t / 1_000_000
  }

  /** The sessions that a cutoff turns away are those opened before its whole second began. */
  lemma TurnedAway(login: Time, cutoff: Time)
    ensures Second(login) < Second(cutoff) <==> login < cutoff - cutoff % 1_000_000
  {
  }

  /**
   The cutoff is the time of the last step that set, replaced or cleared the
   password, so it turns away the sessions opened before that step's second.
   */
  lemma ReplacedPasswordsRevoke(start: Time, first: seq<Step>, second: seq<Step>, i: nat, login: Time)
    requires i < |Exec(Start(start), first).db.users|
    ensures var a := Exec(Start(start), first);
            var b := Exec(a, second);
            && i < |b.db.users|
            && (b.db.users[i].password != a.db.users[i].password || b.db.users[i].cutoff != a.db.users[i].cutoff ==>
                  b.db.users[i].writes != a.db.users[i].writes)
            && (b.db.users[i].writes != a.db.users[i].writes ==>
                  exists k: nat ::
                    && LastWrite(a, second, k, i) && b.db.users[i].cutoff == second[k].now >= a.clock
                    && (Second(login) < Second(b.db.users[i].cutoff) <==>
                          login < second[k].now - second[k].now % 1_000_000))
  {
    EveryRunKeepsInv(start, first);
    var a := Exec(Start(start), first);
    var k := CutoffFollowsWrites(a, second, i);
    TurnedAway(login, Exec(a, second).db.users[i].cutoff);
  }

  /** A linked identity keeps its user, and a user its address, its proof and its cutoff. */
  lemma LinksNeverMove(start: Time, first: seq<Step>, second: seq<Step>)
    ensures var a := Exec(Start(start), first);
            var b := Exec(a, second);
            && (forall who :: who in a.db.identities ==>
                  who in b.db.identities && b.db.identities[who] == a.db.identities[who])
            && (forall i :: 0 <= i < |a.db.users| ==>
                  && i < |b.db.users| && b.db.users[i].email == a.db.users[i].email
                  && (a.db.users[i].verified ==> b.db.users[i].verified)
                  && a.db.users[i].cutoff <= b.db.users[i].cutoff)
  {
    var a := Exec(Start(start), first);
    EveryRunKeepsInv(start, first);
    RunsGoForward(a, second);
    forall i | 0 <= i < |a.db.users|
      ensures Descends(a.db.users[i], Exec(a, second).db.users[i])
    {
    }
  }
}
