/**
 What each account request answers and leaves behind, said of the rows
 themselves (apps/api/routers/auth.py, apps/api/routers/internal_auth.py); and
 by whom an identity can have been linked, in every run. Addresses are unique,
 as the table's constraint and `EveryRunKeepsInv` have it.
 */
module AccountAnswers {
  import opened Wrappers
  import opened Accounts

  const DAY := 86_400_000_000
  const HOUR := 3_600_000_000

  ghost predicate Known(db: Db, email: string) {
    exists i :: 0 <= i < |db.users| && db.users[i].email == email
  }

  predicate HasAddress(db: Db, i: nat, email: string) {
    i < |db.users| && db.users[i].email == email
  }

  lemma FindsTheAddress(db: Db, email: string)
    requires OneAddressEach(db.users)
    ensures !Known(db, email) ==> FindEmail(db.users, email) == None
    ensures forall i: nat :: HasAddress(db, i, email) ==> FindEmail(db.users, email) == Some(i)
  {
  }

  predicate Unused(t: Token, user: nat, purpose: Purpose) {
    t.user == user && t.purpose == purpose && !t.used
  }

  /** `t`, which cannot be spent any more if it was an unused token of that user and purpose. */
  function Voided(t: Token, user: nat, purpose: Purpose): Token {
    Token(t.user, t.purpose, t.expires, t.used || Unused(t, user, purpose), t.writes)
  }

  /** Every token stays but the unused ones of that user and purpose, which are used now. */
  ghost predicate OnlyVoids(before: map<Hash, Token>, after: map<Hash, Token>, user: nat, purpose: Purpose) {
    after.Keys == before.Keys && forall h :: h in before ==> after[h] == Voided(before[h], user, purpose)
  }

  /** And `hash` is the one live token of that user and purpose. */
  ghost predicate OnlyIssues(before: map<Hash, Token>, after: map<Hash, Token>, hash: Hash, t: Token) {
    && after.Keys == before.Keys + {hash} && after[hash] == t
    && forall h :: h in before && h != hash ==> after[h] == Voided(before[h], t.user, t.purpose)
  }

  function Filled(name: Option<string>, given: Option<string>): Option<string> {
    if given.Some? && given.value != "" then given else name
  }

  // ------------------------------------------------------------------ sign-up and its link

  /** A new address: an unverified user with the password, and a link that is good for a day. */
  lemma SignupOfNewAddress(db: Db, email: string, password: string, name: Option<string>, hash: Hash, now: Time)
    requires OneAddressEach(db.users) && !Known(db, email)
    ensures var (after, reply) := Signup(db, email, password, name, hash, now);
            && reply == Link(hash)
            && after.users == db.users + [User(email, name, Some(password), false, now, 1)]
            && after.tokens == db.tokens[hash := Token(|db.users|, VerifyEmail, now + DAY, false, 1)]
            && after.identities == db.identities
  {
    FindsTheAddress(db, email);
  }

  /**
   A known address: nothing at all when it is verified; else its pending
   password is replaced, its sessions cut off, and the new link the only one.
   */
  lemma SignupOfKnownAddress(
    db: Db, email: string, password: string, name: Option<string>, hash: Hash, now: Time, i: nat)
    requires OneAddressEach(db.users) && HasAddress(db, i, email)
    ensures var (after, reply) := Signup(db, email, password, name, hash, now);
            var u := db.users[i];
            if u.verified then reply == AccountExists && after == db
            else
              && reply == Link(hash)
              && after.users ==
                 db.users[i := User(email, Filled(u.name, name), Some(password), false, now, u.writes + 1)]
              && OnlyIssues(db.tokens, after.tokens, hash, Token(i, VerifyEmail, now + DAY, false, u.writes + 1))
              && after.identities == db.identities
  {
    FindsTheAddress(db, email);
  }

  /**
   A new link goes exactly to a known address that waits for one, with a
   password pending, and is then its only one; no other request changes
   anything, and only a verified address is told that it has an account.
   */
  lemma ResendExactly(db: Db, email: string, hash: Hash, now: Time)
    requires OneAddressEach(db.users)
    ensures var (after, reply) := Resend(db, email, hash, now);
            && (!Known(db, email) ==> reply == Quiet && after == db)
            && forall i: nat :: HasAddress(db, i, email) ==>
                 var u := db.users[i];
                 if u.verified then reply == AccountExists && after == db
                 else if u.password.None? then reply == Quiet && after == db
                 else
                   && reply == Link(hash) && after.users == db.users && after.identities == db.identities
                   && OnlyIssues(db.tokens, after.tokens, hash, Token(i, VerifyEmail, now + DAY, false, u.writes))
  {
    FindsTheAddress(db, email);
  }

  /** A reset link goes exactly to a known address, and is then its only one. */
  lemma RequestResetExactly(db: Db, email: string, hash: Hash, now: Time)
    requires OneAddressEach(db.users)
    ensures var (after, reply) := RequestReset(db, email, hash, now);
            && (!Known(db, email) ==> reply == Quiet && after == db)
            && forall i: nat :: HasAddress(db, i, email) ==>
                 && reply == Link(hash) && after.users == db.users && after.identities == db.identities
                 && OnlyIssues(db.tokens, after.tokens, hash,
                               Token(i, ResetPassword, now + HOUR, false, db.users[i].writes))
  {
    FindsTheAddress(db, email);
  }

  // ------------------------------------------------------------------ spending a link

  predicate LetsIn(db: Db, hash: Hash, purpose: Purpose, now: Time) {
    && hash in db.tokens && db.tokens[hash].user < |db.users|
    && db.tokens[hash].purpose == purpose && !db.tokens[hash].used && now < db.tokens[hash].expires
  }

  /** A verify link lets in exactly unused and in time; it then proves the address and changes no other row. */
  lemma VerifyExactly(db: Db, hash: Hash, now: Time)
    ensures var (after, reply) := Verify(db, hash, now);
            if !LetsIn(db, hash, VerifyEmail, now) then reply == InvalidToken && after == db
            else
              var i, u := db.tokens[hash].user, db.users[db.tokens[hash].user];
              && reply == Welcome(i)
              && after.users == db.users[i := User(u.email, u.name, u.password, true, u.cutoff, u.writes)]
              && OnlyVoids(db.tokens, after.tokens, i, VerifyEmail) && after.identities == db.identities
  {
  }

  /** A reset link, likewise; it sets the password, cuts off older sessions and proves the address. */
  lemma ResetExactly(db: Db, hash: Hash, password: string, now: Time)
    ensures var (after, reply) := Reset(db, hash, password, now);
            if !LetsIn(db, hash, ResetPassword, now) then reply == InvalidToken && after == db
            else
              var i, u := db.tokens[hash].user, db.users[db.tokens[hash].user];
              && reply == Welcome(i)
              && after.users == db.users[i := User(u.email, u.name, Some(password), true, now, u.writes + 1)]
              && OnlyVoids(db.tokens, after.tokens, i, ResetPassword) && after.identities == db.identities
  {
  }

  predicate EverLetsIn(t: Token, from: Time, at: Time) {
    from <= at && !t.used && at < t.expires
  }

  /** The sweep may take a token exactly when nobody can be let in by it now or later. */
  lemma DeadExactly(t: Token, now: Time)
    ensures Dead(t, now) <==> forall at :: !EverLetsIn(t, now, at)
  {
    assert EverLetsIn(t, now, now) <==> !t.used && now < t.expires;
  }

  /** The sweep never changes who is let in, then or later. */
  lemma SweepTurnsNobodyAway(db: Db, some: set<Hash>, now: Time, hash: Hash, purpose: Purpose, later: Time)
    requires now <= later
    ensures LetsIn(DeleteDead(db, some, now), hash, purpose, later) <==> LetsIn(db, hash, purpose, later)
    ensures DeleteDead(db, some, now).users == db.users && DeleteDead(db, some, now).identities == db.identities
  {
  }

  // ------------------------------------------------------------------ sign-in by a provider

  /** The row of an address that its proven owner claims: a password that was never proven goes, with its sessions. */
  function ClaimedRow(u: User, name: Option<string>, now: Time): User {
    User(u.email, if u.name.None? then Filled(None, name) else u.name,
         if u.verified then u.password else None, true,
         if !u.verified && u.password.Some? then now else u.cutoff,
         if !u.verified && u.password.Some? then u.writes + 1 else u.writes)
  }

  /**
   A linked identity signs in its user and changes nothing; any other is
   refused, and changes nothing, exactly when the provider has not verified the
   address. Else it is linked: to the user of that address, who keeps a proven
   password only, or to a new one.
   */
  lemma SignInExactly(db: Db, who: Identity, email: string, emailVerified: bool, name: Option<string>, now: Time)
    requires OneAddressEach(db.users)
    ensures var (after, reply) := OAuthUpsert(db, who, email, emailVerified, name, now);
            if who in db.identities then reply == Welcome(db.identities[who]) && after == db
            else if !emailVerified then reply == EmailUnverified && after == db
            else
              && after.tokens == db.tokens
              && (!Known(db, email) ==>
                    && reply == Welcome(|db.users|) && after.identities == db.identities[who := |db.users|]
                    && after.users == db.users + [User(email, name, None, true, now, 0)])
              && forall i: nat :: HasAddress(db, i, email) ==>
                   && reply == Welcome(i) && after.identities == db.identities[who := i]
                   && after.users == db.users[i := ClaimedRow(db.users[i], name, now)]
  {
    FindsTheAddress(db, email);
  }

  /** A first sign-in is welcomed exactly with a verified address, as the verified user of that address. */
  lemma FirstSignInIsProven(db: Db, who: Identity, email: string, emailVerified: bool, name: Option<string>, now: Time)
    requires OneAddressEach(db.users) && who !in db.identities
    ensures var (after, reply) := OAuthUpsert(db, who, email, emailVerified, name, now);
            && (reply.Welcome? <==> emailVerified)
            && (reply.Welcome? ==>
                  && who in after.identities && after.identities[who] == reply.user
                  && HasAddress(after, reply.user, email) && after.users[reply.user].verified)
            && (!reply.Welcome? ==> after == db)
  {
    SignInExactly(db, who, email, emailVerified, name, now);
    if Known(db, email) {
      var i :| 0 <= i < |db.users| && db.users[i].email == email;
      assert HasAddress(db, i, email);
    }
  }

  /** Step `s`, taken in `w`, links `who` for the first time: to user `i`, by that user's own verified address. */
  predicate FirstLinks(w: World, s: Step, who: Identity, i: nat) {
    && s.DoOAuth? && s.who == who && s.emailVerified
    && who !in w.db.identities
    && var w' := Next(w, s);
       && who in w'.db.identities && w'.db.identities[who] == i
       && HasAddress(w'.db, i, s.email) && w'.db.users[i].verified
  }

  lemma LinkStep(w: World, s: Step, who: Identity)
    requires Inv(w) && who !in w.db.identities && who in Next(w, s).db.identities
    ensures FirstLinks(w, s, who, Next(w, s).db.identities[who])
  {
    FirstSignInIsProven(w.db, who, s.email, s.emailVerified, s.name, s.now);
  }

  /** In every run each linked identity was first linked by a step with its user's own verified address. */
  lemma {:induction false} EveryLinkWasProven(start: Time, steps: seq<Step>, who: Identity) returns (k: nat)
    requires who in Exec(Start(start), steps).db.identities
    ensures var w := Exec(Start(start), steps);
            var i := w.db.identities[who];
            && k < |steps| && FirstLinks(Exec(Start(start), steps[..k]), steps[k], who, i)
            && HasAddress(w.db, i, steps[k].email) && w.db.users[i].verified
  {
    var front, s := steps[..|steps| - 1], steps[|steps| - 1];
    var w := Exec(Start(start), front);
    EveryRunKeepsInv(start, front);
    if who in w.db.identities {
      k := EveryLinkWasProven(start, front, who);
      assert front[..k] == steps[..k] && front[k] == steps[k];
      IdentityStep(w, s);
      UserStep(w, s, w.db.identities[who]);
    } else {
      LinkStep(w, s, who);
      k := |front|;
    }
  }
}
