/**
 The account tables changed in place: the repository functions that assign
 fields or run one statement (packages/db/repos/users.py,
 packages/db/repos/email_tokens.py), and the routes built from them.
 */
module AccountStores {
  import opened Wrappers
  import opened Accounts

  class AccountStore {
    var users: seq<User>
    var tokens: map<Hash, Token>
    var identities: map<Identity, nat>

    function Tables(): Db
      reads this
    {
      Db(users, tokens, identities)
    }

    constructor ()
      ensures Tables() == Db([], map[], map[])
    {
      users, tokens, identities := [], map[], map[];
    }

    method GetByEmail(email: string) returns (found: Option<nat>)
      ensures found == FindEmail(users, email)
    {
      var i := |users|;
      assert users[..i] == users;
      while i > 0
        invariant 0 <= i <= |users|
        invariant FindEmail(users, email) == FindEmail(users[..i], email)
      {
        assert users[..i][..i - 1] == users[..i - 1];
        if users[i - 1].email == email {
          return Some(i - 1);
        }
        i := i - 1;
      }
      return None;
    }

    /** One UPDATE; the answer names the rows it changed. */
    method VoidUnusedTokens(user: nat, purpose: Purpose) returns (voided: set<Hash>)
      modifies this`tokens
      ensures tokens == VoidUnused(old(tokens), user, purpose)
      ensures forall h :: h in voided <==> h in old(tokens) && Live(old(tokens)[h], user, purpose)
    {
      voided := set h | h in tokens && Live(tokens[h], user, purpose);
      var before := tokens;
      tokens := map h | h in before :: if h in voided then before[h].(used := true) else before[h];
    }

    /** Only the call that voids the token itself wins it, and its siblings go with it. */
    method Consume(hash: Hash) returns (won: bool)
      requires hash in tokens
      modifies this`tokens
      ensures won <==> !old(tokens)[hash].used
      ensures tokens == VoidUnused(old(tokens), old(tokens)[hash].user, old(tokens)[hash].purpose)
      ensures hash in tokens && tokens[hash].used
    {
      var voided := VoidUnusedTokens(tokens[hash].user, tokens[hash].purpose);
      won := hash in voided;
    }

    method SpendToken(hash: Hash, purpose: Purpose, now: Time) returns (user: Option<nat>)
      modifies this`tokens
      ensures user.Some? <==> Spends(old(Tables()), hash, purpose, now)
      ensures user.Some? ==> user.value == old(tokens)[hash].user < |users|
                             && tokens == VoidUnused(old(tokens), user.value, purpose)
      ensures user.None? ==> tokens == old(tokens)
    {
      if hash !in tokens || tokens[hash].purpose != purpose || tokens[hash].used || tokens[hash].expires <= now {
        return None;
      }
      var owner := tokens[hash].user;
      if owner >= |users| {
        return None;
      }
      var won := Consume(hash);
      user := None;
      if won { user := Some(owner); }
    }

    method Issue(user: nat, purpose: Purpose, hash: Hash, now: Time)
      requires user < |users|
      modifies this`tokens
      ensures Tables() == IssueLink(old(Tables()), user, purpose, hash, now)
    {
      tokens := tokens[hash := Token(user, purpose, now + Lifetime(purpose), false, users[user].writes)];
    }

    /** A pending password is replaced and its sessions cut off, unless the row is verified by now. */
    method ReplacePendingPassword(i: nat, password: string, name: Option<string>, now: Time)
      returns (cutoff: Option<Time>)
      requires i < |users|
      modifies this`users
      ensures users == old(users)[i := ReplacedPending(old(users)[i], password, name, now)]
      ensures cutoff == if old(users)[i].verified then None else Some(now)
      ensures cutoff.Some? ==> users[i].cutoff == cutoff.value && users[i].password == Some(password)
    {
      if users[i].verified {
        return None;
      }
      users := users[i := users[i].(password := Some(password), cutoff := now, writes := users[i].writes + 1)];
      if name.Some? && name.value != "" {
        users := users[i := users[i].(name := name)];
      }
      return Some(now);
    }

    /** The proven owner of the address inherits nothing that was never proven. */
    method ClaimByVerifiedEmail(i: nat, name: Option<string>, now: Time) returns (cutoff: Option<Time>)
      requires i < |users|
      modifies this`users
      ensures users == old(users)[i := ClaimedByProvider(old(users)[i], name, now)]
      ensures cutoff.Some? <==> !old(users)[i].verified && old(users)[i].password.Some?
      ensures cutoff.Some? ==> users[i].cutoff == cutoff.value == now && users[i].password.None?
      ensures cutoff.None? ==> users[i].cutoff == old(users)[i].cutoff && users[i].password == old(users)[i].password
    {
      cutoff := None;
      var u := users[i];
      if !u.verified {
        if u.password.Some? {
          u := u.(password := None, cutoff := now, writes := u.writes + 1);
          cutoff := Some(now);
        }
        u := u.(verified := true);
      }
      if u.name.None? && name.Some? && name.value != "" {
        u := u.(name := name);
      }
      users := users[i := u];
    }

    method SignupNow(email: string, password: string, name: Option<string>, hash: Hash, now: Time)
      returns (reply: Reply, cutoff: Option<Time>)
      modifies this
      ensures (Tables(), reply) == Signup(old(Tables()), email, password, name, hash, now)
      ensures cutoff.Some? <==> FindEmail(old(users), email).Some? && reply.Link?
    {
      cutoff := None;
      var found := GetByEmail(email);
      if found.None? {
        users := users + [User(email, name, Some(password), false, now, 1)];
        Issue(|users| - 1, VerifyEmail, hash, now);
        return Link(hash), None;
      }
      var i := found.value;
      if users[i].verified {
        return AccountExists, None;
      }
      var _ := VoidUnusedTokens(i, VerifyEmail);
      cutoff := ReplacePendingPassword(i, password, name, now);
      if cutoff.None? {
        return AccountExists, None;
      }
      Issue(i, VerifyEmail, hash, now);
      reply := Link(hash);
    }

    method ResendNow(email: string, hash: Hash, now: Time) returns (reply: Reply)
      modifies this`tokens
      ensures (Tables(), reply) == Resend(old(Tables()), email, hash, now)
    {
      var found := GetByEmail(email);
      if found.None? || (!users[found.value].verified && users[found.value].password.None?) {
        return Quiet;
      }
      if users[found.value].verified {
        return AccountExists;
      }
      var _ := VoidUnusedTokens(found.value, VerifyEmail);
      Issue(found.value, VerifyEmail, hash, now);
      return Link(hash);
    }

    method VerifyNow(hash: Hash, now: Time) returns (reply: Reply)
      modifies this
      ensures (Tables(), reply) == Verify(old(Tables()), hash, now)
    {
      var owner := SpendToken(hash, VerifyEmail, now);
      if owner.None? {
        return InvalidToken;
      }
      users := users[owner.value := MarkedVerified(users[owner.value])];
      return Welcome(owner.value);
    }

    method RequestResetNow(email: string, hash: Hash, now: Time) returns (reply: Reply)
      modifies this`tokens
      ensures (Tables(), reply) == RequestReset(old(Tables()), email, hash, now)
    {
      var found := GetByEmail(email);
      if found.None? {
        return Quiet;
      }
      var _ := VoidUnusedTokens(found.value, ResetPassword);
      Issue(found.value, ResetPassword, hash, now);
      return Link(hash);
    }

    method ResetNow(hash: Hash, password: string, now: Time) returns (reply: Reply, cutoff: Option<Time>)
      modifies this
      ensures (Tables(), reply) == Reset(old(Tables()), hash, password, now)
      ensures cutoff == if reply.Welcome? then Some(now) else None
    {
      var owner := SpendToken(hash, ResetPassword, now);
      if owner.None? {
        return InvalidToken, None;
      }
      var u := users[owner.value];
      u := u.(password := Some(password), cutoff := now, writes := u.writes + 1);
      if !u.verified {
        u := u.(verified := true);
      }
      users := users[owner.value := u];
      return Welcome(owner.value), Some(now);
    }

    method OAuthUpsertNow(who: Identity, email: string, emailVerified: bool, name: Option<string>, now: Time)
      returns (reply: Reply, cutoff: Option<Time>)
      modifies this
      ensures (Tables(), reply) == OAuthUpsert(old(Tables()), who, email, emailVerified, name, now)
      ensures cutoff.Some? ==> reply.Welcome? && reply.user < |users| && users[reply.user].cutoff == cutoff.value == now
    {
      if who in identities {
        return Welcome(identities[who]), None;
      }
      if !emailVerified {
        return EmailUnverified, None;
      }
      cutoff := None;
      var found := GetByEmail(email);
      var i := |users|;
      if found.None? {
        users := users + [User(email, name, None, true, now, 0)];
      } else {
        i := found.value;
        cutoff := ClaimByVerifiedEmail(i, name, now);
      }
      identities := identities[who := i];
      reply := Welcome(i);
    }

    /** At most `limit` rows go, and none that a request could still be let in by. */
    method SweepDead(limit: nat, now: Time) returns (gone: set<Hash>)
      modifies this`tokens
      ensures |gone| <= limit && Tables() == DeleteDead(old(Tables()), gone, now)
      ensures forall h :: h in gone ==> h in old(tokens) && Dead(old(tokens)[h], now)
      ensures |gone| < limit ==> forall h :: h in tokens ==> !Dead(tokens[h], now)
    {
      gone := {};
      var left := set h | h in tokens && Dead(tokens[h], now);
      while left != {} && |gone| < limit
        invariant gone !! left && gone + left == set h | h in tokens && Dead(tokens[h], now)
        invariant |gone| <= limit
        decreases |left|
      {
        var h :| h in left;
        gone, left := gone + {h}, left - {h};
      }
      var before := tokens;
      tokens := map h | h in before && h !in gone :: before[h];
    }
  }
}
