/**
 * Magic-link sign-in: a user store (one user per e-mail address, each with a
 * duplicate-free list of enrolled programs) and a store of single-use,
 * expiring tokens keyed by the hash of the token sent out. The random user
 * id, the random token and the clock are inputs; the hash is a fixed
 * function given when the store is built.
 */
module MagicAuth {
  import opened Wrappers

  /** A token lives for 24 hours. */
  const TokenLifetimeMs := 24 * 60 * 60 * 1000

  datatype User = User(id: string, email: string, nome: string, createdAt: int, enrollments: seq<string>)

  datatype TokenData = TokenData(userId: string, email: string, expiresAt: int, used: bool)

  /** What `createMagicToken` hands back: the raw token, its link and its expiry. */
  datatype MagicLink = MagicLink(token: string, url: string, expiresAt: int)

  datatype TokenError = NotFound | AlreadyUsed | Expired | UserNotFound {
    function Message(): string {
      match this
      case NotFound => "Token not found"
      case AlreadyUsed => "Token already used"
      case Expired => "Token expired"
      case UserNotFound => "User not found"
    }
  }

  datatype Validation = Validated(user: User) | Invalid(error: TokenError)

  /**
   * Redeeming the token stored under `h` at `now`: the answer and the token
   * store afterwards. An unknown or used token changes nothing, an expired
   * one is deleted, and any other is marked used before its user is looked
   * up.
   */
  function Redeem(tokens: map<string, TokenData>, users: map<string, User>, h: string, now: int): (Validation, map<string, TokenData>) {
    if h !in tokens then (Invalid(NotFound), tokens)
    else if tokens[h].used then (Invalid(AlreadyUsed), tokens)
    else if now > tokens[h].expiresAt then (Invalid(Expired), tokens - {h})
    else
      var marked := tokens[h := tokens[h].(used := true)];
      if tokens[h].userId !in users then (Invalid(UserNotFound), marked)
      else (Validated(users[tokens[h].userId]), marked)
  }

  /**
   * The refusals come in a fixed order (not found, used, expired), the
   * expiry instant itself still validates, and a token that gets past those
   * three is used afterwards even when its user is gone.
   */
  lemma RedeemOrder(tokens: map<string, TokenData>, users: map<string, User>, h: string, now: int)
    ensures h !in tokens <==> Redeem(tokens, users, h, now).0 == Invalid(NotFound)
    ensures Redeem(tokens, users, h, now).0 == Invalid(AlreadyUsed) <==> h in tokens && tokens[h].used
    ensures Redeem(tokens, users, h, now).0 == Invalid(Expired) <==>
      h in tokens && !tokens[h].used && now > tokens[h].expiresAt
    ensures Redeem(tokens, users, h, now).0 == Invalid(Expired) ==> h !in Redeem(tokens, users, h, now).1
    ensures h in tokens && !tokens[h].used && now <= tokens[h].expiresAt ==>
      h in Redeem(tokens, users, h, now).1 && Redeem(tokens, users, h, now).1[h].used &&
      (Redeem(tokens, users, h, now).0.Validated? <==> tokens[h].userId in users)
    ensures forall k :: k != h ==>
      (k in Redeem(tokens, users, h, now).1 <==> k in tokens) &&
      (k in tokens ==> Redeem(tokens, users, h, now).1[k] == tokens[k])
  {
  }

  /** A token validates at most once: after a success, the next attempt finds it used. */
  lemma RedeemOnce(tokens: map<string, TokenData>, users: map<string, User>, h: string, now: int, later: int)
    requires Redeem(tokens, users, h, now).0.Validated?
    ensures Redeem(Redeem(tokens, users, h, now).1, users, h, later).0 == Invalid(AlreadyUsed)
  {
  }

  /** A success hands back the user the token was issued to. */
  lemma RedeemFindsOwner(tokens: map<string, TokenData>, users: map<string, User>, h: string, now: int)
    requires Redeem(tokens, users, h, now).0.Validated?
    ensures h in tokens && tokens[h].userId in users &&
      Redeem(tokens, users, h, now).0.user == users[tokens[h].userId]
  {
  }

  class AuthStore {
    var users: map<string, User>
    var tokens: map<string, TokenData>
    const hash: string -> string
    const appOrigin: string

    /** Users are stored under their own id, e-mails are unique, and nobody is enrolled twice in one program. */
    ghost predicate Valid()
      reads this
    {
      (forall id :: id in users ==> users[id].id == id) &&
      (forall a, b :: a in users && b in users && a != b ==> users[a].email != users[b].email) &&
      (forall id :: id in users ==> NoDuplicates(users[id].enrollments))
    }

    constructor (hash: string -> string, appOrigin: string)
      ensures Valid() && users == map[] && tokens == map[]
      ensures this.hash == hash && this.appOrigin == appOrigin
    {
      this.hash := hash;
      this.appOrigin := appOrigin;
      users := map[];
      tokens := map[];
    }

    /**
     * `upsertUser`: the user with this e-mail, renamed when a non-empty
     * `nome` is given, or else a new user under `newId` created at `now`
     * with no enrollments.
     */
    method UpsertUser(email: string, nome: string, newId: string, now: int) returns (user: User)
      requires Valid()
      modifies this
      ensures Valid() && tokens == old(tokens)
      ensures forall id :: id in old(users) && old(users)[id].email == email ==>
        user == old(users)[id].(nome := if nome != "" then nome else old(users)[id].nome) &&
        users == old(users)[id := user]
      ensures (forall id :: id in old(users) ==> old(users)[id].email != email) ==>
        user == User(newId, email, nome, now, []) && users == old(users)[newId := user]
      ensures user in users.Values && user.email == email
    {
      var ids := users.Keys;
      while ids != {}
        invariant ids <= users.Keys
        invariant forall id :: id in users && id !in ids ==> users[id].email != email
        invariant users == old(users)
        decreases ids
      {
        var id :| id in ids;
        if users[id].email == email {
          user := users[id];
          if nome != "" && user.nome != nome {
            user := user.(nome := nome);
            users := users[id := user];
          } else {
            assert users == old(users)[id := user];
          }
          assert users[id] == user;
          return;
        }
        ids := ids - {id};
      }
      user := User(newId, email, nome, now, []);
      users := users[newId := user];
      assert users[newId] == user;
    }

    /** `createEnrollment`: false for an unknown user; otherwise the program is enrolled once. */
    method CreateEnrollment(userId: string, program: string) returns (ok: bool)
      requires Valid()
      modifies this
      ensures Valid() && tokens == old(tokens)
      ensures ok <==> userId in old(users)
      ensures !ok ==> users == old(users)
      ensures ok ==> users == old(users)[userId := old(users)[userId].(enrollments :=
        if program in old(users)[userId].enrollments then old(users)[userId].enrollments
        else old(users)[userId].enrollments + [program])]
    {
      if userId !in users {
        return false;
      }
      var user := users[userId];
      if program !in user.enrollments {
        user := user.(enrollments := user.enrollments + [program]);
        users := users[userId := user];
      } else {
        assert users == users[userId := user];
      }
      return true;
    }

    /** `cleanupExpiredTokens`: exactly the entries whose expiry has passed are deleted. */
    method CleanupExpiredTokens(now: int)
      modifies this
      ensures users == old(users)
      ensures forall k :: k in tokens <==> k in old(tokens) && now <= old(tokens)[k].expiresAt
      ensures forall k :: k in tokens ==> tokens[k] == old(tokens)[k]
    {
      var keys := tokens.Keys;
      while keys != {}
        invariant keys <= old(tokens).Keys && users == old(users)
        invariant forall k :: k in tokens <==> k in old(tokens) && (k in keys || now <= old(tokens)[k].expiresAt)
        invariant forall k :: k in tokens ==> tokens[k] == old(tokens)[k]
        decreases keys
      {
        var k :| k in keys;
        if now > tokens[k].expiresAt {
          tokens := tokens - {k};
        }
        keys := keys - {k};
      }
    }

    /**
     * `createMagicToken`: the user is upserted, the hash of `token` is stored
     * unused with a 24-hour expiry, expired tokens are cleaned up, and the
     * link carries the raw token.
     */
    method CreateMagicToken(email: string, nome: string, newId: string, token: string, now: int)
      returns (link: MagicLink, user: User)
      requires Valid()
      modifies this
      ensures Valid()
      ensures user in users.Values && user.email == email
      ensures hash(token) in tokens && tokens[hash(token)] == TokenData(user.id, email, now + TokenLifetimeMs, false)
      ensures forall k :: k != hash(token) ==>
        (k in tokens <==> k in old(tokens) && now <= old(tokens)[k].expiresAt) &&
        (k in tokens ==> tokens[k] == old(tokens)[k])
      ensures link == MagicLink(token, appOrigin + "/auth/magic?token=" + token, now + TokenLifetimeMs)
    {
      user := UpsertUser(email, nome, newId, now);
      var expiresAt := now + TokenLifetimeMs;
      tokens := tokens[hash(token) := TokenData(user.id, user.email, expiresAt, false)];
      CleanupExpiredTokens(now);
      link := MagicLink(token, appOrigin + "/auth/magic?token=" + token, expiresAt);
    }

    /** `validateMagicToken`: redeems the token stored under the hash of `token`. */
    method ValidateMagicToken(token: string, now: int) returns (r: Validation)
      modifies this
      ensures users == old(users)
      ensures (r, tokens) == Redeem(old(tokens), users, hash(token), now)
    {
      var h := hash(token);
      if h !in tokens {
        return Invalid(NotFound);
      }
      var data := tokens[h];
      if data.used {
        return Invalid(AlreadyUsed);
      }
      if now > data.expiresAt {
        tokens := tokens - {h};
        return Invalid(Expired);
      }
      tokens := tokens[h := data.(used := true)];
      if data.userId !in users {
        return Invalid(UserNotFound);
      }
      return Validated(users[data.userId]);
    }

    /** `getUserById`. */
    function UserById(userId: string): (r: Option<User>)
      requires Valid()
      reads this
      ensures r.Some? <==> userId in users
      ensures r.Some? ==> r.value.id == userId && r.value in users.Values
    {
      if userId in users then Some(users[userId]) else None
    }
  }

  predicate NoDuplicates(xs: seq<string>) {
    forall i, j :: 0 <= i < j < |xs| ==> xs[i] != xs[j]
  }
}
