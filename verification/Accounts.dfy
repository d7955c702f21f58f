/**
 The credential tables (users, reset_tokens, revoked_tokens) and the statements that auth.py and profile.py
 run on them. The functions give each statement or write transaction as a change of the tables; the class
 holds the tables as the fields the requests update, and each of its methods is proved against its function.
 */
module Accounts {
  import opened Outcomes
  import T = Timestamps

  type UserId = nat
  /** Microseconds since 1970, before the year 10000. */
  type Instant = t: nat | t < 253_402_300_800_000_000
  /** A clock reading: an expiry an hour later is still a datetime. */
  type Clock = t: nat | t + 3_600_000_000 < 253_402_300_800_000_000
  /** Whole seconds of an `exp` claim. */
  type Seconds = s: nat | s < 253_402_300_800

  const JWT_LIFE: nat := 3_600_000_000
  const RESET_LIFE: nat := 1_800_000_000

  /** The instant an `exp` claim names. */
  function InstantOf(exp: Seconds): Instant {
    1_000_000 * exp
  }

  function IsoText(t: Instant): string {
    assert t < T.END;
    T.Iso(t)
  }

  // ---------- password hashes ----------

  /** An ideal hash verifies the password it was made from and no other. */
  datatype Hash =
    | Argon(password: string, salt: nat, outdated: bool)
    | Legacy(password: string)
    | Unreadable(text: string)  // empty or malformed: verifies nothing

  function Secret(h: Hash): Option<string> {
    match h
    case Argon(p, _, _) => Some(p)
    case Legacy(p) => Some(p)
    case Unreadable(_) => None
  }

  predicate Verifies(password: string, h: Hash) {
    Secret(h) == Some(password)
  }

  predicate NeedsUpgrade(h: Hash) {
    !h.Argon? || h.outdated
  }

  function HashPassword(password: string, salt: nat): Hash {
    Argon(password, salt, false)
  }

  // ---------- tables ----------

  datatype User = User(username: string, hash: Hash, epoch: int)

  /** A row of reset_tokens; `expires` is NULL on rows from before the column existed. */
  datatype ResetRow = ResetRow(user: UserId, expires: Option<string>, used: bool)

  datatype Claims = Claims(sub: UserId, jti: string, ver: int, exp: Seconds)

  /** Reset rows are keyed by the digest of their random token, revoked rows by jti. */
  datatype Tables = Tables(users: map<UserId, User>, resets: map<string, ResetRow>, revoked: map<string, string>)

  // ---------- statements ----------

  predicate Active(t: Tables, c: Claims) {
    c.jti !in t.revoked && c.sub in t.users && t.users[c.sub].epoch == c.ver
  }

  predicate Unexpired(c: Claims, now: nat) {
    now < InstantOf(c.exp)
  }

  function Issue(id: UserId, epoch: int, jti: string, now: Clock): Claims {
    Claims(id, jti, epoch, (now + JWT_LIFE) / 1_000_000)
  }

  /** DELETE FROM revoked_tokens WHERE expires_at < now, both as text. */
  function Purge(t: Tables, now: Instant): Tables {
    t.(revoked := map j | j in t.revoked && !T.Less(t.revoked[j], IsoText(now)) :: t.revoked[j])
  }

  function InsertRevoked(t: Tables, c: Claims): Tables {
    if c.jti in t.revoked then t else t.(revoked := t.revoked[c.jti := IsoText(InstantOf(c.exp))])
  }

  function Revoke(t: Tables, c: Claims, now: Instant): Tables {
    InsertRevoked(Purge(t, now), c)
  }

  function UpdatePassword(t: Tables, id: UserId, hash: Hash): Tables {
    if id !in t.users then t
    else t.(users := t.users[id := t.users[id].(hash := hash, epoch := t.users[id].epoch + 1)])
  }

  function UseResets(t: Tables, id: UserId): Tables {
    t.(resets := map d | d in t.resets :: if t.resets[d].user == id then t.resets[d].(used := true) else t.resets[d])
  }

  function SetPassword(t: Tables, id: UserId, hash: Hash): Tables {
    UseResets(UpdatePassword(t, id, hash), id)
  }

  /** The compare-and-set of login: UPDATE ... WHERE id = ? AND password_hash = ?. */
  function Rehash(t: Tables, id: UserId, seen: Hash, hash: Hash): Tables {
    if id in t.users && t.users[id].hash == seen then t.(users := t.users[id := t.users[id].(hash := hash)]) else t
  }

  /** INSERT INTO users; None is the IntegrityError of a taken name. */
  function Register(t: Tables, id: UserId, user: User): Option<Tables> {
    if id in t.users || exists i :: i in t.users && t.users[i].username == user.username then None
    else Some(t.(users := t.users[id := user]))
  }

  predicate ResetUsable(t: Tables, digest: string, now: Instant) {
    digest in t.resets && !t.resets[digest].used && t.resets[digest].expires.Some?
    && T.Less(IsoText(now), t.resets[digest].expires.value)
  }

  /** The transaction of change_password; None when the epoch moved since `seen` was read. */
  function ChangePassword(t: Tables, id: UserId, seen: User, hash: Hash): Option<Tables> {
    if id in t.users && t.users[id].epoch == seen.epoch then Some(SetPassword(t, id, hash)) else None
  }

  /** The transaction of reset_confirm. */
  function ConfirmReset(t: Tables, digest: string, hash: Hash, now: Instant): Option<Tables> {
    if ResetUsable(t, digest, now) then Some(SetPassword(t, t.resets[digest].user, hash)) else None
  }

  /** The transaction of refresh. The expiry of the presented token is not looked at again. */
  function Refresh(t: Tables, c: Claims, now: Instant): Option<Tables> {
    if Active(t, c) then Some(Revoke(t, c, now)) else None
  }

  // ---------- the tables in place ----------

  class AccountStore {
    var users: map<UserId, User>
    var resets: map<string, ResetRow>
    var revoked: map<string, string>

    ghost function Rows(): Tables
      reads this
    {
      Tables(users, resets, revoked)
    }

    method IsTokenActive(c: Claims) returns (active: bool)
      ensures active <==> Active(Rows(), c)
    {
      if c.jti in revoked {
        return false;
      }
      active := c.sub in users && users[c.sub].epoch == c.ver;
    }

    method RevokeToken(c: Claims, now: Instant)
      modifies this
      ensures Rows() == Revoke(old(Rows()), c, now)
    {
      var expires := IsoText(InstantOf(c.exp));
      revoked := map j | j in revoked && !T.Less(revoked[j], IsoText(now)) :: revoked[j];
      if c.jti !in revoked {
        revoked := revoked[c.jti := expires];
      }
    }

    method CreateUser(id: UserId, username: string, hash: Hash, epoch: int) returns (ok: bool)
      requires id !in users
      modifies this
      ensures ok <==> Register(old(Rows()), id, User(username, hash, epoch)).Some?
      ensures Rows() == if ok then Register(old(Rows()), id, User(username, hash, epoch)).value else old(Rows())
    {
      if exists i :: i in users && users[i].username == username {
        return false;
      }
      users := users[id := User(username, hash, epoch)];
      ok := true;
    }

    method UpgradeHash(id: UserId, seen: User, password: string, salt: nat)
      requires Verifies(password, seen.hash)
      modifies this
      ensures Rows() ==
        if NeedsUpgrade(seen.hash) then Rehash(old(Rows()), id, seen.hash, HashPassword(password, salt)) else old(Rows())
    {
      if NeedsUpgrade(seen.hash) {
        var hash := HashPassword(password, salt);
        if id in users && users[id].hash == seen.hash {
          users := users[id := users[id].(hash := hash)];
        }
      }
    }

    method StorePassword(id: UserId, hash: Hash)
      modifies this
      ensures Rows() == SetPassword(old(Rows()), id, hash)
    {
      if id in users {
        users := users[id := users[id].(hash := hash, epoch := users[id].epoch + 1)];
      }
      resets := map d | d in resets :: if resets[d].user == id then resets[d].(used := true) else resets[d];
    }

    method ChangePasswordLocked(id: UserId, seen: User, hash: Hash) returns (row: Option<User>)
      requires id in users
      modifies this
      ensures row.Some? <==> ChangePassword(old(Rows()), id, seen, hash).Some?
      ensures row.Some? ==>
        Rows() == ChangePassword(old(Rows()), id, seen, hash).value && row.value == Rows().users[id]
      ensures row.None? ==> Rows() == old(Rows())
    {
      if users[id].epoch != seen.epoch {
        return None;
      }
      StorePassword(id, hash);
      row := Some(users[id]);
    }

    method ConfirmResetLocked(digest: string, hash: Hash, now: Instant) returns (ok: bool)
      modifies this
      ensures ok <==> ConfirmReset(old(Rows()), digest, hash, now).Some?
      ensures Rows() == if ok then ConfirmReset(old(Rows()), digest, hash, now).value else old(Rows())
    {
      if digest !in resets || resets[digest].used || resets[digest].expires.None? {
        return false;
      }
      if !T.Less(IsoText(now), resets[digest].expires.value) {
        return false;
      }
      StorePassword(resets[digest].user, hash);
      ok := true;
    }

    method RefreshLocked(c: Claims, now: Clock, jti: string) returns (issued: Option<Claims>)
      modifies this
      ensures issued.Some? <==> Refresh(old(Rows()), c, now).Some?
      ensures issued.Some? ==> Rows() == Refresh(old(Rows()), c, now).value
      ensures issued.Some? ==> issued.value == Issue(c.sub, old(Rows()).users[c.sub].epoch, jti, now)
      ensures issued.None? ==> Rows() == old(Rows())
    {
      var active := IsTokenActive(c);
      if !active {
        return None;
      }
      RevokeToken(c, now);
      issued := Some(Issue(c.sub, users[c.sub].epoch, jti, now));
    }
  }
}
