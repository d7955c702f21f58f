/**
 The invariant of the credential protocol, and that every step of every request keeps it.
 */
module SessionInvariant {
  import opened Outcomes
  import opened Accounts
  import opened Sessions

  type Users = map<UserId, User>
  type Steps = map<UserId, nat>
  type Tokens = map<string, Token>

  /** An epoch that was read equals the stored one exactly when it was read at or after the last change. */
  ghost predicate EpochDates(users: Users, changedAt: Steps, id: UserId, epoch: int, readAt: nat, n: nat) {
    && id in users && id in changedAt
    && readAt < n
    && epoch <= users[id].epoch
    && (epoch == users[id].epoch <==> changedAt[id] <= readAt)
  }

  ghost predicate SnapshotOk(users: Users, changedAt: Steps, s: Snapshot, n: nat) {
    && EpochDates(users, changedAt, s.id, s.user.epoch, s.readAt, n)
    && (s.user.epoch == users[s.id].epoch ==> Secret(s.user.hash) == Secret(users[s.id].hash))
  }

  ghost predicate Held(tokens: Tokens, c: Claims) {
    c.jti in tokens && tokens[c.jti].claims == c
  }

  predicate HasSnapshot(q: Request) {
    q.Checked? || q.Ready? || q.Changing?
  }

  predicate HasClaims(q: Request) {
    q.Presented? || q.NotRevoked? || q.Identified? || q.Stamped? || q.Purged? || q.Renewing?
  }

  predicate HasUser(q: Request) {
    q.Inserted? || q.ResetFound? || q.ResetStamped?
  }

  ghost predicate RequestOk(users: Users, changedAt: Steps, tokens: Tokens, clock: nat, q: Request, n: nat) {
    && (HasSnapshot(q) ==> SnapshotOk(users, changedAt, q.snap, n))
    && (HasClaims(q) ==> Held(tokens, q.claims))
    && (HasUser(q) ==> q.id in users)
    && (q.Checked? ==> Verifies(q.password, q.snap.user.hash))
    && (q.Changing? ==> Verifies(q.current, q.snap.user.hash))
    && (q.Stamped? ==> q.now <= clock)
  }

  ghost predicate RequestsOk(users: Users, changedAt: Steps, tokens: Tokens, clock: nat, requests: map<nat, Request>, n: nat) {
    forall r :: r in requests ==> RequestOk(users, changedAt, tokens, clock, requests[r], n)
  }

  function LastChange(changes: seq<Change>, id: UserId): Option<Change> {
    if changes == [] then None
    else if changes[|changes| - 1].user == id then Some(changes[|changes| - 1])
    else LastChange(changes[..|changes| - 1], id)
  }

  /** The password a user should have: the one last chosen, or else the one the row started with. */
  function Intended(origin: map<UserId, Option<string>>, changes: seq<Change>, id: UserId): Option<string> {
    match LastChange(changes, id)
    case Some(x) => Some(x.chosen)
    case None => if id in origin then origin[id] else None
  }

  function LastChangeAt(changes: seq<Change>, id: UserId): nat {
    match LastChange(changes, id)
    case Some(x) => x.at
    case None => 0
  }

  ghost predicate UsersOk(users: Users, origin: map<UserId, Option<string>>, changedAt: Steps, changes: seq<Change>, n: nat) {
    && changedAt.Keys == users.Keys == origin.Keys
    && (forall id :: id in users ==> changedAt[id] < n && changedAt[id] == LastChangeAt(changes, id))
    && (forall id :: id in users ==> Secret(users[id].hash) == Intended(origin, changes, id))
  }

  ghost predicate TokenDated(users: Users, changedAt: Steps, k: Token, n: nat) {
    EpochDates(users, changedAt, k.claims.sub, k.claims.ver, k.readAt, n)
  }

  ghost predicate TokensOk(users: Users, changedAt: Steps, tokens: Tokens, n: nat) {
    && (forall j :: j in tokens ==> tokens[j].claims.jti == j && tokens[j].root in tokens)
    && (forall j :: j in tokens ==> TokenDated(users, changedAt, tokens[j], n))
  }

  /** Every jti ever revoked is still in the table, or its token has expired. */
  ghost predicate RevokedOk(revoked: map<string, string>, revokedEver: set<string>, tokens: Tokens, clock: nat) {
    && revoked.Keys <= revokedEver <= tokens.Keys
    && (forall j :: j in revoked ==> revoked[j] == IsoText(InstantOf(tokens[j].claims.exp)))
    && (forall j :: j in revokedEver && j !in revoked ==> InstantOf(tokens[j].claims.exp) < clock)
  }

  /** A reset row that is still unused was inserted after its user's last change. */
  ghost predicate ResetsOk(resets: map<string, ResetRow>, issuedAt: map<string, nat>, changedAt: Steps, n: nat) {
    && issuedAt.Keys == resets.Keys
    && forall d :: d in resets ==>
         && resets[d].user in changedAt && issuedAt[d] < n
         && (!resets[d].used ==> changedAt[resets[d].user] == 0 || changedAt[resets[d].user] < issuedAt[d])
  }

  ghost predicate ChangeOk(x: Change, changedAt: Steps, issuedAt: map<string, nat>) {
    && x.user in changedAt && 1 <= x.at <= changedAt[x.user]
    && match x.cause
       case Confirmed(current, stored) => Verifies(current, stored)
       case ByReset(digest, at) => digest in issuedAt && issuedAt[digest] == at < x.at
  }

  /** Of two changes of one user the later one, if it is a reset, used a token inserted after the earlier one. */
  ghost predicate Ordered(x: Change, y: Change) {
    x.user == y.user ==> x.at < y.at && (y.cause.ByReset? ==> x.at < y.cause.issuedAt)
  }

  ghost predicate ChangesOk(changes: seq<Change>, changedAt: Steps, issuedAt: map<string, nat>) {
    && (forall i :: 0 <= i < |changes| ==> ChangeOk(changes[i], changedAt, issuedAt))
    && (forall i, j :: 0 <= i < j < |changes| ==> Ordered(changes[i], changes[j]))
  }

  /** Of two tokens of one refresh family, one has been revoked. */
  ghost predicate FamiliesOk(tokens: Tokens, revokedEver: set<string>, forkedRoots: set<string>) {
    forall x, y :: x in tokens && y in tokens && x != y && tokens[x].root == tokens[y].root ==>
      tokens[x].root in forkedRoots || x in revokedEver || y in revokedEver
  }

  /** `n` bounds the steps recorded so far. */
  ghost predicate WorldOk(w: World, n: nat) {
    && n >= 1
    && RequestsOk(w.rows.users, w.changedAt, w.tokens, w.clock, w.requests, n)
    && UsersOk(w.rows.users, w.origin, w.changedAt, w.changes, n)
    && TokensOk(w.rows.users, w.changedAt, w.tokens, n)
    && RevokedOk(w.rows.revoked, w.revokedEver, w.tokens, w.clock)
    && ResetsOk(w.rows.resets, w.issuedAt, w.changedAt, n)
    && ChangesOk(w.changes, w.changedAt, w.issuedAt)
    && FamiliesOk(w.tokens, w.revokedEver, w.forkedRoots)
  }

  ghost predicate Inv(w: World) {
    WorldOk(w, w.step)
  }

  // ---------- every step keeps the invariant ----------

  lemma InitOk(w: World)
    requires Init(w)
    ensures Inv(w)
  {
  }

  ghost predicate FitsWorld(w: World, q: Request) {
    RequestOk(w.rows.users, w.changedAt, w.tokens, w.clock, q, w.step + 1)
  }

  lemma RequestsLater(users: Users, changedAt: Steps, tokens: Tokens, clock: nat, requests: map<nat, Request>, n: nat)
    requires RequestsOk(users, changedAt, tokens, clock, requests, n)
    ensures RequestsOk(users, changedAt, tokens, clock, requests, n + 1)
  {
    forall r | r in requests
      ensures RequestOk(users, changedAt, tokens, clock, requests[r], n + 1)
    {
      assert RequestOk(users, changedAt, tokens, clock, requests[r], n);
    }
  }

  lemma TokenLater(users: Users, changedAt: Steps, k: Token, n: nat)
    requires TokenDated(users, changedAt, k, n)
    ensures TokenDated(users, changedAt, k, n + 1)
  {
  }

  lemma TokensLater(users: Users, changedAt: Steps, tokens: Tokens, n: nat)
    requires TokensOk(users, changedAt, tokens, n)
    ensures TokensOk(users, changedAt, tokens, n + 1)
  {
    hide TokenDated;
    forall j | j in tokens
      ensures TokenDated(users, changedAt, tokens[j], n + 1)
    {
      TokenLater(users, changedAt, tokens[j], n);
    }
  }

  lemma UsersLater(users: Users, origin: map<UserId, Option<string>>, changedAt: Steps, changes: seq<Change>, n: nat)
    requires UsersOk(users, origin, changedAt, changes, n)
    ensures UsersOk(users, origin, changedAt, changes, n + 1)
  {
  }

  lemma ResetsLater(resets: map<string, ResetRow>, issuedAt: map<string, nat>, changedAt: Steps, n: nat)
    requires ResetsOk(resets, issuedAt, changedAt, n)
    ensures ResetsOk(resets, issuedAt, changedAt, n + 1)
  {
  }

  lemma Later(w: World)
    requires Inv(w)
    ensures WorldOk(w, w.step + 1)
  {
    hide RequestsOk, UsersOk, TokensOk, RevokedOk, ResetsOk, ChangesOk, FamiliesOk;
    RequestsLater(w.rows.users, w.changedAt, w.tokens, w.clock, w.requests, w.step);
    UsersLater(w.rows.users, w.origin, w.changedAt, w.changes, w.step);
    TokensLater(w.rows.users, w.changedAt, w.tokens, w.step);
    ResetsLater(w.rows.resets, w.issuedAt, w.changedAt, w.step);
  }

  lemma RequestHeld(users: Users, changedAt: Steps, tokens: Tokens, clock: nat, requests: map<nat, Request>, r: nat, n: nat)
    requires RequestsOk(users, changedAt, tokens, clock, requests, n)
    ensures RequestOk(users, changedAt, tokens, clock, if r in requests then requests[r] else Idle, n)
  {
  }

  lemma AtOk(w: World, r: nat)
    requires Inv(w)
    ensures FitsWorld(w, At(w, r))
  {
    hide RequestsOk, UsersOk, TokensOk, RevokedOk, ResetsOk, ChangesOk, FamiliesOk;
    RequestsLater(w.rows.users, w.changedAt, w.tokens, w.clock, w.requests, w.step);
    RequestHeld(w.rows.users, w.changedAt, w.tokens, w.clock, w.requests, r, w.step + 1);
  }

  lemma GoKeeps(w: World, r: nat, q: Request)
    ensures WorldOk(w, w.step + 1) && FitsWorld(w, q) ==> WorldOk(Go(w, r, q), w.step + 1)
  {
  }

  lemma TickKeeps(w: World, clock: Clock)
    requires WorldOk(w, w.step + 1) && w.clock <= clock
    ensures WorldOk(w.(clock := clock), w.step + 1)
  {
    forall r | r in w.requests
      ensures RequestOk(w.rows.users, w.changedAt, w.tokens, clock, w.requests[r], w.step + 1)
    {
      assert RequestOk(w.rows.users, w.changedAt, w.tokens, w.clock, w.requests[r], w.step + 1);
    }
  }

  function Bump(users: Users, id: UserId, hash: Hash): Users
    requires id in users
  {
    users[id := users[id].(hash := hash, epoch := users[id].epoch + 1)]
  }

  /** A snapshot stays dated when its user's password and epoch move on at a later step. */
  lemma SnapshotAfterChange(users: Users, changedAt: Steps, s: Snapshot, id: UserId, hash: Hash, step: nat)
    requires SnapshotOk(users, changedAt, s, step) && id in users
    ensures SnapshotOk(Bump(users, id, hash), changedAt[id := step], s, step + 1)
  {
  }

  lemma RequestAfterChange(users: Users, changedAt: Steps, tokens: Tokens, clock: nat, q: Request,
                           id: UserId, hash: Hash, step: nat)
    requires RequestOk(users, changedAt, tokens, clock, q, step) && id in users
    ensures RequestOk(Bump(users, id, hash), changedAt[id := step], tokens, clock, q, step + 1)
  {
    if HasSnapshot(q) {
      SnapshotAfterChange(users, changedAt, q.snap, id, hash, step);
    }
  }

  lemma LastChangeExtends(changes: seq<Change>, x: Change, id: UserId)
    ensures LastChange(changes + [x], id) == if id == x.user then Some(x) else LastChange(changes, id)
  {
    assert (changes + [x])[..|changes|] == changes;
  }

  lemma UsersAfterChange(users: Users, origin: map<UserId, Option<string>>, changedAt: Steps, changes: seq<Change>,
                         x: Change, hash: Hash)
    requires UsersOk(users, origin, changedAt, changes, x.at) && x.user in users && Secret(hash) == Some(x.chosen)
    ensures UsersOk(Bump(users, x.user, hash), origin, changedAt[x.user := x.at], changes + [x], x.at + 1)
  {
    var next := Bump(users, x.user, hash);
    hide LastChange;
    forall i | i in next
      ensures LastChange(changes + [x], i) == if i == x.user then Some(x) else LastChange(changes, i)
    {
      LastChangeExtends(changes, x, i);
    }
  }

  lemma TokensAfterChange(users: Users, changedAt: Steps, tokens: Tokens, id: UserId, hash: Hash, step: nat)
    requires TokensOk(users, changedAt, tokens, step) && id in users
    ensures TokensOk(Bump(users, id, hash), changedAt[id := step], tokens, step + 1)
  {
    hide TokenDated, Bump;
    forall j | j in tokens
      ensures TokenDated(Bump(users, id, hash), changedAt[id := step], tokens[j], step + 1)
    {
      TokenAfterChange(users, changedAt, tokens[j], id, hash, step);
    }
  }

  lemma TokenAfterChange(users: Users, changedAt: Steps, k: Token, id: UserId, hash: Hash, step: nat)
    requires TokenDated(users, changedAt, k, step) && id in users
    ensures TokenDated(Bump(users, id, hash), changedAt[id := step], k, step + 1)
  {
  }

  lemma RequestsAfterChange(users: Users, changedAt: Steps, tokens: Tokens, clock: nat, requests: map<nat, Request>,
                            id: UserId, hash: Hash, step: nat)
    requires RequestsOk(users, changedAt, tokens, clock, requests, step) && id in users
    ensures RequestsOk(Bump(users, id, hash), changedAt[id := step], tokens, clock, requests, step + 1)
  {
    forall r | r in requests
      ensures RequestOk(Bump(users, id, hash), changedAt[id := step], tokens, clock, requests[r], step + 1)
    {
      RequestAfterChange(users, changedAt, tokens, clock, requests[r], id, hash, step);
    }
  }

  lemma ResetsAfterChange(t: Tables, issuedAt: map<string, nat>, changedAt: Steps, id: UserId, step: nat)
    requires ResetsOk(t.resets, issuedAt, changedAt, step)
    ensures ResetsOk(UseResets(t, id).resets, issuedAt, changedAt[id := step], step + 1)
  {
  }

  lemma UserDated(users: Users, origin: map<UserId, Option<string>>, changedAt: Steps, changes: seq<Change>, id: UserId, n: nat)
    requires UsersOk(users, origin, changedAt, changes, n) && id in users
    ensures id in changedAt && changedAt[id] < n
  {
  }

  lemma ChangesExtend(changes: seq<Change>, changedAt: Steps, issuedAt: map<string, nat>, x: Change)
    requires ChangesOk(changes, changedAt, issuedAt) && x.user in changedAt
    requires ChangeOk(x, changedAt[x.user := x.at], issuedAt) && changedAt[x.user] < x.at
    requires x.cause.ByReset? ==> changedAt[x.user] == 0 || changedAt[x.user] < x.cause.issuedAt
    ensures ChangesOk(changes + [x], changedAt[x.user := x.at], issuedAt)
  {
    forall i | 0 <= i < |changes|
      ensures ChangeOk(changes[i], changedAt[x.user := x.at], issuedAt) && Ordered(changes[i], x)
    {
      assert ChangeOk(changes[i], changedAt, issuedAt);
    }
  }

  /** A password commit dates every earlier reading as stale and uses up every reset row of the user. */
  lemma CommitPasswordKeeps(w: World, id: UserId, salt: nat, chosen: string, cause: Cause)
    requires Inv(w) && id in w.rows.users
    requires ChangeOk(Change(id, w.step, chosen, cause), w.changedAt[id := w.step], w.issuedAt)
    requires cause.ByReset? ==> w.changedAt[id] == 0 || w.changedAt[id] < cause.issuedAt
    ensures WorldOk(CommitPassword(w, id, salt, chosen, cause), w.step + 1)
  {
    hide RequestsOk, UsersOk, TokensOk, RevokedOk, ResetsOk, ChangesOk, FamiliesOk;
    var x, hash := Change(id, w.step, chosen, cause), HashPassword(chosen, salt);
    var v := CommitPassword(w, id, salt, chosen, cause);
    assert v.rows.users == Bump(w.rows.users, id, hash);
    RequestsAfterChange(w.rows.users, w.changedAt, w.tokens, w.clock, w.requests, id, hash, w.step);
    TokensAfterChange(w.rows.users, w.changedAt, w.tokens, id, hash, w.step);
    UsersAfterChange(w.rows.users, w.origin, w.changedAt, w.changes, x, hash);
    ResetsAfterChange(UpdatePassword(w.rows, id, hash), w.issuedAt, w.changedAt, id, w.step);
    UserDated(w.rows.users, w.origin, w.changedAt, w.changes, id, w.step);
    ChangesExtend(w.changes, w.changedAt, w.issuedAt, x);
  }

  lemma RequestsWithMoreTokens(users: Users, changedAt: Steps, tokens: Tokens, more: Tokens, clock: nat,
                               requests: map<nat, Request>, n: nat)
    requires RequestsOk(users, changedAt, tokens, clock, requests, n)
    requires forall j :: j in tokens ==> j in more && more[j] == tokens[j]
    ensures RequestsOk(users, changedAt, more, clock, requests, n)
  {
    forall r | r in requests
      ensures RequestOk(users, changedAt, more, clock, requests[r], n)
    {
      assert RequestOk(users, changedAt, tokens, clock, requests[r], n);
    }
  }

  lemma FamiliesWithToken(tokens: Tokens, revokedEver: set<string>, forkedRoots: set<string>, jti: string, k: Token)
    requires FamiliesOk(tokens, revokedEver, forkedRoots) && jti !in tokens
    requires forall x :: x in tokens && tokens[x].root == k.root ==> k.root in forkedRoots || x in revokedEver
    ensures FamiliesOk(tokens[jti := k], revokedEver, forkedRoots)
  {
  }

  lemma TokensWithToken(users: Users, changedAt: Steps, tokens: Tokens, jti: string, k: Token, n: nat)
    requires TokensOk(users, changedAt, tokens, n) && k.claims.jti == jti && (k.root == jti || k.root in tokens)
    requires TokenDated(users, changedAt, k, n)
    ensures TokensOk(users, changedAt, tokens[jti := k], n)
  {
    hide TokenDated;
    var more := tokens[jti := k];
    forall j | j in more
      ensures more[j].claims.jti == j && more[j].root in more && TokenDated(users, changedAt, more[j], n)
    {
      if j != jti {
        assert tokens[j].claims.jti == j && TokenDated(users, changedAt, tokens[j], n);
      }
    }
  }

  lemma RevokedWithToken(revoked: map<string, string>, revokedEver: set<string>, tokens: Tokens, clock: nat, jti: string, k: Token)
    requires RevokedOk(revoked, revokedEver, tokens, clock) && jti !in tokens
    ensures RevokedOk(revoked, revokedEver, tokens[jti := k], clock)
  {
  }

  lemma MintKeeps(w: World, s: Snapshot, jti: string, root: string)
    requires jti !in w.tokens && (root == jti || root in w.tokens)
    requires forall x :: x in w.tokens && w.tokens[x].root == root ==> root in w.forkedRoots || x in w.revokedEver
    ensures WorldOk(w, w.step + 1) && SnapshotOk(w.rows.users, w.changedAt, s, w.step + 1) ==>
      WorldOk(Mint(w, s, jti, root), w.step + 1)
  {
    hide RequestsOk, UsersOk, TokensOk, RevokedOk, ResetsOk, ChangesOk, FamiliesOk;
    if WorldOk(w, w.step + 1) && SnapshotOk(w.rows.users, w.changedAt, s, w.step + 1) {
      var k := Token(Issue(s.id, s.user.epoch, jti, w.clock), s.readAt, root);
      RequestsWithMoreTokens(w.rows.users, w.changedAt, w.tokens, w.tokens[jti := k], w.clock, w.requests, w.step + 1);
      TokensWithToken(w.rows.users, w.changedAt, w.tokens, jti, k, w.step + 1);
      RevokedWithToken(w.rows.revoked, w.revokedEver, w.tokens, w.clock, jti, k);
      FamiliesWithToken(w.tokens, w.revokedEver, w.forkedRoots, jti, k);
    }
  }

  lemma TokenHeld(w: World, jti: string)
    requires Inv(w) && jti in w.tokens
    ensures Held(w.tokens, w.tokens[jti].claims) && TokenDated(w.rows.users, w.changedAt, w.tokens[jti], w.step)
  {
  }

  lemma FreshRoot(w: World, jti: string)
    requires Inv(w) && jti !in w.tokens
    ensures forall x :: x in w.tokens ==> w.tokens[x].root in w.tokens && w.tokens[x].root != jti
  {
  }

  lemma ResetsDated(w: World)
    requires Inv(w)
    ensures w.issuedAt.Keys == w.rows.resets.Keys
    ensures forall d :: d in w.rows.resets ==>
      && w.rows.resets[d].user in w.rows.users && w.rows.resets[d].user in w.changedAt && w.issuedAt[d] < w.step
      && (!w.rows.resets[d].used ==>
           var at := w.changedAt[w.rows.resets[d].user]; at == 0 || at < w.issuedAt[d])
  {
  }

  /** What a request reads of a user now is dated now. */
  lemma SnapshotNow(w: World, id: UserId)
    requires Inv(w) && id in w.rows.users
    ensures SnapshotOk(w.rows.users, w.changedAt, Snapshot(id, w.rows.users[id], w.step), w.step + 1)
  {
  }

  /** Another hash of the same password is invisible to the invariant. */
  ghost predicate SameCredentials(users: Users, others: Users) {
    && users.Keys == others.Keys
    && forall i :: i in users ==> users[i].epoch == others[i].epoch && Secret(users[i].hash) == Secret(others[i].hash)
  }

  lemma RehashKeepsCredentials(t: Tables, id: UserId, seen: Hash, hash: Hash)
    requires Secret(seen) == Secret(hash)
    ensures SameCredentials(t.users, Rehash(t, id, seen, hash).users)
    ensures Rehash(t, id, seen, hash).resets == t.resets && Rehash(t, id, seen, hash).revoked == t.revoked
  {
  }

  lemma RequestsWithCredentials(users: Users, others: Users, changedAt: Steps, tokens: Tokens, clock: nat,
                                requests: map<nat, Request>, n: nat)
    requires RequestsOk(users, changedAt, tokens, clock, requests, n) && SameCredentials(users, others)
    ensures RequestsOk(others, changedAt, tokens, clock, requests, n)
  {
    forall r | r in requests
      ensures RequestOk(others, changedAt, tokens, clock, requests[r], n)
    {
      assert RequestOk(users, changedAt, tokens, clock, requests[r], n);
    }
  }

  lemma TokensWithCredentials(users: Users, others: Users, changedAt: Steps, tokens: Tokens, n: nat)
    requires TokensOk(users, changedAt, tokens, n) && SameCredentials(users, others)
    ensures TokensOk(others, changedAt, tokens, n)
  {
    forall j | j in tokens
      ensures TokenDated(others, changedAt, tokens[j], n)
    {
      assert TokenDated(users, changedAt, tokens[j], n);
    }
  }

  lemma UsersWithCredentials(users: Users, others: Users, origin: map<UserId, Option<string>>, changedAt: Steps,
                             changes: seq<Change>, n: nat)
    requires UsersOk(users, origin, changedAt, changes, n) && SameCredentials(users, others)
    ensures UsersOk(others, origin, changedAt, changes, n)
  {
  }

  lemma SnapshotWithCredentials(users: Users, others: Users, changedAt: Steps, s: Snapshot, n: nat)
    requires SnapshotOk(users, changedAt, s, n) && SameCredentials(users, others)
    ensures SnapshotOk(others, changedAt, s, n)
  {
  }

  lemma CheckedFits(w: World, r: nat)
    requires Inv(w) && At(w, r).Checked?
    ensures SnapshotOk(w.rows.users, w.changedAt, At(w, r).snap, w.step + 1)
    ensures Verifies(At(w, r).password, At(w, r).snap.user.hash)
  {
    AtOk(w, r);
  }

  lemma UpgradeKeeps(w: World, r: nat, salt: nat)
    requires Inv(w)
    ensures WorldOk(Upgrade(w, r, salt), w.step + 1)
  {
    hide RequestsOk, UsersOk, TokensOk, RevokedOk, ResetsOk, ChangesOk, FamiliesOk;
    Later(w);
    if At(w, r).Checked? {
      var s, password := At(w, r).snap, At(w, r).password;
      CheckedFits(w, r);
      RehashKeepsCredentials(w.rows, s.id, s.user.hash, HashPassword(password, salt));
      if NeedsUpgrade(s.user.hash) {
        var v := w.(rows := Rehash(w.rows, s.id, s.user.hash, HashPassword(password, salt)));
        UpgradeFrame(w, v, w.step + 1);
        SnapshotWithCredentials(w.rows.users, v.rows.users, w.changedAt, s, w.step + 1);
        GoKeeps(v, r, Ready(s));
      } else {
        GoKeeps(w, r, Ready(s));
      }
    }
  }

  lemma UpgradeFrame(w: World, v: World, n: nat)
    requires WorldOk(w, n) && v == w.(rows := v.rows) && SameCredentials(w.rows.users, v.rows.users)
    requires v.rows.resets == w.rows.resets && v.rows.revoked == w.rows.revoked
    ensures WorldOk(v, n)
  {
    hide RequestsOk, UsersOk, TokensOk, RevokedOk, ResetsOk, ChangesOk, FamiliesOk;
    RequestsWithCredentials(w.rows.users, v.rows.users, w.changedAt, w.tokens, w.clock, w.requests, n);
    TokensWithCredentials(w.rows.users, v.rows.users, w.changedAt, w.tokens, n);
    UsersWithCredentials(w.rows.users, v.rows.users, w.origin, w.changedAt, w.changes, n);
  }

  lemma {:induction false} NeverChanged(changes: seq<Change>, id: UserId)
    requires forall i :: 0 <= i < |changes| ==> changes[i].user != id
    ensures LastChange(changes, id) == None
  {
    if changes != [] {
      NeverChanged(changes[..|changes| - 1], id);
    }
  }

  lemma RequestsWithUser(users: Users, changedAt: Steps, tokens: Tokens, clock: nat, requests: map<nat, Request>,
                         n: nat, id: UserId, user: User)
    requires RequestsOk(users, changedAt, tokens, clock, requests, n) && id !in users
    ensures RequestsOk(users[id := user], changedAt[id := 0], tokens, clock, requests, n)
  {
    forall r | r in requests
      ensures RequestOk(users[id := user], changedAt[id := 0], tokens, clock, requests[r], n)
    {
      assert RequestOk(users, changedAt, tokens, clock, requests[r], n);
    }
  }

  lemma TokensWithUser(users: Users, changedAt: Steps, tokens: Tokens, n: nat, id: UserId, user: User)
    requires TokensOk(users, changedAt, tokens, n) && id !in users
    ensures TokensOk(users[id := user], changedAt[id := 0], tokens, n)
  {
    forall j | j in tokens
      ensures TokenDated(users[id := user], changedAt[id := 0], tokens[j], n)
    {
      assert TokenDated(users, changedAt, tokens[j], n);
    }
  }

  lemma UsersWithUser(users: Users, origin: map<UserId, Option<string>>, changedAt: Steps, changes: seq<Change>, n: nat,
                      id: UserId, user: User)
    requires UsersOk(users, origin, changedAt, changes, n) && id !in users && n >= 1
    requires forall i :: 0 <= i < |changes| ==> changes[i].user in users
    ensures UsersOk(users[id := user], origin[id := Secret(user.hash)], changedAt[id := 0], changes, n)
  {
    NeverChanged(changes, id);
    forall i | i in users
      ensures Intended(origin[id := Secret(user.hash)], changes, i) == Secret(users[i].hash)
    {
      assert Intended(origin, changes, i) == Secret(users[i].hash);
    }
  }

  lemma ChangesWithUser(changes: seq<Change>, changedAt: Steps, issuedAt: map<string, nat>, id: UserId)
    requires ChangesOk(changes, changedAt, issuedAt) && id !in changedAt
    ensures ChangesOk(changes, changedAt[id := 0], issuedAt)
    ensures forall i :: 0 <= i < |changes| ==> changes[i].user in changedAt
  {
    forall i | 0 <= i < |changes|
      ensures changes[i].user in changedAt && ChangeOk(changes[i], changedAt[id := 0], issuedAt)
    {
      assert ChangeOk(changes[i], changedAt, issuedAt);
    }
  }

  lemma ResetsWithUser(resets: map<string, ResetRow>, issuedAt: map<string, nat>, changedAt: Steps, n: nat, id: UserId)
    requires ResetsOk(resets, issuedAt, changedAt, n) && id !in changedAt
    ensures ResetsOk(resets, issuedAt, changedAt[id := 0], n)
  {
  }

  lemma KnownUsers(users: Users, origin: map<UserId, Option<string>>, changedAt: Steps, changes: seq<Change>, n: nat)
    requires UsersOk(users, origin, changedAt, changes, n)
    ensures changedAt.Keys == users.Keys
  {
  }

  lemma CreateUserKeeps(w: World, r: nat, id: UserId, user: User)
    requires Inv(w)
    ensures WorldOk(CreateUser(w, r, id, user), w.step + 1)
  {
    hide RequestsOk, UsersOk, TokensOk, RevokedOk, ResetsOk, ChangesOk, FamiliesOk;
    Later(w);
    if Register(w.rows, id, user).Some? && At(w, r).Idle? {
      var v := w.(rows := w.rows.(users := w.rows.users[id := user]),
                  origin := w.origin[id := Secret(user.hash)], changedAt := w.changedAt[id := 0]);
      var n := w.step + 1;
      KnownUsers(w.rows.users, w.origin, w.changedAt, w.changes, n);
      RequestsWithUser(w.rows.users, w.changedAt, w.tokens, w.clock, w.requests, n, id, user);
      TokensWithUser(w.rows.users, w.changedAt, w.tokens, n, id, user);
      ChangesWithUser(w.changes, w.changedAt, w.issuedAt, id);
      UsersWithUser(w.rows.users, w.origin, w.changedAt, w.changes, n, id, user);
      ResetsWithUser(w.rows.resets, w.issuedAt, w.changedAt, n, id);
      assert WorldOk(v, n);
      GoKeeps(v, r, Inserted(id));
      assert CreateUser(w, r, id, user) == Go(v, r, Inserted(id));
    }
  }

  /** A purge removes only rows whose token has expired: the text comparison decides the real one. */
  lemma PurgeKeepsRevoked(t: Tables, revokedEver: set<string>, tokens: Tokens, clock: nat, now: Instant)
    requires RevokedOk(t.revoked, revokedEver, tokens, clock) && now <= clock
    ensures RevokedOk(Purge(t, now).revoked, revokedEver, tokens, clock)
  {
    forall j | j in revokedEver && j !in Purge(t, now).revoked
      ensures InstantOf(tokens[j].claims.exp) < clock
    {
      if j in t.revoked {
        T.TextOrderIsTimeOrder(InstantOf(tokens[j].claims.exp), now);
      }
    }
  }

  lemma InsertKeepsRevoked(t: Tables, revokedEver: set<string>, tokens: Tokens, clock: nat, c: Claims)
    requires RevokedOk(t.revoked, revokedEver, tokens, clock) && Held(tokens, c)
    ensures RevokedOk(InsertRevoked(t, c).revoked, revokedEver + {c.jti}, tokens, clock)
  {
  }

  lemma FamiliesWithRevoked(tokens: Tokens, revokedEver: set<string>, forkedRoots: set<string>, j: string, more: set<string>)
    requires FamiliesOk(tokens, revokedEver, forkedRoots)
    ensures FamiliesOk(tokens, revokedEver + {j}, forkedRoots + more)
  {
  }

  lemma PurgeKeeps(w: World, r: nat)
    requires Inv(w)
    ensures WorldOk(PurgeStep(w, r), w.step + 1)
  {
    hide RequestsOk, UsersOk, TokensOk, RevokedOk, ResetsOk, ChangesOk, FamiliesOk;
    Later(w);
    AtOk(w, r);
    if At(w, r).Stamped? {
      var c, now := At(w, r).claims, At(w, r).now;
      PurgeKeepsRevoked(w.rows, w.revokedEver, w.tokens, w.clock, now);
      GoKeeps(w.(rows := Purge(w.rows, now)), r, Purged(c));
    }
  }

  lemma RevokeKeeps(w: World, r: nat)
    requires Inv(w)
    ensures WorldOk(RevokeStep(w, r), w.step + 1)
  {
    hide RequestsOk, UsersOk, TokensOk, RevokedOk, ResetsOk, ChangesOk, FamiliesOk;
    Later(w);
    AtOk(w, r);
    if At(w, r).Purged? {
      var c := At(w, r).claims;
      InsertKeepsRevoked(w.rows, w.revokedEver, w.tokens, w.clock, c);
      FamiliesWithRevoked(w.tokens, w.revokedEver, w.forkedRoots, c.jti, {});
      assert w.forkedRoots + {} == w.forkedRoots;
      GoKeeps(w.(rows := InsertRevoked(w.rows, c), revokedEver := w.revokedEver + {c.jti}), r, Idle);
    }
  }

  /** A token that is revoked cannot pass the in-lock check before it expires. */
  lemma RevokedIsInactive(w: World, c: Claims)
    requires Inv(w) && Held(w.tokens, c) && c.jti in w.revokedEver && OnTime(w, c)
    ensures !Active(w.rows, c)
  {
  }

  /** What a refresh does before it issues the new token. */
  function Revoked(w: World, c: Claims, forked: set<string>): World {
    w.(rows := Revoke(w.rows, c, w.clock), revokedEver := w.revokedEver + {c.jti}, forkedRoots := w.forkedRoots + forked)
  }

  lemma RevokedKeeps(w: World, c: Claims, forked: set<string>)
    requires WorldOk(w, w.step + 1) && Held(w.tokens, c)
    ensures WorldOk(Revoked(w, c, forked), w.step + 1)
    ensures Revoked(w, c, forked).rows.users == w.rows.users
  {
    hide RequestsOk, UsersOk, TokensOk, RevokedOk, ResetsOk, ChangesOk, FamiliesOk;
    PurgeKeepsRevoked(w.rows, w.revokedEver, w.tokens, w.clock, w.clock);
    InsertKeepsRevoked(Purge(w.rows, w.clock), w.revokedEver, w.tokens, w.clock, c);
    FamiliesWithRevoked(w.tokens, w.revokedEver, w.forkedRoots, c.jti, forked);
  }

  lemma RefreshKeeps(w: World, r: nat, jti: string)
    requires Inv(w)
    ensures WorldOk(RefreshStep(w, r, jti), w.step + 1)
  {
    hide RequestsOk, UsersOk, TokensOk, RevokedOk, ResetsOk, ChangesOk, FamiliesOk;
    Later(w);
    AtOk(w, r);
    if RefreshCommits(w, r, jti) {
      var c := At(w, r).claims;
      var root := w.tokens[c.jti].root;
      var forked := if c.jti in w.revokedEver then {root} else {};
      var v := Revoked(w, c, forked);
      assert v.forkedRoots == if c.jti in w.revokedEver then w.forkedRoots + {root} else w.forkedRoots;
      var s := Snapshot(c.sub, w.rows.users[c.sub], w.step);
      SnapshotNow(w, c.sub);
      RefreshFamily(w, c);
      RevokedKeeps(w, c, forked);
      MintKeeps(v, s, jti, root);
      GoKeeps(Mint(v, s, jti, root), r, Idle);
    } else {
      GoKeeps(w, r, Idle);
    }
  }

  /** As long as a token has not been revoked itself, every other token of its family has been. */
  lemma RefreshFamily(w: World, c: Claims)
    requires Inv(w) && Held(w.tokens, c)
    ensures w.tokens[c.jti].root in w.tokens
    ensures c.jti !in w.revokedEver ==> forall x :: x in w.tokens && w.tokens[x].root == w.tokens[c.jti].root ==>
      w.tokens[c.jti].root in w.forkedRoots || x in w.revokedEver + {c.jti}
  {
  }

  lemma ChangeKeeps(w: World, r: nat, salt: nat, jti: string)
    requires Inv(w)
    ensures WorldOk(ChangeStep(w, r, salt, jti), w.step + 1)
  {
    hide RequestsOk, UsersOk, TokensOk, RevokedOk, ResetsOk, ChangesOk, FamiliesOk;
    Later(w);
    AtOk(w, r);
    if At(w, r).Changing? {
      var s, current, chosen := At(w, r).snap, At(w, r).current, At(w, r).chosen;
      if jti !in w.tokens {
        if ChangePassword(w.rows, s.id, s.user, HashPassword(chosen, salt)).Some? {
          var cause := Confirmed(current, w.rows.users[s.id].hash);
          var v := CommitPassword(w, s.id, salt, chosen, cause);
          var t := Snapshot(s.id, v.rows.users[s.id], w.step);
          UserDated(w.rows.users, w.origin, w.changedAt, w.changes, s.id, w.step);
          CommitPasswordKeeps(w, s.id, salt, chosen, cause);
          assert SnapshotOk(v.rows.users, v.changedAt, t, w.step + 1);
          FreshRoot(w, jti);
          MintKeeps(v, t, jti, jti);
          GoKeeps(Mint(v, t, jti, jti), r, Idle);
        } else {
          GoKeeps(w, r, Idle);
        }
      }
    }
  }

  lemma ChangesWithReset(changes: seq<Change>, changedAt: Steps, issuedAt: map<string, nat>, digest: string, at: nat)
    requires ChangesOk(changes, changedAt, issuedAt) && digest !in issuedAt
    ensures ChangesOk(changes, changedAt, issuedAt[digest := at])
  {
    forall i | 0 <= i < |changes|
      ensures ChangeOk(changes[i], changedAt, issuedAt[digest := at])
    {
      assert ChangeOk(changes[i], changedAt, issuedAt);
    }
  }

  lemma ResetsWithRow(resets: map<string, ResetRow>, issuedAt: map<string, nat>, changedAt: Steps, digest: string,
                      row: ResetRow, step: nat)
    requires ResetsOk(resets, issuedAt, changedAt, step + 1) && digest !in resets
    requires row.user in changedAt && changedAt[row.user] < step
    ensures ResetsOk(resets[digest := row], issuedAt[digest := step], changedAt, step + 1)
  {
  }

  lemma InsertResetKeeps(w: World, r: nat, digest: string)
    requires Inv(w)
    ensures WorldOk(InsertReset(w, r, digest), w.step + 1)
  {
    hide RequestsOk, UsersOk, TokensOk, RevokedOk, ResetsOk, ChangesOk, FamiliesOk, IsoText;
    Later(w);
    AtOk(w, r);
    if At(w, r).ResetStamped? {
      var id, now := At(w, r).id, At(w, r).now;
      if digest !in w.rows.resets {
        UserDated(w.rows.users, w.origin, w.changedAt, w.changes, id, w.step);
        ResetsDated(w);
        var row := ResetRow(id, Some(IsoText(now + RESET_LIFE)), false);
        ResetsWithRow(w.rows.resets, w.issuedAt, w.changedAt, digest, row, w.step);
        ChangesWithReset(w.changes, w.changedAt, w.issuedAt, digest, w.step);
        var v := w.(rows := w.rows.(resets := w.rows.resets[digest := row]), issuedAt := w.issuedAt[digest := w.step],
                    stamped := w.stamped[digest := now]);
        assert WorldOk(v, w.step + 1);
        GoKeeps(v, r, Idle);
      }
    }
  }

  lemma ConfirmKeeps(w: World, r: nat, salt: nat)
    requires Inv(w)
    ensures WorldOk(ConfirmStep(w, r, salt), w.step + 1)
  {
    hide RequestsOk, UsersOk, TokensOk, RevokedOk, ResetsOk, ChangesOk, FamiliesOk;
    Later(w);
    if At(w, r).Confirming? {
      var digest, chosen := At(w, r).digest, At(w, r).chosen;
      if ConfirmReset(w.rows, digest, HashPassword(chosen, salt), w.clock).Some? {
        ResetsDated(w);
        UserDated(w.rows.users, w.origin, w.changedAt, w.changes, w.rows.resets[digest].user, w.step);
        var id, cause := w.rows.resets[digest].user, ByReset(digest, w.issuedAt[digest]);
        CommitPasswordKeeps(w, id, salt, chosen, cause);
        GoKeeps(CommitPassword(w, id, salt, chosen, cause), r, Idle);
      } else {
        GoKeeps(w, r, Idle);
      }
    }
  }

  lemma SessionKeeps(w: World, r: nat, jti: string)
    requires Inv(w)
    ensures WorldOk(Session(w, r, jti), w.step + 1)
  {
    hide RequestsOk, UsersOk, TokensOk, RevokedOk, ResetsOk, ChangesOk, FamiliesOk;
    Later(w);
    AtOk(w, r);
    if At(w, r).Ready? {
      var s := At(w, r).snap;
      if jti !in w.tokens {
        FreshRoot(w, jti);
        MintKeeps(w, s, jti, jti);
        GoKeeps(Mint(w, s, jti, jti), r, Idle);
      }
    }
  }

  /** A step that only moves its own request on, with what it reads now. */
  lemma ReadKeeps(w: World, r: nat, v: World)
    ensures WorldOk(w, w.step + 1) && (v == w || (v == Go(w, r, At(v, r)) && FitsWorld(w, At(v, r)))) ==>
      WorldOk(v, w.step + 1)
  {
    GoKeeps(w, r, At(v, r));
  }

  ghost predicate ReadOnly(w: World, r: nat, v: World) {
    v == w || (v == Go(w, r, At(v, r)) && FitsWorld(w, At(v, r)))
  }

  lemma QueriesFit(w: World, r: nat)
    requires Inv(w)
    ensures ReadOnly(w, r, TestRevoked(w, r)) && ReadOnly(w, r, TestEpoch(w, r))
  {
    hide RequestsOk, UsersOk, TokensOk, RevokedOk, ResetsOk, ChangesOk, FamiliesOk;
    AtOk(w, r);
  }

  lemma IdentifiedFit(w: World, r: nat)
    requires Inv(w)
    ensures ReadOnly(w, r, StampLogout(w, r)) && ReadOnly(w, r, ReadForRefresh(w, r))
  {
    hide RequestsOk, UsersOk, TokensOk, RevokedOk, ResetsOk, ChangesOk, FamiliesOk;
    AtOk(w, r);
  }

  lemma CreatedFits(w: World, r: nat)
    requires Inv(w)
    ensures ReadOnly(w, r, ReadCreated(w, r))
  {
    hide RequestsOk, UsersOk, TokensOk, RevokedOk, ResetsOk, ChangesOk, FamiliesOk;
    if At(w, r).Inserted? && At(w, r).id in w.rows.users {
      SnapshotNow(w, At(w, r).id);
    }
  }

  lemma LoginFits(w: World, r: nat, id: UserId, password: string)
    requires Inv(w)
    ensures ReadOnly(w, r, Login(w, r, id, password))
  {
    hide RequestsOk, UsersOk, TokensOk, RevokedOk, ResetsOk, ChangesOk, FamiliesOk;
    if id in w.rows.users {
      SnapshotNow(w, id);
    }
  }

  lemma ChangingFits(w: World, r: nat)
    requires Inv(w)
    ensures ReadOnly(w, r, ReadForChange(w, r))
  {
    hide RequestsOk, UsersOk, TokensOk, RevokedOk, ResetsOk, ChangesOk, FamiliesOk;
    if At(w, r).Identified? && At(w, r).claims.sub in w.rows.users {
      SnapshotNow(w, At(w, r).claims.sub);
    }
  }

  lemma PresentedFits(w: World, r: nat, jti: string, op: Operation)
    requires Inv(w)
    ensures ReadOnly(w, r, PresentToken(w, r, jti, op))
  {
    hide RequestsOk, UsersOk, TokensOk, RevokedOk, ResetsOk, ChangesOk, FamiliesOk;
    if jti in w.tokens {
      TokenHeld(w, jti);
    }
  }

  lemma FoundFits(w: World, r: nat, id: UserId)
    ensures ReadOnly(w, r, FindForReset(w, r, id))
  {
  }

  lemma StampedFits(w: World, r: nat)
    requires Inv(w)
    ensures ReadOnly(w, r, StampReset(w, r))
  {
    hide RequestsOk, UsersOk, TokensOk, RevokedOk, ResetsOk, ChangesOk, FamiliesOk, IsoText;
    AtOk(w, r);
  }

  lemma ConfirmingFits(w: World, r: nat, digest: string, chosen: string)
    ensures ReadOnly(w, r, CheckReset(w, r, digest, chosen))
  {
    hide ResetUsable;
  }

  predicate Reads(a: Action) {
    a.LoginRead? || a.RegisterRead? || a.ChangeRead? || a.Present? || a.CheckRevoked? || a.CheckEpoch? || a.LogoutClock?
    || a.RefreshRead? || a.ResetRead? || a.ResetClock? || a.ConfirmRead?
  }

  lemma ReadStepFits(w: World, a: Action)
    requires Inv(w) && Reads(a)
    ensures ReadOnly(w, a.r, Effect(w, a))
  {
    hide ReadOnly, Inv, Login, ReadCreated, PresentToken, TestRevoked, TestEpoch, StampLogout, ReadForRefresh, ReadForChange,
      FindForReset, StampReset, CheckReset;
    match a
    case LoginRead(r, id, password) => LoginFits(w, r, id, password);
    case RegisterRead(r) => CreatedFits(w, r);
    case ChangeRead(r) => ChangingFits(w, r);
    case Present(r, jti, op) => PresentedFits(w, r, jti, op);
    case CheckRevoked(r) => QueriesFit(w, r);
    case CheckEpoch(r) => QueriesFit(w, r);
    case LogoutClock(r) => IdentifiedFit(w, r);
    case RefreshRead(r) => IdentifiedFit(w, r);
    case ResetRead(r, id) => FoundFits(w, r, id);
    case ResetClock(r) => StampedFits(w, r);
    case ConfirmRead(r, digest, chosen) => ConfirmingFits(w, r, digest, chosen);
  }

  lemma ReadStepKeeps(w: World, a: Action)
    requires Inv(w) && Reads(a)
    ensures WorldOk(Effect(w, a), w.step + 1)
  {
    hide RequestsOk, UsersOk, TokensOk, RevokedOk, ResetsOk, ChangesOk, FamiliesOk, Effect;
    Later(w);
    ReadStepFits(w, a);
    ReadKeeps(w, a.r, Effect(w, a));
  }

  /** The steps of accounts: they write users and reset rows, or only move the clock or end a request. */
  lemma AccountStepKeeps(w: World, a: Action)
    requires Inv(w)
    requires a.Tick? || a.Abort? || a.LoginUpgrade? || a.RegisterInsert? || a.ResetInsert? || a.ConfirmCommit?
    ensures WorldOk(Effect(w, a), w.step + 1)
  {
    hide Inv, WorldOk, Upgrade, CreateUser, Session, PurgeStep, RevokeStep, RefreshStep, ChangeStep, InsertReset, ConfirmStep;
    Later(w);
    match a
    case Tick(d) =>
      if w.clock + d + 3_600_000_000 < 253_402_300_800_000_000 {
        TickKeeps(w, w.clock + d);
      }
    case Abort(r) => AbortKeeps(w, r);
    case LoginUpgrade(r, salt) => UpgradeKeeps(w, r, salt);
    case RegisterInsert(r, id, name, password, salt, epoch) =>
      CreateUserKeeps(w, r, id, User(name, HashPassword(password, salt), epoch));
    case ResetInsert(r, digest) => InsertResetKeeps(w, r, digest);
    case ConfirmCommit(r, salt) => ConfirmKeeps(w, r, salt);
  }

  lemma AbortKeeps(w: World, r: nat)
    requires WorldOk(w, w.step + 1)
    ensures WorldOk(Go(w, r, Idle), w.step + 1)
  {
    GoKeeps(w, r, Idle);
  }

  /** The steps of tokens: they issue or revoke. */
  lemma TokenStepKeeps(w: World, a: Action)
    requires Inv(w)
    requires a.IssueSession? || a.LogoutPurge? || a.LogoutInsert? || a.RefreshCommit? || a.ChangeCommit?
    ensures WorldOk(Effect(w, a), w.step + 1)
  {
    hide Inv, WorldOk, Upgrade, CreateUser, Session, PurgeStep, RevokeStep, RefreshStep, ChangeStep, InsertReset, ConfirmStep;
    Later(w);
    match a
    case IssueSession(r, jti) => SessionKeeps(w, r, jti);
    case LogoutPurge(r) => PurgeKeeps(w, r);
    case LogoutInsert(r) => RevokeKeeps(w, r);
    case RefreshCommit(r, jti) => RefreshKeeps(w, r, jti);
    case ChangeCommit(r, salt, jti) => ChangeKeeps(w, r, salt, jti);
  }

  /** Every step of every request, in every state that satisfies the invariant, keeps it. */
  lemma StepKeeps(w: World, a: Action)
    requires Inv(w)
    ensures Inv(Apply(w, a))
  {
    hide RequestsOk, UsersOk, TokensOk, RevokedOk, ResetsOk, ChangesOk, FamiliesOk, Effect;
    if Reads(a) {
      ReadStepKeeps(w, a);
    } else if a.IssueSession? || a.LogoutPurge? || a.LogoutInsert? || a.RefreshCommit? || a.ChangeCommit? {
      TokenStepKeeps(w, a);
    } else {
      AccountStepKeeps(w, a);
    }
  }

  lemma {:induction false} RunKeeps(w: World, actions: seq<Action>)
    requires Inv(w)
    ensures Inv(Run(w, actions))
    decreases |actions|
  {
    if actions != [] {
      StepKeeps(w, actions[0]);
      RunKeeps(Apply(w, actions[0]), actions[1..]);
    }
  }
}
