/**
 Where everything in the credential protocol comes from: each token, password change, reset row and revocation is
 traced back to the actions that asked for it, with the credentials they gave.
 */
module SessionProvenance {
  import opened Outcomes
  import opened Accounts
  import opened Sessions
  import opened SessionInvariant
  import opened SessionSafety

  // ---------- one step of one request ----------

  /** How action a can move its own request on from q to next. */
  predicate Turns(w: World, a: Action, q: Request, next: Request) {
    || next == q
    || match a
       case Tick(_) => false
       case Abort(_) => next == Idle
       case LoginRead(_, id, password) =>
         && q.Idle? && id in w.rows.users && Secret(w.rows.users[id].hash) == Some(password)
         && next == Checked(Snapshot(id, w.rows.users[id], w.step), password)
       case LoginUpgrade(_, _) => q.Checked? && next == Ready(q.snap)
       case RegisterInsert(_, id, _, _, _, _) => q.Idle? && id !in w.rows.users && next == Inserted(id)
       case RegisterRead(_) =>
         q.Inserted? && q.id in w.rows.users && next == Ready(Snapshot(q.id, w.rows.users[q.id], w.step))
       case IssueSession(_, _) => q.Ready? && next == Idle
       case Present(_, jti, op) =>
         && q.Idle? && jti in w.tokens && w.clock < 1_000_000 * w.tokens[jti].claims.exp
         && next == Presented(w.tokens[jti].claims, op)
       case CheckRevoked(_) =>
         q.Presented? && (next == Idle || (q.claims.jti !in w.rows.revoked && next == NotRevoked(q.claims, q.op)))
       case CheckEpoch(_) =>
         && q.NotRevoked?
         && (next == Idle
             || (q.claims.sub in w.rows.users && w.rows.users[q.claims.sub].epoch == q.claims.ver
                 && next == Identified(q.claims, q.op)))
       case LogoutClock(_) => q.Identified? && q.op.LogOut? && next == Stamped(q.claims, w.clock)
       case LogoutPurge(_) => q.Stamped? && next == Purged(q.claims)
       case LogoutInsert(_) => q.Purged? && next == Idle
       case RefreshRead(_) => q.Identified? && q.op.Renew? && (next == Idle || next == Renewing(q.claims))
       case RefreshCommit(_, _) => q.Renewing? && next == Idle
       case ChangeRead(_) =>
         && q.Identified? && q.op.ChangeTo?
         && (next == Idle
             || (q.claims.sub in w.rows.users && Secret(w.rows.users[q.claims.sub].hash) == Some(q.op.current)
                 && next == Changing(Snapshot(q.claims.sub, w.rows.users[q.claims.sub], w.step), q.op.current, q.op.chosen)))
       case ChangeCommit(_, _, _) => q.Changing? && next == Idle
       case ResetRead(_, id) => q.Idle? && id in w.rows.users && next == ResetFound(id)
       case ResetClock(_) => q.ResetFound? && next == ResetStamped(q.id, w.clock)
       case ResetInsert(_, _) => q.ResetStamped? && next == Idle
       case ConfirmRead(_, digest, chosen) => q.Idle? && next == Confirming(digest, chosen)
       case ConfirmCommit(_, _) => q.Confirming? && next == Idle
  }

  /** A step that moves on request r only. */
  ghost predicate Alone(w: World, v: World, r: nat) {
    forall s :: s != r ==> At(v, s) == At(w, s)
  }

  lemma LoginTurns(w: World, r: nat, id: UserId, password: string)
    ensures var v := Login(w, r, id, password);
      Alone(w, v, r) && Turns(w, LoginRead(r, id, password), At(w, r), At(v, r))
  {
  }

  lemma UpgradeTurns(w: World, r: nat, salt: nat)
    ensures var v := Upgrade(w, r, salt); Alone(w, v, r) && Turns(w, LoginUpgrade(r, salt), At(w, r), At(v, r))
  {
    hide Rehash, NeedsUpgrade, HashPassword;
  }

  lemma CreateTurns(w: World, r: nat, id: UserId, name: string, password: string, salt: nat, epoch: int)
    ensures var v := CreateUser(w, r, id, User(name, HashPassword(password, salt), epoch));
      Alone(w, v, r) && Turns(w, RegisterInsert(r, id, name, password, salt, epoch), At(w, r), At(v, r))
  {
    hide HashPassword;
  }

  lemma CreatedTurns(w: World, r: nat)
    ensures var v := ReadCreated(w, r); Alone(w, v, r) && Turns(w, RegisterRead(r), At(w, r), At(v, r))
  {
  }

  lemma SessionTurns(w: World, r: nat, jti: string)
    ensures var v := Session(w, r, jti); Alone(w, v, r) && Turns(w, IssueSession(r, jti), At(w, r), At(v, r))
  {
    hide Issue;
  }

  lemma PresentTurns(w: World, r: nat, jti: string, op: Operation)
    ensures var v := PresentToken(w, r, jti, op); Alone(w, v, r) && Turns(w, Present(r, jti, op), At(w, r), At(v, r))
  {
  }

  lemma QueriesTurn(w: World, r: nat)
    ensures var v := TestRevoked(w, r); Alone(w, v, r) && Turns(w, CheckRevoked(r), At(w, r), At(v, r))
    ensures var v := TestEpoch(w, r); Alone(w, v, r) && Turns(w, CheckEpoch(r), At(w, r), At(v, r))
  {
  }

  lemma LogoutStampTurns(w: World, r: nat)
    ensures var v := StampLogout(w, r); Alone(w, v, r) && Turns(w, LogoutClock(r), At(w, r), At(v, r))
  {
  }

  lemma LogoutTurns(w: World, r: nat)
    ensures var v := PurgeStep(w, r); Alone(w, v, r) && Turns(w, LogoutPurge(r), At(w, r), At(v, r))
    ensures var v := RevokeStep(w, r); Alone(w, v, r) && Turns(w, LogoutInsert(r), At(w, r), At(v, r))
  {
    hide Purge, InsertRevoked;
  }

  lemma RefreshTurns(w: World, r: nat, jti: string)
    ensures var v := ReadForRefresh(w, r); Alone(w, v, r) && Turns(w, RefreshRead(r), At(w, r), At(v, r))
    ensures var v := RefreshStep(w, r, jti); Alone(w, v, r) && Turns(w, RefreshCommit(r, jti), At(w, r), At(v, r))
  {
    hide Issue, Refresh;
  }

  lemma ChangeReadTurns(w: World, r: nat)
    ensures var v := ReadForChange(w, r); Alone(w, v, r) && Turns(w, ChangeRead(r), At(w, r), At(v, r))
  {
  }

  lemma ChangeTurns(w: World, r: nat, salt: nat, jti: string)
    ensures var v := ChangeStep(w, r, salt, jti); Alone(w, v, r) && Turns(w, ChangeCommit(r, salt, jti), At(w, r), At(v, r))
  {
    hide SetPassword, Issue, HashPassword;
  }

  lemma FindTurns(w: World, r: nat, id: UserId)
    ensures var v := FindForReset(w, r, id); Alone(w, v, r) && Turns(w, ResetRead(r, id), At(w, r), At(v, r))
  {
  }

  lemma StampTurns(w: World, r: nat)
    ensures var v := StampReset(w, r); Alone(w, v, r) && Turns(w, ResetClock(r), At(w, r), At(v, r))
  {
  }

  lemma ResetTurns(w: World, r: nat, digest: string)
    ensures var v := InsertReset(w, r, digest); Alone(w, v, r) && Turns(w, ResetInsert(r, digest), At(w, r), At(v, r))
  {
    hide IsoText;
  }

  lemma ConfirmTurns(w: World, r: nat, digest: string, chosen: string, salt: nat)
    ensures var v := CheckReset(w, r, digest, chosen);
      Alone(w, v, r) && Turns(w, ConfirmRead(r, digest, chosen), At(w, r), At(v, r))
    ensures var v := ConfirmStep(w, r, salt); Alone(w, v, r) && Turns(w, ConfirmCommit(r, salt), At(w, r), At(v, r))
  {
    hide ConfirmReset, SetPassword, HashPassword, ResetUsable;
  }

  lemma EffectTurns(w: World, a: Action)
    requires !a.Tick?
    ensures Alone(w, Effect(w, a), a.r) && Turns(w, a, At(w, a.r), At(Effect(w, a), a.r))
  {
    hide Turns, Alone, At, Login, Upgrade, CreateUser, ReadCreated, Session, PresentToken, TestRevoked, TestEpoch, StampLogout,
      PurgeStep, RevokeStep, ReadForRefresh, RefreshStep, ReadForChange, ChangeStep, FindForReset, StampReset, InsertReset,
      CheckReset, ConfirmStep;
    match a
    case Abort(r) => AbortTurns(w, r);
    case LoginRead(r, id, password) => LoginTurns(w, r, id, password);
    case LoginUpgrade(r, salt) => UpgradeTurns(w, r, salt);
    case RegisterInsert(r, id, name, password, salt, epoch) => CreateTurns(w, r, id, name, password, salt, epoch);
    case RegisterRead(r) => CreatedTurns(w, r);
    case IssueSession(r, jti) => SessionTurns(w, r, jti);
    case Present(r, jti, op) => PresentTurns(w, r, jti, op);
    case CheckRevoked(r) => QueriesTurn(w, r);
    case CheckEpoch(r) => QueriesTurn(w, r);
    case LogoutClock(r) => LogoutStampTurns(w, r);
    case LogoutPurge(r) => LogoutTurns(w, r);
    case LogoutInsert(r) => LogoutTurns(w, r);
    case RefreshRead(r) => RefreshTurns(w, r, "");
    case RefreshCommit(r, jti) => RefreshTurns(w, r, jti);
    case ChangeRead(r) => ChangeReadTurns(w, r);
    case ChangeCommit(r, salt, jti) => ChangeTurns(w, r, salt, jti);
    case ResetRead(r, id) => FindTurns(w, r, id);
    case ResetClock(r) => StampTurns(w, r);
    case ResetInsert(r, digest) => ResetTurns(w, r, digest);
    case ConfirmRead(r, digest, chosen) => ConfirmTurns(w, r, digest, chosen, 0);
    case ConfirmCommit(r, salt) => ConfirmTurns(w, r, "", "", salt);
  }

  lemma AbortTurns(w: World, r: nat)
    ensures Alone(w, Go(w, r, Idle), r) && Turns(w, Abort(r), At(w, r), At(Go(w, r, Idle), r))
  {
  }

  /** What any action does to any request. */
  lemma StepTurns(w: World, a: Action, r: nat)
    ensures At(Apply(w, a), r) == At(w, r) || (!a.Tick? && a.r == r && Turns(w, a, At(w, r), At(Apply(w, a), r)))
  {
    if a.Tick? {
      TickTurns(w, a.d, r);
    } else {
      hide Effect, Turns;
      EffectTurns(w, a);
    }
  }

  lemma TickTurns(w: World, d: nat, r: nat)
    ensures At(Apply(w, Tick(d)), r) == At(w, r)
  {
  }

  // ---------- who gets in ----------

  /** A login goes on exactly with the password that the account's last change, reset or registration chose. */
  lemma LoginGoesOnIff(w: World, r: nat, id: UserId, password: string)
    requires Reachable(w) && At(w, r).Idle?
    ensures !At(Apply(w, LoginRead(r, id, password)), r).Idle? <==>
      id in w.rows.users && Intended(w.origin, w.changes, id) == Some(password)
  {
    hide Reachable, Intended;
    if id in w.rows.users {
      PasswordIsLastChosen(w, id);
    }
  }

  /** A token is taken exactly before the whole second that its expiry names. */
  lemma PresentGoesOnIff(w: World, r: nat, jti: string, op: Operation)
    requires At(w, r).Idle? && jti in w.tokens
    ensures
      var v := Apply(w, Present(r, jti, op));
      && (!At(v, r).Idle? <==> w.clock < 1_000_000 * w.tokens[jti].claims.exp)
      && (!At(v, r).Idle? ==> At(v, r) == Presented(w.tokens[jti].claims, op))
  {
  }

  predicate Carries(q: Request, jti: string) {
    HasClaims(q) && q.claims.jti == jti
  }

  /** Only presenting a token in time makes a request carry it. */
  lemma CarriedByPresenting(w: World, a: Action, r: nat, jti: string)
    requires !Carries(At(w, r), jti) && Carries(At(Apply(w, a), r), jti)
    requires forall j :: j in w.tokens ==> w.tokens[j].claims.jti == j
    ensures a.Present? && a.r == r && a.jti == jti && jti in w.tokens && w.clock < 1_000_000 * w.tokens[jti].claims.exp
  {
    hide Apply;
    StepTurns(w, a, r);
  }

  /** Once the clock has reached the expiry, no request that has not presented the token is ever identified by it. */
  lemma {:induction false} ExpiredNeverPresented(w: World, after: seq<Action>, r: nat, jti: string)
    requires Reachable(w) && jti in w.tokens && 1_000_000 * w.tokens[jti].claims.exp <= w.clock
    requires !Carries(At(w, r), jti)
    ensures !Carries(At(Run(w, after), r), jti)
    decreases |after|
  {
    hide Apply, Reachable, Carries, SessionInvariant.Inv;
    if after != [] {
      var u := Apply(w, after[0]);
      ReachableStep(w, after[0]);
      ReachableInv(w);
      TokensOwnTheirNames(w);
      StepGrows(w, after[0]);
      if Carries(At(u, r), jti) {
        CarriedByPresenting(w, after[0], r, jti);
        assert false;
      }
      ExpiredNeverPresented(u, after[1..], r, jti);
    }
  }

  lemma TokensOwnTheirNames(w: World)
    requires SessionInvariant.Inv(w)
    ensures forall j :: j in w.tokens ==> w.tokens[j].claims.jti == j
  {
  }

  // ---------- what one step adds ----------

  predicate NewToken(w: World, a: Action, jti: string, k: Token) {
    match a
    case IssueSession(r, j) =>
      var q := At(w, r);
      && j == jti && q.Ready? && k.readAt == q.snap.readAt && k.root == jti
      && k.claims.sub == q.snap.id && k.claims.ver == q.snap.user.epoch
    case RefreshCommit(r, j) =>
      var q := At(w, r);
      && j == jti && q.Renewing? && q.claims.sub in w.rows.users && k.readAt == w.step && k.root == Root(w.tokens, q.claims.jti)
      && k.claims.sub == q.claims.sub && k.claims.ver == w.rows.users[q.claims.sub].epoch
    case ChangeCommit(r, _, j) =>
      var q := At(w, r);
      && j == jti && q.Changing? && q.snap.id in w.rows.users && k.readAt == w.step && k.root == jti
      && k.claims.sub == q.snap.id && k.claims.ver == w.rows.users[q.snap.id].epoch + 1
    case _ => false
  }

  /** An hour to run, to the whole second. */
  predicate HourToRun(w: World, k: Token) {
    1_000_000 * k.claims.exp <= w.clock + 3_600_000_000 < 1_000_000 * (k.claims.exp + 1)
  }

  predicate NewChange(w: World, a: Action, x: Change) {
    match a
    case ChangeCommit(r, _, _) =>
      var q := At(w, r);
      && q.Changing? && x.user == q.snap.id && x.chosen == q.chosen && x.at == w.step
      && x.cause.Confirmed? && x.cause.current == q.current
    case ConfirmCommit(r, _) =>
      var q := At(w, r);
      && q.Confirming? && q.digest in w.rows.resets && x.user == w.rows.resets[q.digest].user && x.chosen == q.chosen
      && x.at == w.step && x.cause.ByReset? && x.cause.digest == q.digest
    case _ => false
  }

  predicate NewReset(w: World, a: Action, digest: string, row: ResetRow) {
    && a.ResetInsert? && a.digest == digest && At(w, a.r).ResetStamped? && row.user == At(w, a.r).id && !row.used
  }

  predicate NewRevocation(w: World, a: Action, jti: string) {
    || (a.LogoutInsert? && At(w, a.r).Purged? && At(w, a.r).claims.jti == jti)
    || (a.RefreshCommit? && At(w, a.r).Renewing? && At(w, a.r).claims.jti == jti)
  }

  ghost predicate NewUser(w: World, a: Action, id: UserId, user: User) {
    && a.RegisterInsert? && a.id == id && user.username == a.username && Secret(user.hash) == Some(a.password)
    && user.epoch == a.epoch && forall i :: i in w.rows.users ==> w.rows.users[i].username != a.username
  }

  ghost predicate AddsTokens(w: World, a: Action, v: World) {
    && (forall j :: j in v.tokens && j !in w.tokens ==> NewToken(w, a, j, v.tokens[j]) && HourToRun(w, v.tokens[j]))
    && (forall j :: j in w.tokens ==> j in v.tokens && v.tokens[j] == w.tokens[j])
    && (forall j :: j in v.revokedEver && j !in w.revokedEver ==> NewRevocation(w, a, j))
    && (v.forkedRoots == w.forkedRoots || Forks(w, a, v))
  }

  /** Only refreshing a token that had been revoked before marks its family. */
  predicate Forks(w: World, a: Action, v: World) {
    && a.RefreshCommit? && At(w, a.r).Renewing? && At(w, a.r).claims.jti in w.revokedEver
    && v.forkedRoots == w.forkedRoots + {Root(w.tokens, At(w, a.r).claims.jti)}
  }

  ghost predicate AddsChanges(w: World, a: Action, v: World) {
    v.changes == w.changes || exists x :: v.changes == w.changes + [x] && NewChange(w, a, x)
  }

  ghost predicate AddsResets(w: World, a: Action, v: World) {
    && (forall d :: d in v.rows.resets && d !in w.rows.resets ==> NewReset(w, a, d, v.rows.resets[d]))
    && (forall d :: d in w.rows.resets ==> d in v.rows.resets && v.rows.resets[d].user == w.rows.resets[d].user)
  }

  ghost predicate AddsUsers(w: World, a: Action, v: World) {
    && (forall id :: id in v.rows.users && id !in w.rows.users ==> NewUser(w, a, id, v.rows.users[id]))
    && (forall id :: id in w.rows.users ==> id in v.rows.users && v.rows.users[id].username == w.rows.users[id].username)
    && (forall id :: id in v.origin && id !in w.origin ==> a.RegisterInsert? && a.id == id && v.origin[id] == Some(a.password))
    && (forall id :: id in w.origin ==> id in v.origin && v.origin[id] == w.origin[id])
  }

  /** Everything that a step adds comes from the request that makes it. */
  ghost predicate Adds(w: World, a: Action, v: World) {
    AddsTokens(w, a, v) && AddsChanges(w, a, v) && AddsResets(w, a, v) && AddsUsers(w, a, v)
  }

  /** The step leaves tables, tokens and history alone. */
  ghost predicate AddsNothing(w: World, v: World) {
    && v.tokens == w.tokens && v.changes == w.changes && v.rows.resets == w.rows.resets && v.revokedEver == w.revokedEver
    && v.rows.users == w.rows.users && v.origin == w.origin && v.forkedRoots == w.forkedRoots
  }

  lemma NothingIsFine(w: World, a: Action, v: World)
    requires AddsNothing(w, v)
    ensures Adds(w, a, v)
  {
  }

  lemma PasswordReadersAdd(w: World, r: nat, id: UserId, password: string)
    ensures AddsNothing(w, Login(w, r, id, password)) && AddsNothing(w, ReadCreated(w, r)) && AddsNothing(w, ReadForChange(w, r))
  {
    hide Verifies;
  }

  lemma TokenReadersAdd(w: World, r: nat, jti: string, op: Operation)
    ensures AddsNothing(w, PresentToken(w, r, jti, op)) && AddsNothing(w, TestRevoked(w, r)) && AddsNothing(w, TestEpoch(w, r))
    ensures AddsNothing(w, StampLogout(w, r)) && AddsNothing(w, ReadForRefresh(w, r)) && AddsNothing(w, PurgeStep(w, r))
  {
    hide Unexpired, IsoText;
  }

  lemma ResetReadersAdd(w: World, r: nat, id: UserId, digest: string, chosen: string)
    ensures AddsNothing(w, FindForReset(w, r, id)) && AddsNothing(w, StampReset(w, r))
    ensures AddsNothing(w, CheckReset(w, r, digest, chosen)) && AddsNothing(w, Go(w, r, Idle))
  {
    hide ResetUsable;
  }

  lemma UpgradeAdds(w: World, r: nat, salt: nat)
    ensures Adds(w, LoginUpgrade(r, salt), Upgrade(w, r, salt))
  {
    hide NeedsUpgrade, HashPassword;
  }

  lemma CreateAdds(w: World, r: nat, id: UserId, name: string, password: string, salt: nat, epoch: int)
    requires w.origin.Keys == w.rows.users.Keys
    ensures Adds(w, RegisterInsert(r, id, name, password, salt, epoch),
                 CreateUser(w, r, id, User(name, HashPassword(password, salt), epoch)))
  {
    CreateAddsUser(w, r, id, name, password, salt, epoch);
    hide AddsUsers, HashPassword, Secret;
  }

  lemma CreateAddsUser(w: World, r: nat, id: UserId, name: string, password: string, salt: nat, epoch: int)
    requires w.origin.Keys == w.rows.users.Keys
    ensures AddsUsers(w, RegisterInsert(r, id, name, password, salt, epoch),
                      CreateUser(w, r, id, User(name, HashPassword(password, salt), epoch)))
  {
    HashKeepsSecret(password, salt);
    hide HashPassword, Secret;
  }

  lemma HashKeepsSecret(password: string, salt: nat)
    ensures Secret(HashPassword(password, salt)) == Some(password)
  {
  }

  lemma SessionAdds(w: World, r: nat, jti: string)
    ensures Adds(w, IssueSession(r, jti), Session(w, r, jti))
  {
  }

  lemma RevokeAdds(w: World, r: nat)
    ensures Adds(w, LogoutInsert(r), RevokeStep(w, r))
  {
    hide IsoText;
  }

  lemma RefreshAdds(w: World, r: nat, jti: string)
    ensures Adds(w, RefreshCommit(r, jti), RefreshStep(w, r, jti))
  {
    hide Revoke, Active;
    if RefreshCommits(w, r, jti) {
      RevokeRows(w.rows, At(w, r).claims, w.clock);
      ActiveHasUser(w.rows, At(w, r).claims);
    }
  }

  lemma ActiveHasUser(t: Tables, c: Claims)
    ensures Active(t, c) ==> c.sub in t.users
  {
  }

  lemma InsertAdds(w: World, r: nat, digest: string)
    ensures Adds(w, ResetInsert(r, digest), InsertReset(w, r, digest))
  {
    hide IsoText;
  }

  lemma PasswordRows(t: Tables, id: UserId, hash: Hash)
    ensures SetPassword(t, id, hash).users.Keys == t.users.Keys && SetPassword(t, id, hash).resets.Keys == t.resets.Keys
    ensures forall i :: i in t.users ==> SetPassword(t, id, hash).users[i].username == t.users[i].username
    ensures forall d :: d in t.resets ==> SetPassword(t, id, hash).resets[d].user == t.resets[d].user
    ensures id in t.users ==> SetPassword(t, id, hash).users[id].epoch == t.users[id].epoch + 1
  {
  }

  /** The same accounts and reset rows, whatever became of them. */
  predicate SameKeys(t: Tables, s: Tables) {
    && s.users.Keys == t.users.Keys && s.resets.Keys == t.resets.Keys
    && (forall i :: i in t.users ==> s.users[i].username == t.users[i].username)
    && (forall d :: d in t.resets ==> s.resets[d].user == t.resets[d].user)
  }

  lemma SameKeysAdd(w: World, a: Action, v: World)
    requires SameKeys(w.rows, v.rows) && v.origin == w.origin
    ensures AddsResets(w, a, v) && AddsUsers(w, a, v)
  {
    hide NewUser, NewReset;
  }

  /** What a password commit does by itself, to the tables and to the history. */
  lemma CommitAdds(w: World, id: UserId, salt: nat, chosen: string, cause: Cause)
    ensures
      var v := CommitPassword(w, id, salt, chosen, cause);
      && SameKeys(w.rows, v.rows) && v.origin == w.origin
      && v.changes == w.changes + [Change(id, w.step, chosen, cause)]
      && v.tokens == w.tokens && v.revokedEver == w.revokedEver && v.clock == w.clock && v.step == w.step
      && v.forkedRoots == w.forkedRoots
      && (id in w.rows.users ==> v.rows.users[id].epoch == w.rows.users[id].epoch + 1)
  {
    hide SetPassword, HashPassword;
    PasswordRows(w.rows, id, HashPassword(chosen, salt));
  }

  lemma ChangeAdds(w: World, r: nat, salt: nat, jti: string)
    ensures Adds(w, ChangeCommit(r, salt, jti), ChangeStep(w, r, salt, jti))
  {
    hide CommitPassword, SetPassword, HashPassword, AddsResets, AddsUsers, NewRevocation, SameKeys;
    var a, q, v := ChangeCommit(r, salt, jti), At(w, r), ChangeStep(w, r, salt, jti);
    if q.Changing? && q.snap.id in w.rows.users {
      CommitAdds(w, q.snap.id, salt, q.chosen, Confirmed(q.current, w.rows.users[q.snap.id].hash));
    }
    KeysItself(w.rows);
    SameKeysAdd(w, a, v);
  }

  lemma KeysItself(t: Tables)
    ensures SameKeys(t, t)
  {
  }

  lemma UsableHasRow(t: Tables, digest: string, hash: Hash, now: Instant)
    ensures ConfirmReset(t, digest, hash, now).Some? ==> digest in t.resets
  {
    hide IsoText;
  }

  lemma ConfirmCommits(w: World, r: nat, salt: nat)
    ensures
      var q, v := At(w, r), ConfirmStep(w, r, salt);
      && v.tokens == w.tokens && v.revokedEver == w.revokedEver && v.origin == w.origin && v.forkedRoots == w.forkedRoots
      && ((v.rows == w.rows && v.changes == w.changes)
          || (q.Confirming? && q.digest in w.rows.resets && SameKeys(w.rows, v.rows)
              && v.changes == w.changes
                   + [Change(w.rows.resets[q.digest].user, w.step, q.chosen, ByReset(q.digest, IssuedAt(w, q.digest)))]))
  {
    hide CommitPassword, ConfirmReset, HashPassword, SameKeys;
    var q := At(w, r);
    if q.Confirming? {
      UsableHasRow(w.rows, q.digest, HashPassword(q.chosen, salt), w.clock);
      if q.digest in w.rows.resets {
        CommitAdds(w, w.rows.resets[q.digest].user, salt, q.chosen, ByReset(q.digest, IssuedAt(w, q.digest)));
      }
    }
  }

  lemma ConfirmAdds(w: World, r: nat, salt: nat)
    ensures Adds(w, ConfirmCommit(r, salt), ConfirmStep(w, r, salt))
  {
    hide ConfirmStep, AddsResets, AddsUsers, NewToken, NewRevocation, HourToRun, SameKeys;
    ConfirmCommits(w, r, salt);
    KeysItself(w.rows);
    SameKeysAdd(w, ConfirmCommit(r, salt), ConfirmStep(w, r, salt));
  }

  lemma TickAdds(w: World, d: nat)
    ensures AddsNothing(w, Effect(w, Tick(d)))
  {
    hide Login, Upgrade, CreateUser, ReadCreated, Session, PresentToken, TestRevoked, TestEpoch, StampLogout, PurgeStep,
      RevokeStep, ReadForRefresh, RefreshStep, ReadForChange, ChangeStep, FindForReset, StampReset, InsertReset, CheckReset,
      ConfirmStep;
  }

  lemma EffectAdds(w: World, a: Action)
    requires w.origin.Keys == w.rows.users.Keys
    ensures Adds(w, a, Effect(w, a))
  {
    hide Adds, AddsNothing, Login, Upgrade, CreateUser, ReadCreated, Session, PresentToken, TestRevoked, TestEpoch, StampLogout,
      PurgeStep, RevokeStep, ReadForRefresh, RefreshStep, ReadForChange, ChangeStep, FindForReset, StampReset, InsertReset,
      CheckReset, ConfirmStep;
    if a.LoginUpgrade? || a.RegisterInsert? || a.IssueSession? || a.LogoutInsert? || a.RefreshCommit? || a.ChangeCommit?
      || a.ResetInsert? || a.ConfirmCommit? {
      match a
      case LoginUpgrade(r, salt) => UpgradeAdds(w, r, salt);
      case RegisterInsert(r, id, name, password, salt, epoch) => CreateAdds(w, r, id, name, password, salt, epoch);
      case IssueSession(r, jti) => SessionAdds(w, r, jti);
      case LogoutInsert(r) => RevokeAdds(w, r);
      case RefreshCommit(r, jti) => RefreshAdds(w, r, jti);
      case ChangeCommit(r, salt, jti) => ChangeAdds(w, r, salt, jti);
      case ResetInsert(r, digest) => InsertAdds(w, r, digest);
      case ConfirmCommit(r, salt) => ConfirmAdds(w, r, salt);
    } else {
      match a
      case Tick(d) => TickAdds(w, d);
      case Abort(r) => ResetReadersAdd(w, r, 0, "", "");
      case LoginRead(r, id, password) => PasswordReadersAdd(w, r, id, password);
      case RegisterRead(r) => PasswordReadersAdd(w, r, 0, "");
      case ChangeRead(r) => PasswordReadersAdd(w, r, 0, "");
      case Present(r, jti, op) => TokenReadersAdd(w, r, jti, op);
      case CheckRevoked(r) => TokenReadersAdd(w, r, "", LogOut);
      case CheckEpoch(r) => TokenReadersAdd(w, r, "", LogOut);
      case LogoutClock(r) => TokenReadersAdd(w, r, "", LogOut);
      case LogoutPurge(r) => TokenReadersAdd(w, r, "", LogOut);
      case RefreshRead(r) => TokenReadersAdd(w, r, "", LogOut);
      case ResetRead(r, id) => ResetReadersAdd(w, r, id, "", "");
      case ResetClock(r) => ResetReadersAdd(w, r, 0, "", "");
      case ConfirmRead(r, digest, chosen) => ResetReadersAdd(w, r, 0, digest, chosen);
    }
    if AddsNothing(w, Effect(w, a)) {
      NothingIsFine(w, a, Effect(w, a));
    }
  }

  lemma RevokeRows(t: Tables, c: Claims, now: Instant)
    ensures Revoke(t, c, now).users == t.users && Revoke(t, c, now).resets == t.resets
  {
    hide IsoText;
  }
}
