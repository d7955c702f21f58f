/**
 What every interleaving of the credential protocol keeps. Each statement quantifies over every initial database
 and every sequence of actions.
 */
module SessionSafety {
  import opened Outcomes
  import opened Accounts
  import opened Sessions
  import opened SessionInvariant
  import T = Timestamps

  ghost predicate Reachable(w: World) {
    exists w0, actions :: Init(w0) && w == Run(w0, actions)
  }

  lemma ReachableInv(w: World)
    requires Reachable(w)
    ensures Inv(w)
  {
    var w0, actions :| Init(w0) && w == Run(w0, actions);
    InitOk(w0);
    RunKeeps(w0, actions);
  }

  lemma ReachableOn(w: World, actions: seq<Action>)
    requires Reachable(w)
    ensures Reachable(Run(w, actions))
  {
    var w0, before :| Init(w0) && w == Run(w0, before);
    RunSplit(w0, before, actions);
  }

  lemma {:induction false} RunSplit(w: World, first: seq<Action>, second: seq<Action>)
    ensures Run(w, first + second) == Run(Run(w, first), second)
    decreases |first|
  {
    if first == [] {
      assert first + second == second;
    } else {
      assert (first + second)[1..] == first[1..] + second;
      RunSplit(Apply(w, first[0]), first[1..], second);
    }
  }

  /**
   Would the expiry test and the two queries all pass if they ran together at this instant? A request runs them
   one after the other; see below for what one request sees.
   */
  predicate Accepted(w: World, c: Claims) {
    Unexpired(c, w.clock) && Active(w.rows, c)
  }

  /** No change of this user's password was committed after the step. */
  ghost predicate NoChangeAfter(w: World, id: UserId, at: nat) {
    forall i :: 0 <= i < |w.changes| && w.changes[i].user == id ==> w.changes[i].at <= at
  }

  lemma {:induction false} LastChangeIn(changes: seq<Change>, id: UserId)
    ensures LastChange(changes, id).Some? ==>
      exists i :: 0 <= i < |changes| && changes[i] == LastChange(changes, id).value && changes[i].user == id
  {
    if changes != [] && changes[|changes| - 1].user != id {
      LastChangeIn(changes[..|changes| - 1], id);
    }
  }

  /** The recorded date of a user's last change covers exactly the changes logged for that user. */
  lemma DateIsLogged(w: World, id: UserId, at: nat)
    requires Inv(w) && id in w.rows.users
    ensures id in w.changedAt && (w.changedAt[id] <= at <==> NoChangeAfter(w, id, at))
  {
    LastChangeIn(w.changes, id);
    forall i | 0 <= i < |w.changes| && w.changes[i].user == id
      ensures w.changes[i].at <= w.changedAt[id]
    {
      assert ChangeOk(w.changes[i], w.changedAt, w.issuedAt);
    }
  }

  /**
   At any one instant the table check is the ideal one: a token is accepted exactly when it has not expired, was
   never revoked by a logout or refresh, and its epoch was read from the user's row at or after the last password
   change or reset.
   */
  lemma AcceptedIffCurrent(w: World, jti: string)
    requires Reachable(w) && jti in w.tokens
    ensures Accepted(w, w.tokens[jti].claims) <==>
      && Unexpired(w.tokens[jti].claims, w.clock)
      && jti !in w.revokedEver
      && NoChangeAfter(w, w.tokens[jti].claims.sub, w.tokens[jti].readAt)
  {
    ReachableInv(w);
    TokenHeld(w, jti);
    DateIsLogged(w, w.tokens[jti].claims.sub, w.tokens[jti].readAt);
  }

  /** The epoch query of a request passes exactly when no change was committed after the token's row was read. */
  lemma IdentifiedIffCurrent(w: World, r: nat)
    requires Reachable(w) && At(w, r).NotRevoked?
    ensures
      var c := At(w, r).claims;
      && c.jti in w.tokens && w.tokens[c.jti].claims == c
      && (At(TestEpoch(w, r), r).Identified? <==> NoChangeAfter(w, c.sub, w.tokens[c.jti].readAt))
  {
    hide RequestsOk, UsersOk, TokensOk, RevokedOk, ResetsOk, ChangesOk, FamiliesOk;
    ReachableInv(w);
    AtOk(w, r);
    var c := At(w, r).claims;
    TokenHeld(w, c.jti);
    DateIsLogged(w, c.sub, w.tokens[c.jti].readAt);
  }

  // ---------- runs only add ----------

  ghost predicate Grows(w: World, v: World) {
    && w.clock <= v.clock
    && w.revokedEver <= v.revokedEver
    && w.changes <= v.changes
    && (forall j :: j in w.tokens ==> j in v.tokens && v.tokens[j] == w.tokens[j])
  }

  /** A step that only moves its request on: nothing the clients or the tables hold changes. */
  ghost predicate Quiet(w: World, v: World) {
    && v.rows == w.rows && v.clock == w.clock && v.tokens == w.tokens
    && v.changes == w.changes && v.revokedEver == w.revokedEver && v.stamped == w.stamped
  }

  lemma PasswordReadersQuiet(w: World, r: nat, id: UserId, password: string)
    ensures Quiet(w, Login(w, r, id, password)) && Quiet(w, ReadCreated(w, r)) && Quiet(w, ReadForChange(w, r))
  {
    hide Verifies;
  }

  lemma TokenReadersQuiet(w: World, r: nat, jti: string, op: Operation)
    ensures Quiet(w, PresentToken(w, r, jti, op)) && Quiet(w, TestRevoked(w, r)) && Quiet(w, TestEpoch(w, r))
    ensures Quiet(w, StampLogout(w, r)) && Quiet(w, ReadForRefresh(w, r))
  {
    hide Unexpired;
  }

  lemma ResetReadersQuiet(w: World, r: nat, id: UserId, digest: string, chosen: string)
    ensures Quiet(w, FindForReset(w, r, id)) && Quiet(w, StampReset(w, r)) && Quiet(w, CheckReset(w, r, digest, chosen))
  {
    hide ResetUsable, IsoText;
  }

  lemma GoIsQuiet(w: World, r: nat, q: Request)
    ensures Quiet(w, Go(w, r, q))
  {
  }

  lemma ReadsAreQuiet(w: World, a: Action)
    requires Reads(a) || a.Abort?
    ensures Quiet(w, Effect(w, a))
  {
    hide Quiet, Login, Upgrade, CreateUser, ReadCreated, Session, PresentToken, TestRevoked, TestEpoch, StampLogout, PurgeStep,
      RevokeStep, ReadForRefresh, RefreshStep, ReadForChange, ChangeStep, FindForReset, StampReset, InsertReset, CheckReset,
      ConfirmStep;
    match a
    case Abort(r) => GoIsQuiet(w, r, Idle);
    case LoginRead(r, id, password) => PasswordReadersQuiet(w, r, id, password);
    case RegisterRead(r) => PasswordReadersQuiet(w, r, 0, "");
    case ChangeRead(r) => PasswordReadersQuiet(w, r, 0, "");
    case Present(r, jti, op) => TokenReadersQuiet(w, r, jti, op);
    case CheckRevoked(r) => TokenReadersQuiet(w, r, "", LogOut);
    case CheckEpoch(r) => TokenReadersQuiet(w, r, "", LogOut);
    case LogoutClock(r) => TokenReadersQuiet(w, r, "", LogOut);
    case RefreshRead(r) => TokenReadersQuiet(w, r, "", LogOut);
    case ResetRead(r, id) => ResetReadersQuiet(w, r, id, "", "");
    case ResetClock(r) => ResetReadersQuiet(w, r, 0, "", "");
    case ConfirmRead(r, digest, chosen) => ResetReadersQuiet(w, r, 0, digest, chosen);
  }

  lemma LoginsGrow(w: World, r: nat, salt: nat, id: UserId, user: User, jti: string)
    ensures Grows(w, Upgrade(w, r, salt)) && Grows(w, CreateUser(w, r, id, user)) && Grows(w, Session(w, r, jti))
  {
    hide Rehash, Register, Issue, NeedsUpgrade;
  }

  lemma RevokersGrow(w: World, r: nat, jti: string)
    ensures Grows(w, PurgeStep(w, r)) && Grows(w, RevokeStep(w, r)) && Grows(w, RefreshStep(w, r, jti))
  {
    hide Purge, InsertRevoked, Refresh, Issue;
  }

  lemma ChangeGrows(w: World, r: nat, salt: nat, jti: string)
    ensures Grows(w, ChangeStep(w, r, salt, jti))
  {
    hide SetPassword, ChangePassword, Issue, HashPassword;
  }

  lemma ResetsGrow(w: World, r: nat, salt: nat, digest: string)
    ensures Grows(w, InsertReset(w, r, digest)) && Grows(w, ConfirmStep(w, r, salt))
  {
    hide SetPassword, ConfirmReset, HashPassword;
  }

  lemma EffectGrows(w: World, a: Action)
    ensures Grows(w, Effect(w, a))
  {
    hide Login, Upgrade, CreateUser, ReadCreated, Session, PresentToken, TestRevoked, TestEpoch, StampLogout, PurgeStep,
      RevokeStep, ReadForRefresh, RefreshStep, ReadForChange, ChangeStep, FindForReset, StampReset, InsertReset, CheckReset,
      ConfirmStep;
    if Reads(a) || a.Abort? {
      ReadsAreQuiet(w, a);
    } else {
      match a
      case Tick(d) =>
      case LoginUpgrade(r, salt) => LoginsGrow(w, r, salt, 0, User("", Unreadable(""), 0), "");
      case RegisterInsert(r, id, name, password, salt, epoch) =>
        LoginsGrow(w, r, 0, id, User(name, HashPassword(password, salt), epoch), "");
      case IssueSession(r, jti) => LoginsGrow(w, r, 0, 0, User("", Unreadable(""), 0), jti);
      case LogoutPurge(r) => RevokersGrow(w, r, "");
      case LogoutInsert(r) => RevokersGrow(w, r, "");
      case RefreshCommit(r, jti) => RevokersGrow(w, r, jti);
      case ChangeCommit(r, salt, jti) => ChangeGrows(w, r, salt, jti);
      case ResetInsert(r, digest) => ResetsGrow(w, r, 0, digest);
      case ConfirmCommit(r, salt) => ResetsGrow(w, r, salt, "");
    }
  }

  lemma StepGrows(w: World, a: Action)
    ensures Grows(w, Apply(w, a))
  {
    hide Effect;
    EffectGrows(w, a);
  }

  lemma {:induction false} RunGrows(w: World, actions: seq<Action>)
    ensures Grows(w, Run(w, actions))
    decreases |actions|
  {
    if actions != [] {
      StepGrows(w, actions[0]);
      RunGrows(Apply(w, actions[0]), actions[1..]);
    }
  }

  /**
   Once a change commits, whatever runs next: a token whose row was read before it is never accepted again, even
   one that a login in flight across the change has yet to issue.
   */
  lemma StaleTokenNeverAccepted(w: World, after: seq<Action>, i: nat, jti: string)
    requires Reachable(w) && i < |w.changes|
    requires jti in Run(w, after).tokens
    requires Run(w, after).tokens[jti].claims.sub == w.changes[i].user
    requires Run(w, after).tokens[jti].readAt < w.changes[i].at
    ensures !Accepted(Run(w, after), Run(w, after).tokens[jti].claims)
  {
    ReachableOn(w, after);
    RunGrows(w, after);
    AcceptedIffCurrent(Run(w, after), jti);
    assert Run(w, after).changes[i] == w.changes[i];
  }

  /** Purging loses no revocation at any one instant: a jti once revoked is in the table or has expired from then on. */
  lemma RevokedNeverAccepted(w: World, after: seq<Action>, jti: string)
    requires Reachable(w) && jti in w.revokedEver
    ensures
      var v := Run(w, after);
      && jti in v.tokens
      && (jti in v.rows.revoked || !Unexpired(v.tokens[jti].claims, v.clock))
      && !Accepted(v, v.tokens[jti].claims)
  {
    ReachableOn(w, after);
    RunGrows(w, after);
    ReachableInv(Run(w, after));
    TokenHeld(Run(w, after), jti);
  }

  // ---------- passwords ----------

  /** At every committed change-password, the current password given verifies the hash stored at that commit. */
  lemma ChangeConfirmsStoredPassword(w: World, r: nat, salt: nat, jti: string)
    requires Reachable(w)
    requires At(w, r).Changing? && ChangeStep(w, r, salt, jti).changes != w.changes
    ensures
      var v, id := ChangeStep(w, r, salt, jti), At(w, r).snap.id;
      && id in w.rows.users && id in v.rows.users
      && Verifies(At(w, r).current, w.rows.users[id].hash)
      && Secret(v.rows.users[id].hash) == Some(At(w, r).chosen)
      && v.rows.users[id].epoch == w.rows.users[id].epoch + 1
  {
    hide RequestsOk, UsersOk, TokensOk, RevokedOk, ResetsOk, ChangesOk, FamiliesOk;
    ReachableInv(w);
    AtOk(w, r);
  }

  /**
   A user's password is always the one the last committed change or reset chose: no interleaving of login
   re-hashes, which keep the epoch, brings an older one back.
   */
  lemma PasswordIsLastChosen(w: World, id: UserId)
    requires Reachable(w) && id in w.rows.users
    ensures Secret(w.rows.users[id].hash) == Intended(w.origin, w.changes, id)
  {
    ReachableInv(w);
  }

  /** A step moves a user's epoch up exactly when it logs a change of that user; otherwise the password stays. */
  ghost predicate EpochMoves(w: World, v: World, id: UserId)
    requires id in w.rows.users
  {
    && id in v.rows.users
    && var before, later := w.rows.users[id], v.rows.users[id];
       || (v.changes == w.changes && later.epoch == before.epoch && Secret(later.hash) == Secret(before.hash))
       || (exists x :: v.changes == w.changes + [x] && x.user == id && later.epoch == before.epoch + 1)
       || (exists x :: v.changes == w.changes + [x] && x.user != id && later == before)
  }

  lemma CommitMoves(w: World, v: World, x: Change, hash: Hash, id: UserId)
    requires id in w.rows.users && x.user in w.rows.users
    requires v.changes == w.changes + [x] && v.rows == SetPassword(w.rows, x.user, hash)
    ensures EpochMoves(w, v, id)
  {
  }

  lemma RevokeLeavesUsers(t: Tables, c: Claims, now: Instant)
    ensures Revoke(t, c, now).users == t.users
  {
  }

  lemma RefreshLeavesUsers(w: World, r: nat, jti: string)
    ensures RefreshStep(w, r, jti).rows.users == w.rows.users && RefreshStep(w, r, jti).changes == w.changes
  {
    hide Revoke, Active, Issue;
    if RefreshCommits(w, r, jti) {
      RevokeLeavesUsers(w.rows, At(w, r).claims, w.clock);
    }
  }

  lemma TokensLeaveUsers(w: World, r: nat, jti: string)
    ensures Session(w, r, jti).rows.users == w.rows.users && Session(w, r, jti).changes == w.changes
    ensures PurgeStep(w, r).rows.users == w.rows.users && PurgeStep(w, r).changes == w.changes
    ensures RevokeStep(w, r).rows.users == w.rows.users && RevokeStep(w, r).changes == w.changes
  {
    hide Issue, IsoText;
  }

  lemma UsersUntouched(w: World, a: Action)
    requires !a.LoginUpgrade? && !a.RegisterInsert? && !a.ChangeCommit? && !a.ConfirmCommit?
    ensures Apply(w, a).rows.users == w.rows.users && Apply(w, a).changes == w.changes
  {
    hide Login, Upgrade, CreateUser, ReadCreated, Session, PresentToken, TestRevoked, TestEpoch, StampLogout, PurgeStep,
      RevokeStep, ReadForRefresh, RefreshStep, ReadForChange, ChangeStep, FindForReset, StampReset, CheckReset,
      ConfirmStep;
    if Reads(a) || a.Abort? {
      ReadsAreQuiet(w, a);
    } else if a.RefreshCommit? {
      RefreshLeavesUsers(w, a.r, a.jti);
    } else if a.IssueSession? {
      TokensLeaveUsers(w, a.r, a.jti);
    } else if a.LogoutPurge? || a.LogoutInsert? {
      TokensLeaveUsers(w, a.r, "");
    }
  }

  lemma ChangeStepMoves(w: World, r: nat, salt: nat, jti: string, id: UserId)
    requires Inv(w) && id in w.rows.users
    ensures EpochMoves(w, ChangeStep(w, r, salt, jti), id)
  {
    hide Inv, SetPassword, Issue, HashPassword;
    var v := ChangeStep(w, r, salt, jti);
    if v.changes != w.changes {
      var s := At(w, r).snap;
      CommitMoves(w, v, v.changes[|w.changes|], HashPassword(At(w, r).chosen, salt), id);
    }
  }

  lemma ConfirmStepMoves(w: World, r: nat, salt: nat, id: UserId)
    requires Inv(w) && id in w.rows.users
    ensures EpochMoves(w, ConfirmStep(w, r, salt), id)
  {
    hide RequestsOk, UsersOk, TokensOk, RevokedOk, ResetsOk, ChangesOk, FamiliesOk;
    var v := ConfirmStep(w, r, salt);
    ResetsDated(w);
    if v.changes != w.changes {
      CommitMoves(w, v, v.changes[|w.changes|], HashPassword(At(w, r).chosen, salt), id);
    }
  }

  lemma UpgradeMoves(w: World, r: nat, salt: nat, id: UserId)
    requires Inv(w) && id in w.rows.users
    ensures EpochMoves(w, Upgrade(w, r, salt), id)
  {
    hide RequestsOk, UsersOk, TokensOk, RevokedOk, ResetsOk, ChangesOk, FamiliesOk;
    AtOk(w, r);
  }

  lemma CreateMoves(w: World, r: nat, user: User, added: UserId, id: UserId)
    requires id in w.rows.users
    ensures EpochMoves(w, CreateUser(w, r, added, user), id)
  {
  }

  lemma EpochMovesWithPassword(w: World, a: Action, id: UserId)
    requires Reachable(w) && id in w.rows.users
    ensures EpochMoves(w, Apply(w, a), id)
  {
    hide Inv, Reachable, Upgrade, CreateUser, ChangeStep, ConfirmStep;
    ReachableInv(w);
    if a.ChangeCommit? {
      ChangeStepMoves(w, a.r, a.salt, a.jti, id);
    } else if a.ConfirmCommit? {
      ConfirmStepMoves(w, a.r, a.salt, id);
    } else if a.LoginUpgrade? {
      UpgradeMoves(w, a.r, a.salt, id);
    } else if a.RegisterInsert? {
      CreateMoves(w, a.r, User(a.username, HashPassword(a.password, a.salt), a.epoch), a.id, id);
    } else {
      UsersUntouched(w, a);
    }
  }

  // ---------- reset tokens ----------

  /**
   Of two committed changes of one user, a later reset used a token inserted after the earlier change. So no
   reset token succeeds twice, and of the tokens outstanding together at any step at most one ever succeeds.
   */
  lemma ResetsUseNewTokens(w: World, i: nat, j: nat)
    requires Reachable(w) && i < j < |w.changes|
    requires w.changes[i].user == w.changes[j].user && w.changes[j].cause.ByReset?
    ensures w.changes[i].at < w.changes[j].cause.issuedAt < w.changes[j].at
    ensures w.changes[i].cause.ByReset? ==> w.changes[i].cause.digest != w.changes[j].cause.digest
  {
    ReachableInv(w);
    assert Ordered(w.changes[i], w.changes[j]);
    assert ChangeOk(w.changes[i], w.changedAt, w.issuedAt) && ChangeOk(w.changes[j], w.changedAt, w.issuedAt);
  }

  // ---------- refresh ----------

  predicate TimelyRefresh(w: World, a: Action, jti: string) {
    a.RefreshCommit? && RefreshCommits(w, a.r, a.jti) && At(w, a.r).claims.jti == jti && OnTime(w, At(w, a.r).claims)
  }

  /** How many refreshes of the token commit in a run while the clock has not passed its expiry. */
  function TimelyRefreshes(w: World, actions: seq<Action>, jti: string): nat
    decreases |actions|
  {
    if actions == [] then 0
    else
      (if TimelyRefresh(w, actions[0], jti) then 1 else 0) + TimelyRefreshes(Apply(w, actions[0]), actions[1..], jti)
  }

  lemma TimelyRefreshRevokes(w: World, a: Action, jti: string)
    requires Inv(w) && TimelyRefresh(w, a, jti)
    ensures jti !in w.revokedEver && jti in Apply(w, a).revokedEver
  {
    hide RequestsOk, UsersOk, TokensOk, RevokedOk, ResetsOk, ChangesOk, FamiliesOk;
    AtOk(w, a.r);
    var c := At(w, a.r).claims;
    if c.jti in w.revokedEver {
      RevokedIsInactive(w, c);
    }
  }

  lemma {:induction false} RefreshesBounded(w: World, actions: seq<Action>, jti: string)
    requires Inv(w)
    ensures TimelyRefreshes(w, actions, jti) <= if jti in w.revokedEver then 0 else 1
    decreases |actions|
  {
    hide Apply, Inv;
    if actions != [] {
      StepKeeps(w, actions[0]);
      StepGrows(w, actions[0]);
      if TimelyRefresh(w, actions[0], jti) {
        TimelyRefreshRevokes(w, actions[0], jti);
      }
      RefreshesBounded(Apply(w, actions[0]), actions[1..], jti);
    }
  }

  /** Among any number of concurrent refreshes of one token, at most one commits by its expiry. */
  lemma RefreshedOnceInTime(w0: World, actions: seq<Action>, jti: string)
    requires Init(w0)
    ensures TimelyRefreshes(w0, actions, jti) <= 1
  {
    InitOk(w0);
    RefreshesBounded(w0, actions, jti);
  }

  /**
   A login has at most one accepted token, unless somewhere in its family a token was refreshed that had been
   revoked before.
   */
  lemma FamilyHasOneSession(w: World, x: string, y: string)
    requires Reachable(w) && x in w.tokens && y in w.tokens && x != y
    requires w.tokens[x].root == w.tokens[y].root && w.tokens[x].root !in w.forkedRoots
    ensures !(Accepted(w, w.tokens[x].claims) && Accepted(w, w.tokens[y].claims))
  {
    ReachableInv(w);
    AcceptedIffCurrent(w, x);
    AcceptedIffCurrent(w, y);
  }

  /**
   The in-lock check does not look at the expiry again. A refresh that waits for the lock commits exactly when no
   row names its token and its epoch is current; if the token has been revoked, the row can only be missing after
   the expiry.
   */
  lemma RefreshCommitsIff(w: World, r: nat, jti: string)
    requires Reachable(w) && jti !in w.tokens && At(w, r).Renewing?
    ensures
      var c := At(w, r).claims;
      && c.jti in w.tokens
      && (RefreshCommits(w, r, jti) <==> c.jti !in w.rows.revoked && NoChangeAfter(w, c.sub, w.tokens[c.jti].readAt))
      && (c.jti in w.revokedEver && c.jti !in w.rows.revoked ==> InstantOf(c.exp) < w.clock)
  {
    hide RequestsOk, UsersOk, TokensOk, RevokedOk, ResetsOk, ChangesOk, FamiliesOk;
    ReachableInv(w);
    AtOk(w, r);
    var c := At(w, r).claims;
    TokenHeld(w, c.jti);
    DateIsLogged(w, c.sub, w.tokens[c.jti].readAt);
    RowOrExpired(w, c.jti);
  }

  lemma RowOrExpired(w: World, jti: string)
    requires Inv(w)
    ensures jti in w.revokedEver ==>
      jti in w.tokens && (jti in w.rows.revoked || InstantOf(w.tokens[jti].claims.exp) < w.clock)
  {
  }

  predicate Rival(w: World, root: string, jti: string, x: string) {
    x in w.tokens && x != jti && w.tokens[x].root == root && Accepted(w, w.tokens[x].claims)
  }

  /**
   Which commits fork a login: the new token is always accepted, and it has an accepted rival afterwards exactly
   when the token it replaces had one before, which needs that token to have been revoked or its family to have
   been forked already.
   */
  lemma CommitForksIff(w: World, r: nat, jti: string)
    requires Reachable(w) && RefreshCommits(w, r, jti)
    ensures
      var c, v := At(w, r).claims, Apply(w, RefreshCommit(r, jti));
      var root := Root(w.tokens, c.jti);
      && jti in v.tokens && v.tokens[jti].root == root && Accepted(v, v.tokens[jti].claims)
      && (forall x :: Rival(v, root, jti, x) <==> Rival(w, root, c.jti, x))
      && (c.jti !in w.revokedEver && root !in w.forkedRoots ==> forall x :: !Rival(w, root, c.jti, x))
  {
    hide RequestsOk, UsersOk, TokensOk, RevokedOk, ResetsOk, ChangesOk, FamiliesOk, Reachable, Accepted;
    var c, v := At(w, r).claims, Apply(w, RefreshCommit(r, jti));
    ReachableInv(w);
    AtOk(w, r);
    ReachableStep(w, RefreshCommit(r, jti));
    RefreshResult(w, r, jti);
    NewTokenAccepted(w, r, jti);
    forall x
      ensures Rival(v, Root(w.tokens, c.jti), jti, x) <==> Rival(w, Root(w.tokens, c.jti), c.jti, x)
      ensures c.jti !in w.revokedEver && Root(w.tokens, c.jti) !in w.forkedRoots ==> !Rival(w, Root(w.tokens, c.jti), c.jti, x)
    {
      if x in w.tokens {
        AcceptedIffCurrent(w, x);
        AcceptedIffCurrent(v, x);
        if c.jti !in w.revokedEver {
          RefreshFamily(w, c);
        }
      }
    }
  }

  lemma RefreshResult(w: World, r: nat, jti: string)
    requires RefreshCommits(w, r, jti)
    ensures
      var c, v := At(w, r).claims, Apply(w, RefreshCommit(r, jti));
      && c.sub in w.rows.users
      && v.tokens == w.tokens[jti := Token(Issue(c.sub, w.rows.users[c.sub].epoch, jti, w.clock), w.step, Root(w.tokens, c.jti))]
      && v.revokedEver == w.revokedEver + {c.jti} && v.changes == w.changes && v.clock == w.clock
      && v.rows == Revoke(w.rows, c, w.clock)
  {
    hide Revoke, Issue;
  }

  lemma NewTokenAccepted(w: World, r: nat, jti: string)
    requires Inv(w) && RefreshCommits(w, r, jti)
    ensures var v := Apply(w, RefreshCommit(r, jti)); jti in v.tokens && Accepted(v, v.tokens[jti].claims)
  {
    RefreshResult(w, r, jti);
    assert w.rows.revoked.Keys <= w.tokens.Keys;
  }

  lemma ReachableStep(w: World, a: Action)
    requires Reachable(w)
    ensures Reachable(Apply(w, a))
  {
    ReachableOn(w, [a]);
    assert Run(w, [a]) == Run(Apply(w, a), []);
  }

  // ---------- what one request sees ----------

  /** A purge, by whichever request and with whichever stamp, drops a row exactly when its token expired before. */
  lemma PurgeDecides(w: World, jti: string, now: Clock)
    requires Reachable(w) && jti in w.rows.revoked
    ensures jti in w.tokens
    ensures jti in Purge(w.rows, now).revoked <==> now <= InstantOf(w.tokens[jti].claims.exp)
  {
    ReachableInv(w);
    T.TextOrderIsTimeOrder(InstantOf(w.tokens[jti].claims.exp), now);
  }

  predicate PassesRevocation(w: World, r: nat) {
    At(w, r).Presented? && At(TestRevoked(w, r), r).NotRevoked?
  }

  /**
   load_identity tests expiry, revocation and epoch one after the other. Up to the expiry its revocation query is
   the ideal test; after it, the query also passes revoked tokens whose row has been purged.
   */
  lemma RevocationCheckIff(w: World, r: nat)
    requires Reachable(w) && At(w, r).Presented?
    ensures
      var c := At(w, r).claims;
      && c.jti in w.tokens && w.tokens[c.jti].claims == c
      && (OnTime(w, c) ==> (PassesRevocation(w, r) <==> c.jti !in w.revokedEver))
      && (PassesRevocation(w, r) <==> c.jti !in w.revokedEver || (InstantOf(c.exp) < w.clock && c.jti !in w.rows.revoked))
  {
    hide RequestsOk, UsersOk, TokensOk, ResetsOk, ChangesOk, FamiliesOk;
    ReachableInv(w);
    AtOk(w, r);
  }

  /** A purge right before the query lets a revoked token through exactly when its row was gone or is now too old. */
  lemma CheckAfterPurgeIff(w: World, r: nat, s: nat)
    requires Reachable(w) && At(w, r).Presented? && At(w, r).claims.jti in w.revokedEver && At(w, s).Stamped?
    ensures
      var c, now := At(w, r).claims, At(w, s).now;
      && (PassesRevocation(PurgeStep(w, s), r) <==> c.jti !in w.rows.revoked || InstantOf(c.exp) < now)
      && (now == w.clock ==> (PassesRevocation(PurgeStep(w, s), r) <==> InstantOf(c.exp) < w.clock))
  {
    hide RequestsOk, UsersOk, TokensOk, RevokedOk, ResetsOk, ChangesOk, FamiliesOk, Purge, Reachable;
    ReachableInv(w);
    AtOk(w, r);
    var c, now := At(w, r).claims, At(w, s).now;
    assert At(PurgeStep(w, s), r) == At(w, r);
    RowOrExpired(w, c.jti);
    PurgeOnlyDrops(w.rows, now);
    if c.jti in w.rows.revoked {
      PurgeDecides(w, c.jti, now);
    }
  }

  lemma PurgeOnlyDrops(t: Tables, now: Instant)
    ensures Purge(t, now).revoked.Keys <= t.revoked.Keys
  {
  }

  predicate Holds(q: Request, jti: string) {
    (q.Identified? || q.Stamped? || q.Purged? || q.Renewing?) && q.claims.jti == jti
  }

  predicate Passed(q: Request, jti: string) {
    Holds(q, jti) || (q.NotRevoked? && q.claims.jti == jti)
  }

  /** A request gets past the revocation query only by that query, and past the epoch query only by that one. */
  ghost predicate PassesByQueries(w: World, v: World, r: nat, jti: string) {
    && (Passed(At(v, r), jti) && !Passed(At(w, r), jti) ==>
          At(w, r).Presented? && At(w, r).claims.jti == jti && PassesRevocation(w, r))
    && (Holds(At(v, r), jti) && !Holds(At(w, r), jti) ==>
          At(w, r).NotRevoked? && At(w, r).claims.jti == jti && At(TestEpoch(w, r), r).Identified?)
  }

  predicate PassesNothing(q: Request, after: Request, jti: string) {
    (Passed(after, jti) ==> Passed(q, jti)) && (Holds(after, jti) ==> Holds(q, jti))
  }

  lemma LogoutsPass(w: World, i: nat, r: nat, jti: string)
    ensures PassesNothing(At(w, r), At(StampLogout(w, i), r), jti) && PassesNothing(At(w, r), At(PurgeStep(w, i), r), jti)
    ensures PassesNothing(At(w, r), At(RevokeStep(w, i), r), jti)
  {
    hide Purge, InsertRevoked;
  }

  lemma RefreshesPass(w: World, i: nat, next: string, r: nat, jti: string)
    ensures PassesNothing(At(w, r), At(RefreshStep(w, i, next), r), jti)
  {
    hide Issue, Refresh;
  }

  lemma WaitPasses(w: World, i: nat, r: nat, jti: string)
    ensures PassesNothing(At(w, r), At(ReadForRefresh(w, i), r), jti)
  {
  }

  lemma LoginsPass(w: World, i: nat, salt: nat, next: string, r: nat, jti: string)
    ensures PassesNothing(At(w, r), At(Upgrade(w, i, salt), r), jti) && PassesNothing(At(w, r), At(ReadCreated(w, i), r), jti)
    ensures PassesNothing(At(w, r), At(Session(w, i, next), r), jti)
  {
    hide Rehash, Issue, NeedsUpgrade;
  }

  lemma NewcomersPass(w: World, i: nat, id: UserId, user: User, password: string, r: nat, jti: string)
    ensures PassesNothing(At(w, r), At(CreateUser(w, i, id, user), r), jti)
    ensures PassesNothing(At(w, r), At(Login(w, i, id, password), r), jti)
  {
    hide Register, Verifies;
  }

  lemma ChangesPass(w: World, i: nat, salt: nat, next: string, r: nat, jti: string)
    ensures PassesNothing(At(w, r), At(ChangeStep(w, i, salt, next), r), jti)
  {
    hide SetPassword, ChangePassword, Issue, HashPassword;
  }

  lemma ChangeReadsPass(w: World, i: nat, r: nat, jti: string)
    ensures PassesNothing(At(w, r), At(ReadForChange(w, i), r), jti)
  {
    hide Verifies;
  }

  lemma ResetReadsPass(w: World, i: nat, id: UserId, digest: string, chosen: string, r: nat, jti: string)
    ensures PassesNothing(At(w, r), At(FindForReset(w, i, id), r), jti)
    ensures PassesNothing(At(w, r), At(StampReset(w, i), r), jti)
    ensures PassesNothing(At(w, r), At(CheckReset(w, i, digest, chosen), r), jti)
  {
    hide FindForReset, StampReset, CheckReset;
    FoundPasses(w, i, id, r, jti);
    StampPasses(w, i, r, jti);
    CheckPasses(w, i, digest, chosen, r, jti);
  }

  lemma FoundPasses(w: World, i: nat, id: UserId, r: nat, jti: string)
    ensures PassesNothing(At(w, r), At(FindForReset(w, i, id), r), jti)
  {
  }

  lemma StampPasses(w: World, i: nat, r: nat, jti: string)
    ensures PassesNothing(At(w, r), At(StampReset(w, i), r), jti)
  {
  }

  lemma CheckPasses(w: World, i: nat, digest: string, chosen: string, r: nat, jti: string)
    ensures PassesNothing(At(w, r), At(CheckReset(w, i, digest, chosen), r), jti)
  {
    hide ResetUsable;
  }

  lemma ResetWritesPass(w: World, i: nat, digest: string, salt: nat, r: nat, jti: string)
    ensures PassesNothing(At(w, r), At(InsertReset(w, i, digest), r), jti)
    ensures PassesNothing(At(w, r), At(ConfirmStep(w, i, salt), r), jti)
  {
    hide SetPassword, ConfirmReset, HashPassword;
  }

  lemma QueriesPass(w: World, i: nat, token: string, op: Operation, r: nat, jti: string)
    ensures PassesNothing(At(w, r), At(PresentToken(w, i, token, op), r), jti)
    ensures PassesByQueries(w, TestRevoked(w, i), r, jti) && PassesByQueries(w, TestEpoch(w, i), r, jti)
  {
    hide Unexpired;
  }

  /** Steps other than the two queries pass nothing. */
  predicate Queries(a: Action) {
    a.CheckRevoked? || a.CheckEpoch?
  }

  lemma TokenStepsPass(w: World, a: Action, r: nat, jti: string)
    requires a.Tick? || a.Abort? || a.Present? || a.LogoutClock? || a.LogoutPurge? || a.LogoutInsert? || a.RefreshRead?
      || a.RefreshCommit?
    ensures PassesNothing(At(w, r), At(Effect(w, a), r), jti)
  {
    hide Login, Upgrade, CreateUser, ReadCreated, Session, PresentToken, TestRevoked, TestEpoch, StampLogout, PurgeStep,
      RevokeStep, ReadForRefresh, RefreshStep, ReadForChange, ChangeStep, FindForReset, StampReset, InsertReset, CheckReset,
      ConfirmStep, PassesNothing;
    match a
    case Tick(d) => StaysPut(At(w, r), jti);
    case Abort(i) => AbortsPass(w, i, r, jti);
    case Present(i, token, op) => QueriesPass(w, i, token, op, r, jti);
    case LogoutClock(i) => LogoutsPass(w, i, r, jti);
    case LogoutPurge(i) => LogoutsPass(w, i, r, jti);
    case LogoutInsert(i) => LogoutsPass(w, i, r, jti);
    case RefreshRead(i) => WaitPasses(w, i, r, jti);
    case RefreshCommit(i, next) => RefreshesPass(w, i, next, r, jti);
  }

  lemma AccountStepsPass(w: World, a: Action, r: nat, jti: string)
    requires a.LoginRead? || a.RegisterInsert? || a.LoginUpgrade? || a.RegisterRead? || a.IssueSession? || a.ChangeRead?
      || a.ChangeCommit?
    ensures PassesNothing(At(w, r), At(Effect(w, a), r), jti)
  {
    hide Login, Upgrade, CreateUser, ReadCreated, Session, PresentToken, TestRevoked, TestEpoch, StampLogout, PurgeStep,
      RevokeStep, ReadForRefresh, RefreshStep, ReadForChange, ChangeStep, FindForReset, StampReset, InsertReset, CheckReset,
      ConfirmStep, PassesNothing;
    match a
    case LoginRead(i, id, password) => NewcomersPass(w, i, id, User("", Unreadable(""), 0), password, r, jti);
    case RegisterInsert(i, id, name, password, salt, epoch) =>
      NewcomersPass(w, i, id, User(name, HashPassword(password, salt), epoch), "", r, jti);
    case LoginUpgrade(i, salt) => LoginsPass(w, i, salt, "", r, jti);
    case RegisterRead(i) => LoginsPass(w, i, 0, "", r, jti);
    case IssueSession(i, next) => LoginsPass(w, i, 0, next, r, jti);
    case ChangeRead(i) => ChangeReadsPass(w, i, r, jti);
    case ChangeCommit(i, salt, next) => ChangesPass(w, i, salt, next, r, jti);
  }

  lemma ResetStepsPass(w: World, a: Action, r: nat, jti: string)
    requires a.ResetRead? || a.ResetClock? || a.ResetInsert? || a.ConfirmRead? || a.ConfirmCommit?
    ensures PassesNothing(At(w, r), At(Effect(w, a), r), jti)
  {
    hide Login, Upgrade, CreateUser, ReadCreated, Session, PresentToken, TestRevoked, TestEpoch, StampLogout, PurgeStep,
      RevokeStep, ReadForRefresh, RefreshStep, ReadForChange, ChangeStep, FindForReset, StampReset, InsertReset, CheckReset,
      ConfirmStep, PassesNothing;
    match a
    case ResetRead(i, id) => ResetReadsPass(w, i, id, "", "", r, jti);
    case ResetClock(i) => ResetReadsPass(w, i, 0, "", "", r, jti);
    case ConfirmRead(i, digest, chosen) => ResetReadsPass(w, i, 0, digest, chosen, r, jti);
    case ResetInsert(i, digest) => ResetWritesPass(w, i, digest, 0, r, jti);
    case ConfirmCommit(i, salt) => ResetWritesPass(w, i, "", salt, r, jti);
  }

  lemma StepPasses(w: World, a: Action, r: nat, jti: string)
    ensures PassesByQueries(w, Apply(w, a), r, jti)
  {
    if Queries(a) {
      hide TestRevoked, TestEpoch, PassesByQueries;
      QueriesPass(w, a.r, "", LogOut, r, jti);
      StepOnly(w, Effect(w, a), r, jti);
    } else {
      hide Effect, Passed, Holds, PassesRevocation, TestEpoch;
      if a.Tick? || a.Abort? || a.Present? || a.LogoutClock? || a.LogoutPurge? || a.LogoutInsert? || a.RefreshRead?
        || a.RefreshCommit? {
        TokenStepsPass(w, a, r, jti);
      } else if a.ResetRead? || a.ResetClock? || a.ResetInsert? || a.ConfirmRead? || a.ConfirmCommit? {
        ResetStepsPass(w, a, r, jti);
      } else {
        AccountStepsPass(w, a, r, jti);
      }
    }
  }

  lemma StepOnly(w: World, v: World, r: nat, jti: string)
    requires PassesByQueries(w, v, r, jti)
    ensures PassesByQueries(w, v.(step := w.step + 1), r, jti)
  {
    hide Passed, Holds, PassesRevocation, TestEpoch;
  }

  lemma StaysPut(q: Request, jti: string)
    ensures PassesNothing(q, q, jti)
  {
  }

  lemma AbortsPass(w: World, i: nat, r: nat, jti: string)
    ensures PassesNothing(At(w, r), At(Go(w, i, Idle), r), jti)
  {
  }

  /**
   Whatever runs next, a request that has not passed the revocation query when a token is revoked does not pass it
   with that token while the clock has not passed the expiry, so it is not identified by it.
   */
  lemma {:induction false} RevokedNotIdentifiedInTime(w: World, after: seq<Action>, r: nat, jti: string)
    requires Reachable(w) && jti in w.revokedEver && !Passed(At(w, r), jti)
    ensures
      var v := Run(w, after);
      jti in v.tokens && (v.clock <= InstantOf(v.tokens[jti].claims.exp) ==> !Passed(At(v, r), jti))
    decreases |after|
  {
    hide Reachable, PassesRevocation, Passed, Apply;
    ReachableInv(w);
    RowOrExpired(w, jti);
    if after != [] {
      var u, v := Apply(w, after[0]), Run(w, after);
      ReachableStep(w, after[0]);
      StepGrows(w, after[0]);
      RunGrows(u, after[1..]);
      if v.clock <= InstantOf(v.tokens[jti].claims.exp) {
        StepPasses(w, after[0], r, jti);
        if Passed(At(u, r), jti) {
          RevocationCheckIff(w, r);
          assert false;
        }
      }
      if !Passed(At(u, r), jti) {
        RevokedNotIdentifiedInTime(u, after[1..], r, jti);
      }
    }
  }

  /**
   A request that is not identified by a token when its user's password changes never will be, if the token's row
   was read before the change, expired or not.
   */
  lemma {:induction false} StaleTokenNeverIdentified(w: World, after: seq<Action>, i: nat, r: nat, jti: string)
    requires Reachable(w) && i < |w.changes| && !Holds(At(w, r), jti)
    requires
      var v := Run(w, after);
      jti in v.tokens && v.tokens[jti].claims.sub == w.changes[i].user && v.tokens[jti].readAt < w.changes[i].at
    ensures !Holds(At(Run(w, after), r), jti)
    decreases |after|
  {
    hide Reachable, Holds, Apply, PassesRevocation;
    if after != [] {
      var u := Apply(w, after[0]);
      ReachableStep(w, after[0]);
      StepGrows(w, after[0]);
      RunGrows(u, after[1..]);
      StepPasses(w, after[0], r, jti);
      if Holds(At(u, r), jti) {
        IdentifiedIffCurrent(w, r);
        assert false;
      }
      StaleTokenNeverIdentified(u, after[1..], i, r, jti);
    }
  }
}
