/**
 Over every run: nobody gets a token without the password of the moment, a registration or another token of the same
 account, and every change, reset row, revocation and account goes back to actions that named it.
 */
module SessionOrigins {
  import opened Outcomes
  import opened Accounts
  import opened Sessions
  import opened SessionInvariant
  import opened SessionSafety
  import opened SessionProvenance

  // ---------- the password of a moment ----------

  function ChangeBefore(changes: seq<Change>, id: UserId, step: nat): Option<Change> {
    if changes == [] then None
    else
      var last := changes[|changes| - 1];
      if last.user == id && last.at < step then Some(last) else ChangeBefore(changes[..|changes| - 1], id, step)
  }

  /** The password an account should have had at a step: what it last chose before, or what it started with. */
  function PasswordAt(origin: map<UserId, Option<string>>, changes: seq<Change>, id: UserId, step: nat): Option<string> {
    match ChangeBefore(changes, id, step)
    case Some(x) => Some(x.chosen)
    case None => if id in origin then origin[id] else None
  }

  lemma {:induction false} BeforeIsLast(changes: seq<Change>, id: UserId, step: nat)
    requires forall i :: 0 <= i < |changes| && changes[i].user == id ==> changes[i].at < step
    ensures ChangeBefore(changes, id, step) == LastChange(changes, id)
  {
    if changes != [] {
      BeforeIsLast(changes[..|changes| - 1], id, step);
    }
  }

  lemma PasswordNow(w: World, id: UserId)
    requires SessionInvariant.Inv(w) && id in w.rows.users
    ensures PasswordAt(w.origin, w.changes, id, w.step) == Secret(w.rows.users[id].hash)
  {
    DateIsLogged(w, id, w.changedAt[id]);
    BeforeIsLast(w.changes, id, w.step);
  }

  lemma PasswordThen(w: World, v: World, x: Change, id: UserId, step: nat)
    requires v.changes == w.changes || v.changes == w.changes + [x]
    requires v.changes != w.changes ==> step <= x.at
    requires id in w.origin ==> id in v.origin && v.origin[id] == w.origin[id]
    ensures PasswordAt(w.origin, w.changes, id, step).Some? ==>
      PasswordAt(v.origin, v.changes, id, step) == PasswordAt(w.origin, w.changes, id, step)
  {
    if v.changes != w.changes {
      assert v.changes[..|v.changes| - 1] == w.changes;
    }
  }

  // ---------- evidence ----------

  type Acts = set<Action>

  /** Request r gave the password that the account had at the moment the request read its row. */
  ghost predicate LoggedIn(w: World, acts: Acts, r: nat, id: UserId, readAt: nat) {
    exists p :: LoginRead(r, id, p) in acts && PasswordAt(w.origin, w.changes, id, readAt) == Some(p)
  }

  ghost predicate Registered(acts: Acts, r: nat, id: UserId) {
    exists name, p, salt, epoch :: RegisterInsert(r, id, name, p, salt, epoch) in acts
  }

  /** Request r presented a token of this account for the operation. */
  ghost predicate Showed(w: World, acts: Acts, r: nat, op: Operation, id: UserId) {
    exists jti :: Present(r, jti, op) in acts && jti in w.tokens && w.tokens[jti].claims.sub == id
  }

  ghost predicate From(w: World, acts: Acts, r: nat, q: Request) {
    match q
    case Idle => true
    case Checked(s, p) => LoginRead(r, s.id, p) in acts && PasswordAt(w.origin, w.changes, s.id, s.readAt) == Some(p)
    case Inserted(id) => Registered(acts, r, id)
    case Ready(s) => LoggedIn(w, acts, r, s.id, s.readAt) || Registered(acts, r, s.id)
    case Presented(c, op) => Present(r, c.jti, op) in acts
    case NotRevoked(c, op) => Present(r, c.jti, op) in acts
    case Identified(c, op) => Present(r, c.jti, op) in acts
    case Stamped(c, _) => Present(r, c.jti, LogOut) in acts
    case Purged(c) => Present(r, c.jti, LogOut) in acts
    case Renewing(c) => Present(r, c.jti, Renew) in acts
    case Changing(s, current, chosen) => Showed(w, acts, r, ChangeTo(current, chosen), s.id)
    case ResetFound(id) => ResetRead(r, id) in acts
    case ResetStamped(id, _) => ResetRead(r, id) in acts
    case Confirming(digest, chosen) => ConfirmRead(r, digest, chosen) in acts
  }

  /** A login or registration of the account, or a change of its password authorised by one of its tokens. */
  ghost predicate Opened(w: World, acts: Acts, r: nat, jti: string, k: Token) {
    || (IssueSession(r, jti) in acts
        && (LoggedIn(w, acts, r, k.claims.sub, k.readAt) || Registered(acts, r, k.claims.sub)))
    || (exists salt, current, chosen ::
          ChangeCommit(r, salt, jti) in acts && Showed(w, acts, r, ChangeTo(current, chosen), k.claims.sub))
  }

  /** A refresh that presented a token of the same account and family. */
  ghost predicate Renewed(w: World, acts: Acts, r: nat, jti: string, k: Token, parent: string) {
    && RefreshCommit(r, jti) in acts && Present(r, parent, Renew) in acts
    && parent in w.tokens && w.tokens[parent].claims.sub == k.claims.sub && w.tokens[parent].root == k.root
  }

  ghost predicate TokenFrom(w: World, acts: Acts, jti: string, k: Token) {
    if k.root == jti then exists r :: Opened(w, acts, r, jti, k)
    else exists r, parent :: Renewed(w, acts, r, jti, k, parent)
  }

  ghost predicate ChangeFrom(w: World, acts: Acts, x: Change) {
    match x.cause
    case Confirmed(current, _) => exists r :: Showed(w, acts, r, ChangeTo(current, x.chosen), x.user)
    case ByReset(digest, _) =>
      && digest in w.rows.resets && w.rows.resets[digest].user == x.user
      && exists r :: ConfirmRead(r, digest, x.chosen) in acts
  }

  ghost predicate ResetFrom(acts: Acts, digest: string, id: UserId) {
    exists r :: ResetRead(r, id) in acts && ResetInsert(r, digest) in acts
  }

  ghost predicate RevokedFrom(acts: Acts, jti: string) {
    exists r :: Present(r, jti, LogOut) in acts || Present(r, jti, Renew) in acts
  }

  ghost predicate UserFrom(acts: Acts, id: UserId, name: string, password: Option<string>) {
    exists r, p, salt, epoch :: RegisterInsert(r, id, name, p, salt, epoch) in acts && password == Some(p)
  }

  ghost predicate RequestsFrom(w: World, acts: Acts) {
    forall r :: r in w.requests ==> From(w, acts, r, w.requests[r])
  }

  ghost predicate TokensFrom(w: World, acts: Acts) {
    forall j :: j in w.tokens ==> TokenFrom(w, acts, j, w.tokens[j])
  }

  ghost predicate ChangesFrom(w: World, acts: Acts) {
    forall i :: 0 <= i < |w.changes| ==> ChangeFrom(w, acts, w.changes[i])
  }

  /** The rest, against the state the run began in. */
  ghost predicate RowsFrom(first: World, w: World, acts: Acts) {
    && (forall d :: d in w.rows.resets && d !in first.rows.resets ==> ResetFrom(acts, d, w.rows.resets[d].user))
    && (forall j :: j in w.revokedEver ==> RevokedFrom(acts, j))
    && (forall id :: id in w.rows.users && id !in first.rows.users ==>
          id in w.origin && UserFrom(acts, id, w.rows.users[id].username, w.origin[id]))
  }

  ghost predicate Traced(first: World, w: World, acts: Acts) {
    RequestsFrom(w, acts) && TokensFrom(w, acts) && ChangesFrom(w, acts) && RowsFrom(first, w, acts)
  }

  // ---------- evidence stays ----------

  ghost predicate Later(w: World, v: World) {
    && w.step <= v.step
    && (v.changes == w.changes || exists x :: v.changes == w.changes + [x] && x.at == w.step)
    && (forall j :: j in w.tokens ==> j in v.tokens && v.tokens[j] == w.tokens[j])
    && (forall d :: d in w.rows.resets ==> d in v.rows.resets && v.rows.resets[d].user == w.rows.resets[d].user)
    && (forall id :: id in w.origin ==> id in v.origin && v.origin[id] == w.origin[id])
  }

  lemma LoggedInStays(w: World, v: World, acts: Acts, more: Acts, r: nat, id: UserId, readAt: nat)
    requires Later(w, v) && acts <= more && readAt <= w.step && LoggedIn(w, acts, r, id, readAt)
    ensures LoggedIn(v, more, r, id, readAt)
  {
    hide PasswordAt;
    var p :| LoginRead(r, id, p) in acts && PasswordAt(w.origin, w.changes, id, readAt) == Some(p);
    PasswordStays(w, v, id, readAt);
    assert LoginRead(r, id, p) in more;
  }

  lemma PasswordStays(w: World, v: World, id: UserId, readAt: nat)
    requires Later(w, v) && readAt <= w.step && PasswordAt(w.origin, w.changes, id, readAt).Some?
    ensures PasswordAt(v.origin, v.changes, id, readAt) == PasswordAt(w.origin, w.changes, id, readAt)
  {
    hide PasswordAt;
    if v.changes == w.changes {
      PasswordThen(w, v, Change(0, 0, "", ByReset("", 0)), id, readAt);
    } else {
      var x :| v.changes == w.changes + [x] && x.at == w.step;
      PasswordThen(w, v, x, id, readAt);
    }
  }

  lemma ShowedStays(w: World, v: World, acts: Acts, more: Acts, r: nat, op: Operation, id: UserId)
    requires Later(w, v) && acts <= more && Showed(w, acts, r, op, id)
    ensures Showed(v, more, r, op, id)
  {
    var jti :| Present(r, jti, op) in acts && jti in w.tokens && w.tokens[jti].claims.sub == id;
    assert Present(r, jti, op) in more;
  }

  lemma RegisteredStays(acts: Acts, more: Acts, r: nat, id: UserId)
    requires acts <= more && Registered(acts, r, id)
    ensures Registered(more, r, id)
  {
  }

  /** Snapshots were read before now. */
  predicate ReadBefore(q: Request, step: nat) {
    HasSnapshot(q) ==> q.snap.readAt <= step
  }

  lemma FromStays(w: World, v: World, acts: Acts, more: Acts, r: nat, q: Request)
    requires Later(w, v) && acts <= more && ReadBefore(q, w.step) && From(w, acts, r, q)
    ensures From(v, more, r, q)
  {
    hide PasswordAt, LoggedIn, Registered, Showed, Later;
    match q
    case Checked(s, p) => PasswordStays(w, v, s.id, s.readAt);
    case Inserted(id) => RegisteredStays(acts, more, r, id);
    case Ready(s) =>
      if LoggedIn(w, acts, r, s.id, s.readAt) {
        LoggedInStays(w, v, acts, more, r, s.id, s.readAt);
      } else {
        RegisteredStays(acts, more, r, s.id);
      }
    case Changing(s, current, chosen) => ShowedStays(w, v, acts, more, r, ChangeTo(current, chosen), s.id);
    case _ =>
  }

  lemma OpenedStays(w: World, v: World, acts: Acts, more: Acts, r: nat, jti: string, k: Token)
    requires Later(w, v) && acts <= more && k.readAt <= w.step && Opened(w, acts, r, jti, k)
    ensures Opened(v, more, r, jti, k)
  {
    hide LoggedIn, Registered, Showed, Later;
    if IssueSession(r, jti) in acts && (LoggedIn(w, acts, r, k.claims.sub, k.readAt) || Registered(acts, r, k.claims.sub)) {
      if LoggedIn(w, acts, r, k.claims.sub, k.readAt) {
        LoggedInStays(w, v, acts, more, r, k.claims.sub, k.readAt);
      } else {
        RegisteredStays(acts, more, r, k.claims.sub);
      }
    } else {
      var salt, current, chosen :|
        ChangeCommit(r, salt, jti) in acts && Showed(w, acts, r, ChangeTo(current, chosen), k.claims.sub);
      ShowedStays(w, v, acts, more, r, ChangeTo(current, chosen), k.claims.sub);
      assert ChangeCommit(r, salt, jti) in more;
    }
  }

  lemma TokenStays(w: World, v: World, acts: Acts, more: Acts, jti: string, k: Token)
    requires Later(w, v) && acts <= more && k.readAt <= w.step && TokenFrom(w, acts, jti, k)
    ensures TokenFrom(v, more, jti, k)
  {
    hide Opened;
    if k.root == jti {
      var r :| Opened(w, acts, r, jti, k);
      OpenedStays(w, v, acts, more, r, jti, k);
    } else {
      var r, parent :| Renewed(w, acts, r, jti, k, parent);
      assert Renewed(v, more, r, jti, k, parent);
    }
  }

  lemma ChangeStays(w: World, v: World, acts: Acts, more: Acts, x: Change)
    requires Later(w, v) && acts <= more && ChangeFrom(w, acts, x)
    ensures ChangeFrom(v, more, x)
  {
    hide Showed;
    match x.cause
    case Confirmed(current, _) =>
      var r :| Showed(w, acts, r, ChangeTo(current, x.chosen), x.user);
      ShowedStays(w, v, acts, more, r, ChangeTo(current, x.chosen), x.user);
    case ByReset(digest, _) =>
      var r :| ConfirmRead(r, digest, x.chosen) in acts;
      assert ConfirmRead(r, digest, x.chosen) in more;
  }

  // ---------- every step leaves evidence ----------

  lemma StepLater(w: World, a: Action)
    requires SessionInvariant.Inv(w)
    ensures Adds(w, a, Effect(w, a)) && Later(w, Apply(w, a))
  {
    hide Effect, NewToken, HourToRun, NewReset, NewRevocation, NewUser;
    KnownOrigins(w);
    EffectAdds(w, a);
  }

  lemma KnownOrigins(w: World)
    requires SessionInvariant.Inv(w)
    ensures w.origin.Keys == w.rows.users.Keys
  {
  }

  /** What the invariant of the protocol says of request r. */
  lemma HeldFacts(w: World, r: nat)
    requires SessionInvariant.Inv(w)
    ensures ReadBefore(At(w, r), w.step)
    ensures HasClaims(At(w, r)) ==> At(w, r).claims.jti in w.tokens && w.tokens[At(w, r).claims.jti].claims == At(w, r).claims
  {
    hide RequestsOk, UsersOk, TokensOk, RevokedOk, ResetsOk, ChangesOk, FamiliesOk;
    AtOk(w, r);
  }

  lemma TokenFacts(w: World)
    requires SessionInvariant.Inv(w)
    ensures forall j :: j in w.tokens ==> w.tokens[j].claims.jti == j && w.tokens[j].root in w.tokens && w.tokens[j].readAt <= w.step
  {
    hide RequestsOk, UsersOk, RevokedOk, ResetsOk, ChangesOk, FamiliesOk;
    forall j | j in w.tokens
      ensures w.tokens[j].readAt <= w.step
    {
      TokenHeld(w, j);
    }
  }

  lemma LoginLeaves(w: World, v: World, acts: Acts, r: nat, id: UserId, password: string)
    requires SessionInvariant.Inv(w) && Later(w, v) && id in w.rows.users && Secret(w.rows.users[id].hash) == Some(password)
    requires LoginRead(r, id, password) in acts
    ensures From(v, acts, r, Checked(Snapshot(id, w.rows.users[id], w.step), password))
  {
    hide PasswordAt, Later, SessionInvariant.Inv;
    PasswordNow(w, id);
    PasswordStays(w, v, id, w.step);
  }

  lemma LoginTurnsFrom(w: World, v: World, acts: Acts, more: Acts, a: Action, r: nat, q: Request, next: Request)
    requires SessionInvariant.Inv(w) && Later(w, v) && a in more && acts <= more && ReadBefore(q, w.step)
    requires From(w, acts, r, q) && Turns(w, a, q, next) && next != q && a.r == r
    requires a.LoginRead? || a.LoginUpgrade? || a.RegisterInsert? || a.RegisterRead?
    ensures From(v, more, r, next)
  {
    hide PasswordAt, Later, SessionInvariant.Inv, LoggedIn;
    match a
    case LoginRead(_, id, password) => LoginLeaves(w, v, more, r, id, password);
    case LoginUpgrade(_, _) =>
      CheckedLoggedIn(w, acts, r, q.snap, q.password);
      LoggedInStays(w, v, acts, more, r, q.snap.id, q.snap.readAt);
    case RegisterInsert(_, id, name, p, salt, epoch) =>
      assert RegisterInsert(r, id, name, p, salt, epoch) in more;
    case RegisterRead(_) => RegisteredStays(acts, more, r, q.id);
  }

  lemma CheckedLoggedIn(w: World, acts: Acts, r: nat, s: Snapshot, password: string)
    requires From(w, acts, r, Checked(s, password))
    ensures LoggedIn(w, acts, r, s.id, s.readAt)
  {
    hide PasswordAt;
  }

  lemma OthersTurnFrom(w: World, v: World, acts: Acts, more: Acts, a: Action, r: nat, q: Request, next: Request)
    requires Later(w, v) && a in more && acts <= more
    requires forall j :: j in w.tokens ==> w.tokens[j].claims.jti == j
    requires HasClaims(q) ==> q.claims.jti in w.tokens && w.tokens[q.claims.jti].claims == q.claims
    requires From(w, acts, r, q) && Turns(w, a, q, next) && next != q && a.r == r
    requires !a.LoginRead? && !a.LoginUpgrade? && !a.RegisterInsert? && !a.RegisterRead?
    ensures From(v, more, r, next)
  {
    hide PasswordAt, LoggedIn, Registered, Secret;
    if a.ChangeRead? && next.Changing? {
      assert Present(r, q.claims.jti, q.op) in more && q.claims.jti in v.tokens;
    }
  }

  lemma RequestsStep(w: World, a: Action, acts: Acts)
    requires SessionInvariant.Inv(w) && RequestsFrom(w, acts)
    ensures RequestsFrom(Apply(w, a), acts + {a})
  {
    hide SessionInvariant.Inv, Apply, From, Turns, Later, Adds, Effect;
    var v := Apply(w, a);
    StepLater(w, a);
    TokenFacts(w);
    forall r | r in v.requests
      ensures From(v, acts + {a}, r, v.requests[r])
    {
      HeldFacts(w, r);
      IdleFrom(w, acts, r);
      StepTurns(w, a, r);
      assert From(w, acts, r, At(w, r)) && At(v, r) == v.requests[r];
      if At(v, r) == At(w, r) {
        FromStays(w, v, acts, acts + {a}, r, At(w, r));
      } else if a.LoginRead? || a.LoginUpgrade? || a.RegisterInsert? || a.RegisterRead? {
        LoginTurnsFrom(w, v, acts, acts + {a}, a, r, At(w, r), At(v, r));
      } else {
        OthersTurnFrom(w, v, acts, acts + {a}, a, r, At(w, r), At(v, r));
      }
    }
  }

  lemma IdleFrom(w: World, acts: Acts, r: nat)
    ensures From(w, acts, r, Idle)
  {
  }

  lemma IssuedFrom(w: World, v: World, acts: Acts, a: Action, jti: string, k: Token)
    requires SessionInvariant.Inv(w) && Later(w, v) && RequestsFrom(w, acts)
    requires a.IssueSession? && NewToken(w, a, jti, k)
    ensures TokenFrom(v, acts + {a}, jti, k)
  {
    hide SessionInvariant.Inv, Later, LoggedIn, Registered, Showed;
    HeldFacts(w, a.r);
    assert From(w, acts, a.r, At(w, a.r));
    FromStays(w, v, acts, acts + {a}, a.r, At(w, a.r));
    assert Opened(v, acts + {a}, a.r, jti, k);
  }

  lemma ChangedFrom(w: World, v: World, acts: Acts, a: Action, jti: string, k: Token)
    requires SessionInvariant.Inv(w) && Later(w, v) && RequestsFrom(w, acts)
    requires a.ChangeCommit? && NewToken(w, a, jti, k)
    ensures TokenFrom(v, acts + {a}, jti, k)
  {
    hide SessionInvariant.Inv, Later, LoggedIn, Registered, Showed;
    HeldFacts(w, a.r);
    assert From(w, acts, a.r, At(w, a.r));
    FromStays(w, v, acts, acts + {a}, a.r, At(w, a.r));
    assert Opened(v, acts + {a}, a.r, jti, k);
  }

  lemma RenewingFrom(w: World, acts: Acts, r: nat)
    requires RequestsFrom(w, acts) && At(w, r).Renewing?
    ensures Present(r, At(w, r).claims.jti, Renew) in acts
  {
    hide LoggedIn, Registered, Showed;
    assert From(w, acts, r, At(w, r));
  }

  lemma RefreshedFrom(w: World, v: World, acts: Acts, a: Action, jti: string, k: Token)
    requires SessionInvariant.Inv(w) && Later(w, v) && RequestsFrom(w, acts) && jti !in w.tokens
    requires a.RefreshCommit? && NewToken(w, a, jti, k)
    ensures TokenFrom(v, acts + {a}, jti, k)
  {
    hide SessionInvariant.Inv, Later, From, Opened;
    HeldFacts(w, a.r);
    TokenFacts(w);
    RenewingFrom(w, acts, a.r);
    TokensKept(w, v);
    assert Renewed(v, acts + {a}, a.r, jti, k, At(w, a.r).claims.jti);
  }

  lemma NewTokenFrom(w: World, v: World, acts: Acts, a: Action, jti: string, k: Token)
    requires SessionInvariant.Inv(w) && Later(w, v) && RequestsFrom(w, acts) && jti !in w.tokens
    requires NewToken(w, a, jti, k)
    ensures TokenFrom(v, acts + {a}, jti, k)
  {
    hide SessionInvariant.Inv, Later, RequestsFrom, TokenFrom;
    if a.IssueSession? {
      IssuedFrom(w, v, acts, a, jti, k);
    } else if a.ChangeCommit? {
      ChangedFrom(w, v, acts, a, jti, k);
    } else {
      RefreshedFrom(w, v, acts, a, jti, k);
    }
  }

  lemma TokensKept(w: World, v: World)
    requires Later(w, v)
    ensures forall j :: j in w.tokens ==> j in v.tokens && v.tokens[j] == w.tokens[j]
  {
  }

  lemma TokensStep(w: World, a: Action, acts: Acts)
    requires SessionInvariant.Inv(w) && RequestsFrom(w, acts) && TokensFrom(w, acts)
    ensures TokensFrom(Apply(w, a), acts + {a})
  {
    hide SessionInvariant.Inv, RequestsFrom, TokenFrom, Later, Effect, NewToken, NewChange, NewReset, NewUser, NewRevocation;
    var v := Apply(w, a);
    StepLater(w, a);
    TokenFacts(w);
    forall j | j in v.tokens
      ensures TokenFrom(v, acts + {a}, j, v.tokens[j])
    {
      if j in w.tokens {
        TokenStays(w, v, acts, acts + {a}, j, w.tokens[j]);
      } else {
        NewTokenFrom(w, v, acts, a, j, v.tokens[j]);
      }
    }
  }

  lemma NewChangeFrom(w: World, v: World, acts: Acts, a: Action, x: Change)
    requires SessionInvariant.Inv(w) && Later(w, v) && RequestsFrom(w, acts) && NewChange(w, a, x)
    ensures ChangeFrom(v, acts + {a}, x)
  {
    hide SessionInvariant.Inv, LoggedIn, Registered, PasswordAt;
    var r := a.r;
    assert From(w, acts, r, At(w, r));
    if a.ChangeCommit? {
      var op := ChangeTo(At(w, r).current, At(w, r).chosen);
      ShowedStays(w, v, acts, acts + {a}, r, op, x.user);
    } else {
      assert ConfirmRead(r, At(w, r).digest, x.chosen) in acts + {a};
    }
  }

  lemma ChangesStep(w: World, a: Action, acts: Acts)
    requires SessionInvariant.Inv(w) && RequestsFrom(w, acts) && ChangesFrom(w, acts)
    ensures ChangesFrom(Apply(w, a), acts + {a})
  {
    hide SessionInvariant.Inv, RequestsFrom, ChangeFrom, Later, Effect, NewToken, NewChange, NewReset, NewUser, NewRevocation;
    var v := Apply(w, a);
    StepLater(w, a);
    forall i | 0 <= i < |v.changes|
      ensures ChangeFrom(v, acts + {a}, v.changes[i])
    {
      if i < |w.changes| {
        assert v.changes[i] == w.changes[i];
        ChangeStays(w, v, acts, acts + {a}, w.changes[i]);
      } else {
        NewChangeFrom(w, v, acts, a, v.changes[i]);
      }
    }
  }

  lemma RevocationFrom(w: World, acts: Acts, a: Action, jti: string)
    requires RequestsFrom(w, acts) && NewRevocation(w, a, jti)
    ensures RevokedFrom(acts + {a}, jti)
  {
    assert From(w, acts, a.r, At(w, a.r));
    if a.LogoutInsert? {
      assert Present(a.r, jti, LogOut) in acts + {a};
    } else {
      assert Present(a.r, jti, Renew) in acts + {a};
    }
  }

  lemma ResetRowFrom(w: World, acts: Acts, a: Action, digest: string, row: ResetRow)
    requires RequestsFrom(w, acts) && NewReset(w, a, digest, row)
    ensures ResetFrom(acts + {a}, digest, row.user)
  {
    assert From(w, acts, a.r, At(w, a.r));
    assert ResetRead(a.r, row.user) in acts + {a} && ResetInsert(a.r, digest) in acts + {a};
  }

  lemma UserRowFrom(w: World, acts: Acts, a: Action, id: UserId, user: User)
    requires NewUser(w, a, id, user)
    ensures UserFrom(acts + {a}, id, user.username, Some(a.password))
  {
    assert RegisterInsert(a.r, id, a.username, a.password, a.salt, a.epoch) in acts + {a};
  }

  lemma RowsFromMore(acts: Acts, more: Acts)
    requires acts <= more
    ensures forall d, id :: ResetFrom(acts, d, id) ==> ResetFrom(more, d, id)
    ensures forall j :: RevokedFrom(acts, j) ==> RevokedFrom(more, j)
    ensures forall id, name, p :: UserFrom(acts, id, name, p) ==> UserFrom(more, id, name, p)
  {
  }

  lemma RowsStep(first: World, w: World, a: Action, acts: Acts)
    requires SessionInvariant.Inv(w) && RequestsFrom(w, acts) && RowsFrom(first, w, acts)
    ensures RowsFrom(first, Apply(w, a), acts + {a})
  {
    hide SessionInvariant.Inv, RequestsFrom, Later, Effect, NewToken, HourToRun, NewChange, NewReset, NewUser, NewRevocation,
      ResetFrom, RevokedFrom, UserFrom;
    var v := Apply(w, a);
    StepLater(w, a);
    KnownOrigins(w);
    RowsFromMore(acts, acts + {a});
    forall d | d in v.rows.resets && d !in w.rows.resets
      ensures ResetFrom(acts + {a}, d, v.rows.resets[d].user)
    {
      ResetRowFrom(w, acts, a, d, v.rows.resets[d]);
    }
    forall j | j in v.revokedEver && j !in w.revokedEver
      ensures RevokedFrom(acts + {a}, j)
    {
      RevocationFrom(w, acts, a, j);
    }
    StepKeeps(w, a);
    KnownOrigins(v);
    forall id | id in v.rows.users && id !in w.rows.users
      ensures id in v.origin && UserFrom(acts + {a}, id, v.rows.users[id].username, v.origin[id])
    {
      UserRowFrom(w, acts, a, id, v.rows.users[id]);
    }
  }

  lemma {:induction false} RunTraced(first: World, w: World, actions: seq<Action>, acts: Acts)
    requires SessionInvariant.Inv(w) && Traced(first, w, acts)
    ensures Traced(first, Run(w, actions), acts + set a | a in actions)
    decreases |actions|
  {
    hide SessionInvariant.Inv, Apply, RequestsFrom, TokensFrom, ChangesFrom, RowsFrom;
    if actions == [] {
      assert acts + (set a | a in actions) == acts;
    } else {
      var a := actions[0];
      RequestsStep(w, a, acts);
      TokensStep(w, a, acts);
      ChangesStep(w, a, acts);
      RowsStep(first, w, a, acts);
      StepKeeps(w, a);
      RunTraced(first, Apply(w, a), actions[1..], acts + {a});
      assert actions == [a] + actions[1..];
      assert acts + {a} + (set b | b in actions[1..]) == acts + set b | b in actions;
    }
  }

  lemma StartTraced(w: World)
    requires Init(w)
    ensures Traced(w, w, {})
  {
  }

  // ---------- over every run ----------

  ghost function Done(actions: seq<Action>): Acts {
    set a | a in actions
  }

  /**
   Whose token: one that a login or registration issued belongs to a request that registered the account or gave its
   password of the moment it read the row; one that a password change issued to a request that presented a token of
   the account; one that a refresh issued to a request that presented a token of the same account and login.
   */
  lemma TokensComeFromCredentials(w0: World, actions: seq<Action>, jti: string)
    requires Init(w0) && jti in Run(w0, actions).tokens
    ensures var w := Run(w0, actions); TokenFrom(w, Done(actions), jti, w.tokens[jti])
  {
    hide TokenFrom;
    RunFromStart(w0, actions);
  }

  lemma RunFromStart(w0: World, actions: seq<Action>)
    requires Init(w0)
    ensures Traced(w0, Run(w0, actions), Done(actions))
  {
    InitOk(w0);
    StartTraced(w0);
    RunTraced(w0, w0, actions, {});
    assert {} + Done(actions) == Done(actions);
  }

  /** Whose password changes: each was asked for with these words, by a token of the account or a reset token for it. */
  lemma ChangesComeFromRequests(w0: World, actions: seq<Action>, i: nat)
    requires Init(w0) && i < |Run(w0, actions).changes|
    ensures var w := Run(w0, actions); ChangeFrom(w, Done(actions), w.changes[i])
  {
    hide ChangeFrom;
    RunFromStart(w0, actions);
  }

  /** A reset token is for the account its request named, and only a logout or a refresh of a token revokes it. */
  lemma RowsComeFromRequests(w0: World, actions: seq<Action>, digest: string, jti: string)
    requires Init(w0)
    ensures
      var w := Run(w0, actions);
      && (digest in w.rows.resets && digest !in w0.rows.resets ==> ResetFrom(Done(actions), digest, w.rows.resets[digest].user))
      && (jti in w.revokedEver ==> RevokedFrom(Done(actions), jti))
  {
    hide ResetFrom, RevokedFrom, UserFrom;
    RunFromStart(w0, actions);
  }

  /** An account that was not there before was registered under its name, with the password it started with. */
  lemma AccountsComeFromRegistrations(w0: World, actions: seq<Action>, id: UserId)
    requires Init(w0) && id in Run(w0, actions).rows.users && id !in w0.rows.users
    ensures
      var w := Run(w0, actions);
      id in w.origin && UserFrom(Done(actions), id, w.rows.users[id].username, w.origin[id])
  {
    hide ResetFrom, RevokedFrom, UserFrom;
    RunFromStart(w0, actions);
  }

  ghost predicate NamesDiffer(users: map<UserId, User>) {
    forall i, j :: i in users && j in users && i != j ==> users[i].username != users[j].username
  }

  lemma {:induction false} NamesStayDifferent(w: World, actions: seq<Action>)
    requires SessionInvariant.Inv(w) && NamesDiffer(w.rows.users)
    ensures NamesDiffer(Run(w, actions).rows.users)
    decreases |actions|
  {
    hide SessionInvariant.Inv, Effect;
    if actions != [] {
      StepNames(w, actions[0]);
      StepKeeps(w, actions[0]);
      NamesStayDifferent(Apply(w, actions[0]), actions[1..]);
    }
  }

  lemma StepNames(w: World, a: Action)
    requires SessionInvariant.Inv(w) && NamesDiffer(w.rows.users)
    ensures NamesDiffer(Apply(w, a).rows.users)
  {
    hide SessionInvariant.Inv, Effect, AddsTokens, AddsChanges, AddsResets;
    StepLater(w, a);
  }
}
