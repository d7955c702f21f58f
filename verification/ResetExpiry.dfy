/**
 The expiry of reset tokens: the row holds a text, and the text comparison decides the half hour that a reset request
 granted.
 */
module ResetExpiry {
  import opened Outcomes
  import opened Accounts
  import opened Sessions
  import opened SessionInvariant
  import opened SessionSafety
  import T = Timestamps

  /** Each token issued in the run has its row, and the row expires half an hour after the request read the clock. */
  ghost predicate Dated(resets: map<string, ResetRow>, stamped: map<string, Clock>) {
    forall d :: d in stamped ==> d in resets && resets[d].expires == Some(IsoText(stamped[d] + RESET_LIFE))
  }

  ghost predicate KeepsExpiry(w: World, v: World) {
    && v.stamped == w.stamped && w.rows.resets.Keys <= v.rows.resets.Keys
    && forall d :: d in w.rows.resets ==> v.rows.resets[d].expires == w.rows.resets[d].expires
  }

  lemma SetPasswordKeepsExpiry(t: Tables, id: UserId, hash: Hash)
    ensures SetPassword(t, id, hash).resets.Keys == t.resets.Keys
    ensures forall d :: d in t.resets ==> SetPassword(t, id, hash).resets[d].expires == t.resets[d].expires
  {
  }

  lemma QuietKeepsExpiry(w: World, v: World)
    requires Quiet(w, v)
    ensures KeepsExpiry(w, v)
  {
  }

  lemma TokensKeepExpiry(w: World, r: nat, jti: string)
    ensures KeepsExpiry(w, Session(w, r, jti)) && KeepsExpiry(w, PurgeStep(w, r)) && KeepsExpiry(w, RevokeStep(w, r))
  {
    hide Issue, IsoText;
  }

  lemma RefreshKeepsExpiry(w: World, r: nat, jti: string)
    ensures KeepsExpiry(w, RefreshStep(w, r, jti))
  {
    hide Issue, IsoText, Active, Purge;
    PurgeKeepsResets(w.rows, w.clock);
  }

  lemma PurgeKeepsResets(t: Tables, now: Instant)
    ensures Purge(t, now).resets == t.resets
  {
    hide IsoText;
  }

  lemma UsersKeepExpiry(w: World, r: nat, salt: nat, id: UserId, user: User)
    ensures KeepsExpiry(w, Upgrade(w, r, salt)) && KeepsExpiry(w, CreateUser(w, r, id, user))
  {
    hide NeedsUpgrade, HashPassword;
  }

  lemma CommitKeepsExpiry(w: World, id: UserId, salt: nat, chosen: string, cause: Cause)
    ensures KeepsExpiry(w, CommitPassword(w, id, salt, chosen, cause))
  {
    hide SetPassword, HashPassword;
    SetPasswordKeepsExpiry(w.rows, id, HashPassword(chosen, salt));
  }

  lemma ChangeKeepsExpiry(w: World, r: nat, salt: nat, jti: string)
    ensures KeepsExpiry(w, ChangeStep(w, r, salt, jti))
  {
    hide CommitPassword, SetPassword, Issue, HashPassword;
    if At(w, r).Changing? && At(w, r).snap.id in w.rows.users {
      var s := At(w, r).snap;
      var cause := Confirmed(At(w, r).current, w.rows.users[s.id].hash);
      CommitKeepsExpiry(w, s.id, salt, At(w, r).chosen, cause);
    }
  }

  lemma ConfirmKeepsExpiry(w: World, r: nat, salt: nat)
    ensures KeepsExpiry(w, ConfirmStep(w, r, salt))
  {
    hide CommitPassword, HashPassword, IsoText, SetPassword;
    if At(w, r).Confirming? && At(w, r).digest in w.rows.resets {
      var d := At(w, r).digest;
      CommitKeepsExpiry(w, w.rows.resets[d].user, salt, At(w, r).chosen, ByReset(d, IssuedAt(w, d)));
    }
  }

  lemma InsertDates(w: World, r: nat, digest: string)
    requires Dated(w.rows.resets, w.stamped)
    ensures var v := InsertReset(w, r, digest); Dated(v.rows.resets, v.stamped)
  {
    hide IsoText;
  }

  lemma OthersKeepExpiry(w: World, a: Action)
    requires !a.ResetInsert?
    ensures KeepsExpiry(w, Effect(w, a))
  {
    hide KeepsExpiry, Quiet, Upgrade, CreateUser, Session, PurgeStep, RevokeStep, RefreshStep, ChangeStep, ConfirmStep;
    if SessionInvariant.Reads(a) || a.Abort? {
      ReadsAreQuiet(w, a);
      QuietKeepsExpiry(w, Effect(w, a));
    } else {
      match a
      case Tick(d) => TickKeepsExpiry(w, d);
      case LoginUpgrade(r, salt) => UsersKeepExpiry(w, r, salt, 0, User("", Unreadable(""), 0));
      case RegisterInsert(r, id, name, password, salt, epoch) =>
        UsersKeepExpiry(w, r, 0, id, User(name, HashPassword(password, salt), epoch));
      case IssueSession(r, jti) => TokensKeepExpiry(w, r, jti);
      case LogoutPurge(r) => TokensKeepExpiry(w, r, "");
      case LogoutInsert(r) => TokensKeepExpiry(w, r, "");
      case RefreshCommit(r, jti) => RefreshKeepsExpiry(w, r, jti);
      case ChangeCommit(r, salt, jti) => ChangeKeepsExpiry(w, r, salt, jti);
      case ConfirmCommit(r, salt) => ConfirmKeepsExpiry(w, r, salt);
    }
  }

  lemma TickKeepsExpiry(w: World, d: nat)
    ensures KeepsExpiry(w, Effect(w, Tick(d)))
  {
  }

  lemma KeptAreDated(w: World, v: World)
    requires Dated(w.rows.resets, w.stamped) && KeepsExpiry(w, v)
    ensures Dated(v.rows.resets, v.stamped)
  {
    hide IsoText;
  }

  lemma InsertIs(w: World, a: Action)
    requires a.ResetInsert?
    ensures Effect(w, a) == InsertReset(w, a.r, a.digest)
  {
  }

  lemma StepDates(w: World, a: Action)
    requires Dated(w.rows.resets, w.stamped)
    ensures var v := Apply(w, a); Dated(v.rows.resets, v.stamped)
  {
    hide Effect, Dated, KeepsExpiry, InsertReset;
    if a.ResetInsert? {
      InsertDates(w, a.r, a.digest);
      InsertIs(w, a);
    } else {
      OthersKeepExpiry(w, a);
      KeptAreDated(w, Effect(w, a));
    }
  }

  lemma {:induction false} RunDates(w: World, actions: seq<Action>)
    requires Dated(w.rows.resets, w.stamped)
    ensures var v := Run(w, actions); Dated(v.rows.resets, v.stamped)
    decreases |actions|
  {
    hide Apply, Dated;
    if actions != [] {
      StepDates(w, actions[0]);
      RunDates(Apply(w, actions[0]), actions[1..]);
    }
  }

  lemma ReachableDates(w: World)
    requires Reachable(w)
    ensures Dated(w.rows.resets, w.stamped)
  {
    var w0, actions :| Init(w0) && w == Run(w0, actions);
    RunDates(w0, actions);
  }

  /**
   Both queries of a reset ask the ideal question: a token issued in the run is usable exactly while it is unused and
   less than half an hour has passed since its request read the clock.
   */
  lemma ResetUsableIff(w: World, digest: string)
    requires Reachable(w) && digest in w.stamped
    ensures digest in w.rows.resets
    ensures ResetUsable(w.rows, digest, w.clock) <==>
      !w.rows.resets[digest].used && w.clock < w.stamped[digest] + RESET_LIFE
  {
    hide Reachable;
    ReachableDates(w);
    T.TextOrderIsTimeOrder(w.clock, w.stamped[digest] + RESET_LIFE);
  }

  /** So a reset that waits for the lock commits exactly under that condition, whatever was true when it first looked. */
  lemma ResetCommitsIff(w: World, r: nat, salt: nat)
    requires Reachable(w) && At(w, r).Confirming? && At(w, r).digest in w.stamped
    ensures
      var d := At(w, r).digest;
      && d in w.rows.resets
      && (ConfirmStep(w, r, salt).changes != w.changes <==>
            !w.rows.resets[d].used && w.clock < w.stamped[d] + RESET_LIFE)
      && (ConfirmStep(w, r, salt).changes == w.changes ==> ConfirmStep(w, r, salt).rows == w.rows)
  {
    hide Reachable, ResetUsable, SetPassword;
    ResetUsableIff(w, At(w, r).digest);
  }
}
