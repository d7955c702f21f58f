/**
 Two runs of the credential protocol that show where its one-session rules end. Each is built step by step from a
 database with one user.
 */
module SessionRaces {
  import opened Outcomes
  import opened Accounts
  import opened Sessions
  import opened SessionSafety
  import T = Timestamps

  /** Some interleaving takes x to y. */
  ghost predicate Leads(x: World, y: World) {
    exists actions :: y == Run(x, actions)
  }

  lemma LeadsBy(x: World, a: Action)
    ensures Leads(x, Apply(x, a))
  {
    assert Run(x, [a]) == Run(Apply(x, a), []);
  }

  lemma LeadsOn(x: World, y: World, z: World)
    requires Leads(x, y) && Leads(y, z)
    ensures Leads(x, z)
  {
    var first :| y == Run(x, first);
    var second :| z == Run(y, second);
    RunSplit(x, first, second);
  }

  lemma LeadsReaches(x: World, y: World)
    requires Reachable(x) && Leads(x, y)
    ensures Reachable(y)
  {
    var actions :| y == Run(x, actions);
    ReachableOn(x, actions);
  }

  // ---------- single steps ----------

  lemma Presents(w: World, r: nat, jti: string, op: Operation)
    requires At(w, r).Idle? && jti in w.tokens && Unexpired(w.tokens[jti].claims, w.clock)
    ensures Apply(w, Present(r, jti, op)) ==
      w.(requests := w.requests[r := Presented(w.tokens[jti].claims, op)], step := w.step + 1)
  {
  }

  lemma Checks(w: World, r: nat)
    requires At(w, r).Presented? && Active(w.rows, At(w, r).claims)
    ensures
      var c, op := At(w, r).claims, At(w, r).op;
      var v := Apply(w, CheckRevoked(r));
      && v == w.(requests := w.requests[r := NotRevoked(c, op)], step := w.step + 1)
      && Apply(v, CheckEpoch(r)) == v.(requests := v.requests[r := Identified(c, op)], step := v.step + 1)
  {
  }

  lemma Waits(w: World, r: nat)
    requires At(w, r).Identified? && At(w, r).op.Renew? && At(w, r).claims.sub in w.rows.users
    ensures Apply(w, RefreshRead(r)) ==
      w.(requests := w.requests[r := Renewing(At(w, r).claims)], step := w.step + 1)
  {
  }

  lemma Stamps(w: World, r: nat)
    requires At(w, r).Identified? && At(w, r).op.LogOut?
    ensures Apply(w, LogoutClock(r)) ==
      w.(requests := w.requests[r := Stamped(At(w, r).claims, w.clock)], step := w.step + 1)
  {
  }

  lemma Purges(w: World, r: nat)
    requires At(w, r).Stamped?
    ensures Apply(w, LogoutPurge(r)) ==
      w.(rows := Purge(w.rows, At(w, r).now), requests := w.requests[r := Purged(At(w, r).claims)], step := w.step + 1)
  {
    hide Purge;
  }

  lemma Inserts(w: World, r: nat)
    requires At(w, r).Purged?
    ensures Apply(w, LogoutInsert(r)) ==
      w.(rows := InsertRevoked(w.rows, At(w, r).claims), revokedEver := w.revokedEver + {At(w, r).claims.jti},
         requests := w.requests[r := Idle], step := w.step + 1)
  {
    hide InsertRevoked;
  }

  // ---------- undisturbed stretches of one request ----------

  lemma Pass(w: World, d: nat) returns (v: World)
    requires w.clock + d + 3_600_000_000 < 253_402_300_800_000_000
    ensures Leads(w, v) && v == w.(clock := w.clock + d, step := w.step + 1)
  {
    LeadsBy(w, Tick(d));
    v := Apply(w, Tick(d));
  }

  lemma PassQueries(w: World, r: nat) returns (v: World)
    requires At(w, r).Presented? && Active(w.rows, At(w, r).claims)
    ensures Leads(w, v)
    ensures v == w.(requests := w.requests[r := Identified(At(w, r).claims, At(w, r).op)], step := w.step + 2)
  {
    hide Leads, Apply;
    Checks(w, r);
    LeadsBy(w, CheckRevoked(r));
    var x := Apply(w, CheckRevoked(r));
    LeadsBy(x, CheckEpoch(r));
    v := Apply(x, CheckEpoch(r));
    LeadsOn(w, x, v);
    assert v.requests == w.requests[r := Identified(At(w, r).claims, At(w, r).op)];
  }

  /** A request that presents an accepted token and is not disturbed gets identified. */
  lemma Identify(w: World, r: nat, jti: string, op: Operation) returns (v: World)
    requires At(w, r).Idle? && jti in w.tokens && Accepted(w, w.tokens[jti].claims)
    ensures Leads(w, v)
    ensures v == w.(requests := w.requests[r := Identified(w.tokens[jti].claims, op)], step := w.step + 3)
  {
    hide Leads, Apply;
    Presents(w, r, jti, op);
    LeadsBy(w, Present(r, jti, op));
    var x := Apply(w, Present(r, jti, op));
    v := PassQueries(x, r);
    LeadsOn(w, x, v);
    assert v.requests == w.requests[r := Identified(w.tokens[jti].claims, op)];
  }

  lemma WaitToRefresh(w: World, r: nat, jti: string) returns (v: World)
    requires At(w, r).Idle? && jti in w.tokens && Accepted(w, w.tokens[jti].claims)
    ensures Leads(w, v)
    ensures v == w.(requests := w.requests[r := Renewing(w.tokens[jti].claims)], step := w.step + 4)
  {
    hide Leads, Apply;
    var x := Identify(w, r, jti, Renew);
    Waits(x, r);
    LeadsBy(x, RefreshRead(r));
    v := Apply(x, RefreshRead(r));
    LeadsOn(w, x, v);
    assert v.requests == w.requests[r := Renewing(w.tokens[jti].claims)];
  }

  /** A logout up to its purge. */
  lemma PurgeAlone(w: World, r: nat, c: Claims) returns (v: World)
    requires At(w, r) == Identified(c, LogOut)
    ensures Leads(w, v)
    ensures v == w.(rows := Purge(w.rows, w.clock), requests := w.requests[r := Purged(c)], step := w.step + 2)
  {
    hide Leads, Apply, Purge;
    Stamps(w, r);
    LeadsBy(w, LogoutClock(r));
    var x := Apply(w, LogoutClock(r));
    Purges(x, r);
    LeadsBy(x, LogoutPurge(r));
    v := Apply(x, LogoutPurge(r));
    LeadsOn(w, x, v);
    assert v.requests == w.requests[r := Purged(c)];
  }

  lemma LogOutAlone(w: World, r: nat) returns (v: World)
    requires w.rows.revoked == map[] && At(w, r) == Identified(SESSION, LogOut)
    ensures Leads(w, v)
    ensures v == w.(rows := w.rows.(revoked := map["a" := IsoText(3_600_000_000)]), revokedEver := w.revokedEver + {"a"},
                    requests := w.requests[r := Idle], step := w.step + 3)
  {
    hide Leads, IsoText, Apply, Purge;
    var x := PurgeAlone(w, r, SESSION);
    PurgeOfNone(w.rows, w.clock);
    Inserts(x, r);
    LeadsBy(x, LogoutInsert(r));
    v := Apply(x, LogoutInsert(r));
    LeadsOn(w, x, v);
    assert v.requests == w.requests[r := Idle];
  }

  lemma PurgeOfNone(t: Tables, now: Instant)
    requires t.revoked == map[]
    ensures Purge(t, now) == t
  {
    hide IsoText;
  }

  lemma PurgeExpired(t: Tables, j: string, expires: Instant, now: Instant)
    requires t.revoked == map[j := IsoText(expires)] && expires < now
    ensures Purge(t, now) == t.(revoked := map[])
  {
    T.TextOrderIsTimeOrder(expires, now);
  }

  /** An identified refresh that is not disturbed gets an accepted token of the same family. */
  lemma RenewAlone(w: World, r: nat, jti: string) returns (v: World)
    requires Reachable(w) && At(w, r) == Identified(SESSION, Renew) && Active(w.rows, SESSION) && jti !in w.tokens
    requires "a" in w.tokens && w.tokens["a"].root == "a"
    ensures Leads(w, v) && jti in v.tokens && v.tokens[jti].root == "a" && Accepted(v, v.tokens[jti].claims)
  {
    hide Leads, Reachable, Accepted, Apply;
    Waits(w, r);
    LeadsBy(w, RefreshRead(r));
    var x := Apply(w, RefreshRead(r));
    LeadsReaches(w, x);
    assert RefreshCommits(x, r, jti) && x.tokens == w.tokens;
    CommitForksIff(x, r, jti);
    LeadsBy(x, RefreshCommit(r, jti));
    v := Apply(x, RefreshCommit(r, jti));
    LeadsOn(w, x, v);
  }

  // ---------- the database both runs start from ----------

  const ONE_USER: World :=
    World(Tables(map[7 := User("user", Argon("secret", 0, false), 1)], map[], map[]), 0, map[], map[], 1,
          map[7 := Some("secret")], map[7 := 0], [], map[], {}, {}, map[])

  const SESSION: Claims := Claims(7, "a", 1, 3600)

  lemma OneUserReachable()
    ensures Reachable(ONE_USER)
  {
    assert Init(ONE_USER) && ONE_USER == Run(ONE_USER, []);
  }

  lemma ReadyToIssue() returns (w: World)
    ensures Reachable(w)
    ensures w == ONE_USER.(requests := map[1 := Ready(Snapshot(7, ONE_USER.rows.users[7], 1))], step := 3)
  {
    hide Reachable;
    OneUserReachable();
    var s := Snapshot(7, ONE_USER.rows.users[7], 1);
    ReachableStep(ONE_USER, LoginRead(1, 7, "secret"));
    var x := Apply(ONE_USER, LoginRead(1, 7, "secret"));
    assert x == ONE_USER.(requests := map[1 := Checked(s, "secret")], step := 2);
    ReachableStep(x, LoginUpgrade(1, 0));
    w := Apply(x, LoginUpgrade(1, 0));
  }

  lemma OneSession() returns (w: World)
    ensures Reachable(w)
    ensures w == ONE_USER.(requests := map[1 := Idle], tokens := map["a" := Token(SESSION, 1, "a")], step := 4)
  {
    hide Reachable;
    var x := ReadyToIssue();
    ReachableStep(x, IssueSession(1, "a"));
    w := Apply(x, IssueSession(1, "a"));
    assert Issue(7, 1, "a", 0) == SESSION;
  }

  // ---------- a run in which an expired token is refreshed twice ----------

  /** Two refreshes and a logout of one token, all authenticated a second before it expires. */
  lemma ThreeRequests() returns (w: World)
    ensures Reachable(w)
    ensures w == ONE_USER.(
      clock := 3_599_000_000, step := 16,
      requests := map[1 := Idle, 2 := Renewing(SESSION), 3 := Renewing(SESSION), 4 := Identified(SESSION, LogOut)],
      tokens := map["a" := Token(SESSION, 1, "a")])
  {
    hide Reachable, Leads;
    var x := OneSession();
    var y := WaitToRefresh(x, 2, "a");
    LeadsReaches(x, y);
    var z := WaitToRefresh(y, 3, "a");
    LeadsReaches(y, z);
    x := Identify(z, 4, "a", LogOut);
    LeadsReaches(z, x);
    w := Pass(x, 3_599_000_000);
    LeadsReaches(x, w);
  }

  /** The first refresh commits in time; two seconds later the clock has passed the expiry. */
  lemma RefreshedInTime() returns (w: World)
    ensures Reachable(w) && w.clock == 3_601_000_000
    ensures w.rows == ONE_USER.rows.(revoked := map["a" := IsoText(3_600_000_000)])
    ensures w.tokens == map["a" := Token(SESSION, 1, "a"), "b" := Token(Claims(7, "b", 1, 7199), 16, "a")]
    ensures At(w, 3) == Renewing(SESSION) && At(w, 4) == Identified(SESSION, LogOut)
  {
    hide Reachable, IsoText, Leads;
    var x := ThreeRequests();
    ReachableStep(x, RefreshCommit(2, "b"));
    var y := Apply(x, RefreshCommit(2, "b"));
    assert RefreshCommits(x, 2, "b");
    assert y.rows.revoked == map["a" := IsoText(3_600_000_000)];
    w := Pass(y, 2_000_000);
    LeadsReaches(y, w);
  }

  /** The logout then purges the expired row. */
  lemma PurgedInBetween() returns (w: World)
    ensures Reachable(w) && w.clock == 3_601_000_000 && w.rows == ONE_USER.rows
    ensures w.tokens == map["a" := Token(SESSION, 1, "a"), "b" := Token(Claims(7, "b", 1, 7199), 16, "a")]
    ensures At(w, 3) == Renewing(SESSION)
  {
    hide Reachable, IsoText, Purge, Apply, Leads;
    var x := RefreshedInTime();
    w := PurgeAlone(x, 4, SESSION);
    LeadsReaches(x, w);
    PurgeExpired(x.rows, "a", 3_600_000_000, 3_601_000_000);
  }

  /** So one login can have two accepted tokens: the second refresh commits although the first replaced the token. */
  lemma LateRefreshForksFamily() returns (w: World)
    ensures Reachable(w) && "b" in w.tokens && "c" in w.tokens && w.tokens["b"].root == w.tokens["c"].root
    ensures Accepted(w, w.tokens["b"].claims) && Accepted(w, w.tokens["c"].claims)
  {
    hide Reachable, IsoText;
    var x := PurgedInBetween();
    ReachableStep(x, RefreshCommit(3, "c"));
    w := Apply(x, RefreshCommit(3, "c"));
    assert RefreshCommits(x, 3, "c");
  }

  // ---------- a run in which a logged-out token starts a new session ----------

  /** Two logouts of one token, of which the first commits a second before the token expires. */
  lemma LoggedOut() returns (u: World)
    ensures Reachable(u) && u.clock == 3_599_000_000
    ensures u.rows == ONE_USER.rows.(revoked := map["a" := IsoText(3_600_000_000)])
    ensures u.tokens == map["a" := Token(SESSION, 1, "a")] && u.revokedEver == {"a"}
    ensures At(u, 4) == Identified(SESSION, LogOut) && At(u, 6) == Idle
  {
    hide Reachable, IsoText, Apply, Leads;
    var x := OneSession();
    var y := Identify(x, 2, "a", LogOut);
    LeadsReaches(x, y);
    var z := Identify(y, 4, "a", LogOut);
    LeadsReaches(y, z);
    x := Pass(z, 3_599_000_000);
    LeadsReaches(z, x);
    u := LogOutAlone(x, 2);
    LeadsReaches(x, u);
  }

  /** A third request presents it; past the expiry the second logout purges the row before the request asks for it. */
  lemma PurgedBeforeCheck(u: World) returns (w: World)
    requires u.clock == 3_599_000_000 && u.rows == ONE_USER.rows.(revoked := map["a" := IsoText(3_600_000_000)])
    requires u.tokens == map["a" := Token(SESSION, 1, "a")] && u.revokedEver == {"a"}
    requires At(u, 4) == Identified(SESSION, LogOut) && At(u, 6) == Idle
    ensures Leads(u, w) && w.clock == 3_601_000_000 && w.rows == ONE_USER.rows
    ensures w.tokens == u.tokens && w.revokedEver == u.revokedEver && At(w, 6) == Presented(SESSION, Renew)
  {
    hide IsoText, Purge, Apply, Leads;
    Presents(u, 6, "a", Renew);
    LeadsBy(u, Present(6, "a", Renew));
    var x := Apply(u, Present(6, "a", Renew));
    var y := Pass(x, 2_000_000);
    LeadsOn(u, x, y);
    w := PurgeAlone(y, 4, SESSION);
    LeadsOn(u, y, w);
    PurgeExpired(y.rows, "a", 3_600_000_000, 3_601_000_000);
  }

  /**
   Request 6 has not begun when the token is logged out, a second before it expires. The same run leads on to where
   the request is identified by that token, although it is revoked and expired, and on to where it has turned it
   into an accepted one.
   */
  lemma LateCheckRevivesToken() returns (u: World, w: World, v: World)
    ensures Reachable(u) && u.tokens == map["a" := Token(SESSION, 1, "a")] && At(u, 6).Idle?
    ensures "a" in u.revokedEver && "a" in u.rows.revoked && Unexpired(SESSION, u.clock)
    ensures Leads(u, w) && At(w, 6) == Identified(SESSION, Renew) && !Unexpired(SESSION, w.clock)
    ensures Leads(w, v) && "z" in v.tokens && v.tokens["z"].root == "a" && Accepted(v, v.tokens["z"].claims)
    ensures "z" !in w.tokens && "a" in v.revokedEver
  {
    hide Reachable, Apply, Leads, Accepted;
    u := LoggedOut();
    var x := PurgedBeforeCheck(u);
    w := PassQueries(x, 6);
    LeadsOn(u, x, w);
    LeadsReaches(u, w);
    v := RenewAlone(w, 6, "z");
    LeadsGrows(w, v);
  }

  lemma LeadsGrows(x: World, y: World)
    requires Leads(x, y)
    ensures x.revokedEver <= y.revokedEver
  {
    var actions :| y == Run(x, actions);
    RunGrows(x, actions);
  }
}
