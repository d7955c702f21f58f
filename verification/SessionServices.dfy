/**
 What each request of the credential protocol achieves when nothing disturbs it: the states it leads to, value by
 value.
 */
module SessionServices {
  import opened Outcomes
  import opened Accounts
  import opened Sessions
  import opened SessionInvariant
  import opened SessionSafety
  import opened SessionRaces
  import T = Timestamps

  // ---------- login ----------

  lemma ReadsLogin(w: World, r: nat, id: UserId, password: string)
    requires At(w, r).Idle? && id in w.rows.users && Secret(w.rows.users[id].hash) == Some(password)
    ensures Apply(w, LoginRead(r, id, password)) ==
      w.(requests := w.requests[r := Checked(Snapshot(id, w.rows.users[id], w.step), password)], step := w.step + 1)
  {
  }

  lemma UpgradesLogin(w: World, r: nat, salt: nat)
    requires
      var q := At(w, r);
      q.Checked? && q.snap.id in w.rows.users && w.rows.users[q.snap.id].hash == q.snap.user.hash
    ensures
      var q := At(w, r);
      var id, was := q.snap.id, q.snap.user.hash;
      var hash := if was.Argon? && !was.outdated then was else Argon(q.password, salt, false);
      Apply(w, LoginUpgrade(r, salt)) ==
        w.(rows := w.rows.(users := w.rows.users[id := w.rows.users[id].(hash := hash)]),
           requests := w.requests[r := Ready(q.snap)], step := w.step + 1)
  {
    var id := At(w, r).snap.id;
    assert w.rows.users[id := w.rows.users[id]] == w.rows.users;
  }

  lemma Issues(w: World, r: nat, jti: string)
    requires At(w, r).Ready? && jti !in w.tokens
    ensures
      var s := At(w, r).snap;
      Apply(w, IssueSession(r, jti)) ==
        w.(tokens := w.tokens[jti := Token(Claims(s.id, jti, s.user.epoch, (w.clock + 3_600_000_000) / 1_000_000), s.readAt, jti)],
           requests := w.requests[r := Idle], step := w.step + 1)
  {
  }

  /**
   The right password gets a token of the account for an hour, and its hash is renewed if it was old; the token is
   accepted.
   */
  lemma LoginAlone(w: World, r: nat, id: UserId, password: string, salt: nat, jti: string) returns (v: World)
    requires Reachable(w) && At(w, r).Idle? && jti !in w.tokens
    requires id in w.rows.users && Secret(w.rows.users[id].hash) == Some(password)
    ensures Leads(w, v) && v.clock == w.clock && At(v, r) == Idle
    ensures v.tokens == w.tokens[
      jti := Token(Claims(id, jti, w.rows.users[id].epoch, (w.clock + 3_600_000_000) / 1_000_000), w.step, jti)]
    ensures
      var was := w.rows.users[id];
      var hash := if was.hash.Argon? && !was.hash.outdated then was.hash else Argon(password, salt, false);
      v.rows == w.rows.(users := w.rows.users[id := was.(hash := hash)])
    ensures Accepted(v, v.tokens[jti].claims)
  {
    hide Leads, Apply, Reachable, SessionInvariant.Inv;
    ReadsLogin(w, r, id, password);
    LeadsBy(w, LoginRead(r, id, password));
    var x := Apply(w, LoginRead(r, id, password));
    UpgradesLogin(x, r, salt);
    LeadsBy(x, LoginUpgrade(r, salt));
    var y := Apply(x, LoginUpgrade(r, salt));
    LeadsOn(w, x, y);
    Issues(y, r, jti);
    LeadsBy(y, IssueSession(r, jti));
    v := Apply(y, IssueSession(r, jti));
    LeadsOn(w, y, v);
    ReachableInv(w);
    UnknownIsUnrevoked(w, jti);
  }

  lemma UnknownIsUnrevoked(w: World, jti: string)
    requires SessionInvariant.Inv(w) && jti !in w.tokens
    ensures jti !in w.rows.revoked
  {
  }

  // ---------- register ----------

  lemma InsertsUser(w: World, r: nat, id: UserId, name: string, password: string, salt: nat, epoch: int)
    requires At(w, r).Idle?
    ensures
      var v := Apply(w, RegisterInsert(r, id, name, password, salt, epoch));
      if id in w.rows.users || exists i :: i in w.rows.users && w.rows.users[i].username == name
      then v == w.(step := w.step + 1)
      else v.rows == w.rows.(users := w.rows.users[id := User(name, Argon(password, salt, false), epoch)])
           && v.tokens == w.tokens && v.clock == w.clock && v.requests == w.requests[r := Inserted(id)] && v.step == w.step + 1
  {
  }

  lemma ReadsUser(w: World, r: nat)
    requires At(w, r).Inserted? && At(w, r).id in w.rows.users
    ensures
      var id := At(w, r).id;
      Apply(w, RegisterRead(r)) ==
        w.(requests := w.requests[r := Ready(Snapshot(id, w.rows.users[id], w.step))], step := w.step + 1)
  {
  }

  /** A free name gets an account with the given password, and an accepted token for it. */
  lemma RegisterAlone(w: World, r: nat, id: UserId, name: string, password: string, salt: nat, epoch: int, jti: string)
    returns (v: World)
    requires Reachable(w) && At(w, r).Idle? && jti !in w.tokens && id !in w.rows.users
    requires forall i :: i in w.rows.users ==> w.rows.users[i].username != name
    ensures Leads(w, v) && At(v, r) == Idle
    ensures v.rows == w.rows.(users := w.rows.users[id := User(name, Argon(password, salt, false), epoch)])
    ensures jti in v.tokens && v.tokens[jti].claims.sub == id && v.tokens[jti].root == jti && Accepted(v, v.tokens[jti].claims)
  {
    hide Leads, Apply, Reachable, SessionInvariant.Inv;
    var a := RegisterInsert(r, id, name, password, salt, epoch);
    InsertsUser(w, r, id, name, password, salt, epoch);
    LeadsBy(w, a);
    var x := Apply(w, a);
    ReadsUser(x, r);
    LeadsBy(x, RegisterRead(r));
    var y := Apply(x, RegisterRead(r));
    LeadsOn(w, x, y);
    Issues(y, r, jti);
    LeadsBy(y, IssueSession(r, jti));
    v := Apply(y, IssueSession(r, jti));
    LeadsOn(w, y, v);
    ReachableInv(w);
    UnknownIsUnrevoked(w, jti);
  }

  // ---------- logout ----------

  lemma InsertsRow(w: World, r: nat)
    requires At(w, r).Purged?
    ensures
      var v, j := Apply(w, LogoutInsert(r)), At(w, r).claims.jti;
      && v.rows.users == w.rows.users && v.rows.resets == w.rows.resets && v.clock == w.clock && v.tokens == w.tokens
      && v.rows.revoked.Keys == w.rows.revoked.Keys + {j} && v.requests == w.requests[r := Idle]
      && v.revokedEver == w.revokedEver + {j}
  {
    hide IsoText;
  }

  lemma PurgeKeeps(w: World, now: Clock)
    requires Reachable(w)
    ensures Purge(w.rows, now).users == w.rows.users && Purge(w.rows, now).resets == w.rows.resets
    ensures forall j :: j in Purge(w.rows, now).revoked <==>
      j in w.rows.revoked && j in w.tokens && now <= 1_000_000 * w.tokens[j].claims.exp
  {
    hide Reachable;
    PurgeTables(w.rows, now);
    forall j
      ensures j in Purge(w.rows, now).revoked <==>
        j in w.rows.revoked && j in w.tokens && now <= 1_000_000 * w.tokens[j].claims.exp
    {
      if j in w.rows.revoked {
        PurgeDecides(w, j, now);
      }
    }
  }

  lemma PurgeTables(t: Tables, now: Instant)
    ensures Purge(t, now).users == t.users && Purge(t, now).resets == t.resets
    ensures Purge(t, now).revoked.Keys <= t.revoked.Keys
  {
    hide IsoText;
  }

  /** Logout revokes the token that was presented and drops the rows of tokens that have expired; nothing else. */
  lemma LogoutAlone(w: World, r: nat, jti: string) returns (v: World)
    requires Reachable(w) && At(w, r).Idle? && jti in w.tokens && Accepted(w, w.tokens[jti].claims)
    ensures Leads(w, v) && At(v, r) == Idle && v.tokens == w.tokens
    ensures v.rows.users == w.rows.users && v.rows.resets == w.rows.resets
    ensures forall j :: j in v.rows.revoked <==>
      j == jti || (j in w.rows.revoked && j in w.tokens && w.clock <= 1_000_000 * w.tokens[j].claims.exp)
    ensures !Accepted(v, v.tokens[jti].claims)
  {
    hide Leads, Apply, Reachable, Purge, SessionInvariant.Inv;
    ReachableInv(w);
    TokenHeld(w, jti);
    var x := Identify(w, r, jti, LogOut);
    var y := PurgeAlone(x, r, w.tokens[jti].claims);
    LeadsOn(w, x, y);
    PurgeKeeps(w, w.clock);
    InsertsRow(y, r);
    LeadsBy(y, LogoutInsert(r));
    v := Apply(y, LogoutInsert(r));
    LeadsOn(w, y, v);
    OwnName(w, jti);
  }

  lemma OwnName(w: World, jti: string)
    requires SessionInvariant.Inv(w) && jti in w.tokens
    ensures w.tokens[jti].claims.jti == jti
  {
  }

  // ---------- refresh ----------

  /** A refresh exchanges the presented token for one of the same account: the new one is accepted, the old one not. */
  lemma RefreshAlone(w: World, r: nat, jti: string, next: string) returns (v: World)
    requires Reachable(w) && At(w, r).Idle? && jti in w.tokens && Accepted(w, w.tokens[jti].claims) && next !in w.tokens
    ensures Leads(w, v) && v.rows.users == w.rows.users && v.rows.resets == w.rows.resets
    ensures next in v.tokens && v.tokens == w.tokens[next := v.tokens[next]]
    ensures v.tokens[next].claims.sub == w.tokens[jti].claims.sub && v.tokens[next].root == w.tokens[jti].root
    ensures Accepted(v, v.tokens[next].claims) && !Accepted(v, v.tokens[jti].claims)
  {
    hide Leads, Apply, Reachable, SessionInvariant.Inv, Revoke, Accepted;
    ReachableInv(w);
    OwnName(w, jti);
    AcceptedNow(w, jti);
    var x := WaitToRefresh(w, r, jti);
    LeadsReaches(w, x);
    assert RefreshCommits(x, r, next);
    RefreshResult(x, r, next);
    CommitForksIff(x, r, next);
    LeadsBy(x, RefreshCommit(r, next));
    v := Apply(x, RefreshCommit(r, next));
    LeadsOn(w, x, v);
    RevokesOnly(x.rows, w.tokens[jti].claims, x.clock);
    RevokedNow(v, jti);
  }

  lemma AcceptedNow(w: World, jti: string)
    requires jti in w.tokens && Accepted(w, w.tokens[jti].claims)
    ensures Active(w.rows, w.tokens[jti].claims) && w.tokens[jti].claims.sub in w.rows.users
  {
  }

  lemma RevokedNow(w: World, jti: string)
    requires jti in w.tokens && w.tokens[jti].claims.jti in w.rows.revoked
    ensures !Accepted(w, w.tokens[jti].claims)
  {
  }

  lemma RevokesOnly(t: Tables, c: Claims, now: Instant)
    ensures Revoke(t, c, now).users == t.users && Revoke(t, c, now).resets == t.resets && c.jti in Revoke(t, c, now).revoked
  {
    hide IsoText;
  }

  // ---------- change of password ----------

  lemma ReadsForChange(w: World, r: nat, current: string, chosen: string)
    requires At(w, r).Identified? && At(w, r).op == ChangeTo(current, chosen) && At(w, r).claims.sub in w.rows.users
    ensures
      var id := At(w, r).claims.sub;
      Apply(w, ChangeRead(r)) ==
        w.(requests := w.requests[r :=
             if Secret(w.rows.users[id].hash) == Some(current) then Changing(Snapshot(id, w.rows.users[id], w.step), current, chosen)
             else Idle],
           step := w.step + 1)
  {
  }

  /** The rows with a new password for one account: its epoch moves on and its reset rows are used up. */
  ghost predicate NewPassword(t: Tables, s: Tables, id: UserId, hash: Hash) {
    && id in t.users && s.users == t.users[id := t.users[id].(hash := hash, epoch := t.users[id].epoch + 1)]
    && s.revoked == t.revoked && s.resets.Keys == t.resets.Keys
    && forall d :: d in t.resets ==>
         s.resets[d] == if t.resets[d].user == id then t.resets[d].(used := true) else t.resets[d]
  }

  lemma SetsPassword(t: Tables, id: UserId, hash: Hash)
    requires id in t.users
    ensures NewPassword(t, SetPassword(t, id, hash), id, hash)
  {
  }

  lemma CommitsChange(w: World, r: nat, salt: nat, jti: string)
    requires At(w, r).Changing? && jti !in w.tokens
    requires var s := At(w, r).snap; s.id in w.rows.users && w.rows.users[s.id].epoch == s.user.epoch
    ensures
      var s, v := At(w, r).snap, Apply(w, ChangeCommit(r, salt, jti));
      && NewPassword(w.rows, v.rows, s.id, Argon(At(w, r).chosen, salt, false)) && v.clock == w.clock
      && v.requests == w.requests[r := Idle]
      && v.tokens == w.tokens[jti :=
           Token(Claims(s.id, jti, s.user.epoch + 1, (w.clock + 3_600_000_000) / 1_000_000), w.step, jti)]
  {
    var s := At(w, r).snap;
    SetsPassword(w.rows, s.id, Argon(At(w, r).chosen, salt, false));
    hide SetPassword;
  }

  /**
   With the current password given, the account has the new one, every earlier token of it is refused and the one
   returned is accepted; with a wrong one nothing changes.
   */
  lemma ChangeAlone(w: World, r: nat, jti: string, current: string, chosen: string, salt: nat, next: string)
    returns (v: World)
    requires Reachable(w) && At(w, r).Idle? && jti in w.tokens && Accepted(w, w.tokens[jti].claims) && next !in w.tokens
    requires Secret(w.rows.users[w.tokens[jti].claims.sub].hash) == Some(current)
    ensures Leads(w, v) && NewPassword(w.rows, v.rows, w.tokens[jti].claims.sub, Argon(chosen, salt, false))
    ensures next in v.tokens && v.tokens[next].claims.sub == w.tokens[jti].claims.sub && Accepted(v, v.tokens[next].claims)
    ensures forall j :: j in w.tokens && w.tokens[j].claims.sub == w.tokens[jti].claims.sub ==>
      j in v.tokens && !Accepted(v, v.tokens[j].claims)
  {
    hide Leads, Apply, Reachable, SessionInvariant.Inv, NewPassword, Secret;
    ReachableInv(w);
    var c := w.tokens[jti].claims;
    var x := Identify(w, r, jti, ChangeTo(current, chosen));
    ReadsForChange(x, r, current, chosen);
    LeadsBy(x, ChangeRead(r));
    var y := Apply(x, ChangeRead(r));
    LeadsOn(w, x, y);
    CommitsChange(y, r, salt, next);
    LeadsBy(y, ChangeCommit(r, salt, next));
    v := Apply(y, ChangeCommit(r, salt, next));
    LeadsOn(w, y, v);
    PasswordMoved(w.rows, v.rows, c.sub, Argon(chosen, salt, false));
    UnknownIsUnrevoked(w, next);
    forall j | j in w.tokens && w.tokens[j].claims.sub == c.sub
      ensures !Accepted(v, v.tokens[j].claims)
    {
      OldEpoch(w, j);
    }
  }

  lemma PasswordMoved(t: Tables, s: Tables, id: UserId, hash: Hash)
    requires NewPassword(t, s, id, hash)
    ensures id in t.users && id in s.users && s.users[id].epoch == t.users[id].epoch + 1 && s.revoked == t.revoked
  {
  }

  lemma OldEpoch(w: World, jti: string)
    requires SessionInvariant.Inv(w) && jti in w.tokens
    ensures w.tokens[jti].claims.sub in w.rows.users && w.tokens[jti].claims.ver <= w.rows.users[w.tokens[jti].claims.sub].epoch
  {
    TokenHeld(w, jti);
  }

  lemma ChangeRefused(w: World, r: nat, jti: string, current: string, chosen: string) returns (v: World)
    requires Reachable(w) && At(w, r).Idle? && jti in w.tokens && Accepted(w, w.tokens[jti].claims)
    requires Secret(w.rows.users[w.tokens[jti].claims.sub].hash) != Some(current)
    ensures Leads(w, v) && v.rows == w.rows && v.tokens == w.tokens && At(v, r) == Idle
  {
    hide Leads, Apply, Reachable, Secret;
    var x := Identify(w, r, jti, ChangeTo(current, chosen));
    ReadsForChange(x, r, current, chosen);
    LeadsBy(x, ChangeRead(r));
    v := Apply(x, ChangeRead(r));
    LeadsOn(w, x, v);
  }

  // ---------- reset of password ----------

  lemma FindsForReset(w: World, r: nat, id: UserId)
    requires At(w, r).Idle? && id in w.rows.users
    ensures Apply(w, ResetRead(r, id)) == w.(requests := w.requests[r := ResetFound(id)], step := w.step + 1)
  {
  }

  lemma StampsReset(w: World, r: nat)
    requires At(w, r).ResetFound?
    ensures Apply(w, ResetClock(r)) == w.(requests := w.requests[r := ResetStamped(At(w, r).id, w.clock)], step := w.step + 1)
  {
  }

  lemma InsertsReset(w: World, r: nat, digest: string)
    requires At(w, r).ResetStamped? && digest !in w.rows.resets
    ensures
      var v, q := Apply(w, ResetInsert(r, digest)), At(w, r);
      && digest in v.rows.resets && v.rows.resets[digest].user == q.id && !v.rows.resets[digest].used
      && v.rows == w.rows.(resets := w.rows.resets[digest := v.rows.resets[digest]])
      && digest in v.stamped && v.stamped[digest] == q.now && v.clock == w.clock && v.requests == w.requests[r := Idle]
      && v.tokens == w.tokens && digest in v.issuedAt && v.issuedAt[digest] == w.step
  {
    hide IsoText;
  }

  /** A reset request leaves a usable token for the account that was named. */
  lemma ResetRequestAlone(w: World, r: nat, id: UserId, digest: string) returns (v: World)
    requires Reachable(w) && At(w, r).Idle? && id in w.rows.users && digest !in w.rows.resets
    ensures Leads(w, v) && v.clock == w.clock && v.tokens == w.tokens && v.rows.users == w.rows.users
    ensures digest in v.rows.resets && v.rows.resets[digest].user == id && !v.rows.resets[digest].used
    ensures v.rows == w.rows.(resets := w.rows.resets[digest := v.rows.resets[digest]])
    ensures digest in v.stamped && v.stamped[digest] == w.clock && v.requests == w.requests[r := Idle]
  {
    hide Leads, Apply, Reachable;
    FindsForReset(w, r, id);
    LeadsBy(w, ResetRead(r, id));
    var x := Apply(w, ResetRead(r, id));
    StampsReset(x, r);
    LeadsBy(x, ResetClock(r));
    var y := Apply(x, ResetClock(r));
    LeadsOn(w, x, y);
    InsertsReset(y, r, digest);
    LeadsBy(y, ResetInsert(r, digest));
    v := Apply(y, ResetInsert(r, digest));
    LeadsOn(w, y, v);
  }

  lemma LooksUpReset(w: World, r: nat, digest: string, chosen: string)
    requires At(w, r).Idle? && ResetUsable(w.rows, digest, w.clock)
    ensures Apply(w, ConfirmRead(r, digest, chosen)) ==
      w.(requests := w.requests[r := Confirming(digest, chosen)], step := w.step + 1)
  {
    hide ResetUsable;
  }

  lemma CommitsReset(w: World, r: nat, salt: nat)
    requires
      var q := At(w, r);
      q.Confirming? && ResetUsable(w.rows, q.digest, w.clock) && w.rows.resets[q.digest].user in w.rows.users
    ensures
      var q, v := At(w, r), Apply(w, ConfirmCommit(r, salt));
      && NewPassword(w.rows, v.rows, w.rows.resets[q.digest].user, Argon(q.chosen, salt, false))
      && v.tokens == w.tokens && v.clock == w.clock
  {
    var q := At(w, r);
    SetsPassword(w.rows, w.rows.resets[q.digest].user, Argon(q.chosen, salt, false));
    hide SetPassword, IsoText, NewPassword;
  }

  /** A usable reset token gives its account, and no other, the chosen password. */
  lemma ResetConfirmAlone(w: World, r: nat, digest: string, chosen: string, salt: nat) returns (v: World)
    requires Reachable(w) && At(w, r).Idle? && ResetUsable(w.rows, digest, w.clock)
    ensures Leads(w, v) && v.tokens == w.tokens
    ensures NewPassword(w.rows, v.rows, w.rows.resets[digest].user, Argon(chosen, salt, false))
  {
    hide Leads, Apply, Reachable, NewPassword, SessionInvariant.Inv, IsoText;
    ReachableInv(w);
    ResetsDated(w);
    LooksUpReset(w, r, digest, chosen);
    LeadsBy(w, ConfirmRead(r, digest, chosen));
    var x := Apply(w, ConfirmRead(r, digest, chosen));
    CommitsReset(x, r, salt);
    LeadsBy(x, ConfirmCommit(r, salt));
    v := Apply(x, ConfirmCommit(r, salt));
    LeadsOn(w, x, v);
  }
}
