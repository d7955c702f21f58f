/**
 Any number of concurrent requests against the credential tables. A request is a small program whose steps are
 its separate database accesses and clock readings; an action of the world is one such step of one request, so
 a sequence of actions is an arbitrary interleaving. An action whose guard fails does nothing.

 Write transactions are serial and each autocommit statement is atomic; jtis and reset tokens are fresh; only
 issued tokens can be presented; the clock never goes back; users are never deleted.
 */
module Sessions {
  import opened Outcomes
  import opened Accounts

  /** A users row as a request holds it, with the step that read it. */
  datatype Snapshot = Snapshot(id: UserId, user: User, readAt: nat)

  datatype Operation = LogOut | Renew | ChangeTo(current: string, chosen: string)

  /** Where a request stands, and what it has read so far. */
  datatype Request =
    | Idle
    | Checked(snap: Snapshot, password: string)        // login: password verified
    | Inserted(id: UserId)                             // register: row committed
    | Ready(snap: Snapshot)                            // login, register: about to issue a token
    | Presented(claims: Claims, op: Operation)         // signature and expiry checked
    | NotRevoked(claims: Claims, op: Operation)
    | Identified(claims: Claims, op: Operation)        // g.identity is set
    | Stamped(claims: Claims, now: Clock)              // logout: purge time read
    | Purged(claims: Claims)                           // logout: purge committed
    | Renewing(claims: Claims)                         // refresh: waiting for the write lock
    | Changing(snap: Snapshot, current: string, chosen: string)
    | ResetFound(id: UserId)
    | ResetStamped(id: UserId, now: Clock)             // reset request: clock read, half an hour to run
    | Confirming(digest: string, chosen: string)

  datatype Token = Token(claims: Claims, readAt: nat, root: string)

  datatype Cause = Confirmed(current: string, stored: Hash) | ByReset(digest: string, issuedAt: nat)
  datatype Change = Change(user: UserId, at: nat, chosen: string, cause: Cause)

  /**
   The first four fields are the system: tables, clock, requests in flight and the signed tokens clients hold.
   The others record history: no step's effect on the system depends on them.
   */
  datatype World = World(
    rows: Tables,
    clock: Clock,
    requests: map<nat, Request>,
    tokens: map<string, Token>,
    step: nat,
    origin: map<UserId, Option<string>>,   // password a user row started with
    changedAt: map<UserId, nat>,           // step of the last password change or reset
    changes: seq<Change>,
    issuedAt: map<string, nat>,            // step that inserted a reset row
    revokedEver: set<string>,
    forkedRoots: set<string>,              // families in which an already revoked token was refreshed
    stamped: map<string, Clock>)           // clock reading behind the expiry of a reset row issued in the run

  datatype Action =
    | Tick(d: nat)
    | Abort(r: nat)
    | LoginRead(r: nat, id: UserId, password: string)
    | LoginUpgrade(r: nat, salt: nat)
    | RegisterInsert(r: nat, id: UserId, username: string, password: string, salt: nat, epoch: int)
    | RegisterRead(r: nat)
    | IssueSession(r: nat, jti: string)
    | Present(r: nat, jti: string, op: Operation)
    | CheckRevoked(r: nat)
    | CheckEpoch(r: nat)
    | LogoutClock(r: nat)
    | LogoutPurge(r: nat)
    | LogoutInsert(r: nat)
    | RefreshRead(r: nat)
    | RefreshCommit(r: nat, jti: string)
    | ChangeRead(r: nat)
    | ChangeCommit(r: nat, salt: nat, jti: string)
    | ResetRead(r: nat, id: UserId)
    | ResetClock(r: nat)
    | ResetInsert(r: nat, digest: string)
    | ConfirmRead(r: nat, digest: string, chosen: string)
    | ConfirmCommit(r: nat, salt: nat)

  // ---------- steps ----------

  function At(w: World, r: nat): Request {
    if r in w.requests then w.requests[r] else Idle
  }

  function Go(w: World, r: nat, q: Request): World {
    w.(requests := w.requests[r := q])
  }

  function Mint(w: World, s: Snapshot, jti: string, root: string): World {
    w.(tokens := w.tokens[jti := Token(Issue(s.id, s.user.epoch, jti, w.clock), s.readAt, root)])
  }

  function CommitPassword(w: World, id: UserId, salt: nat, chosen: string, cause: Cause): World {
    w.(rows := SetPassword(w.rows, id, HashPassword(chosen, salt)),
       changedAt := w.changedAt[id := w.step],
       changes := w.changes + [Change(id, w.step, chosen, cause)])
  }

  function Login(w: World, r: nat, id: UserId, password: string): World {
    if At(w, r).Idle? && id in w.rows.users && Verifies(password, w.rows.users[id].hash)
    then Go(w, r, Checked(Snapshot(id, w.rows.users[id], w.step), password))
    else w
  }

  function Upgrade(w: World, r: nat, salt: nat): World {
    match At(w, r)
    case Checked(s, password) =>
      var rows := if NeedsUpgrade(s.user.hash)
                  then Rehash(w.rows, s.id, s.user.hash, HashPassword(password, salt)) else w.rows;
      Go(w.(rows := rows), r, Ready(s))
    case _ => w
  }

  function CreateUser(w: World, r: nat, id: UserId, user: User): World {
    match Register(w.rows, id, user)
    case Some(rows) =>
      if At(w, r).Idle? then
        Go(w.(rows := rows, origin := w.origin[id := Secret(user.hash)], changedAt := w.changedAt[id := 0]),
           r, Inserted(id))
      else w
    case None => w
  }

  function ReadCreated(w: World, r: nat): World {
    match At(w, r)
    case Inserted(id) => if id in w.rows.users then Go(w, r, Ready(Snapshot(id, w.rows.users[id], w.step))) else w
    case _ => w
  }

  function Session(w: World, r: nat, jti: string): World {
    match At(w, r)
    case Ready(s) => if jti in w.tokens then w else Go(Mint(w, s, jti, jti), r, Idle)
    case _ => w
  }

  function PresentToken(w: World, r: nat, jti: string, op: Operation): World {
    if At(w, r).Idle? && jti in w.tokens && Unexpired(w.tokens[jti].claims, w.clock)
    then Go(w, r, Presented(w.tokens[jti].claims, op))
    else w
  }

  function TestRevoked(w: World, r: nat): World {
    match At(w, r)
    case Presented(c, op) => Go(w, r, if c.jti in w.rows.revoked then Idle else NotRevoked(c, op))
    case _ => w
  }

  function TestEpoch(w: World, r: nat): World {
    match At(w, r)
    case NotRevoked(c, op) =>
      Go(w, r, if c.sub in w.rows.users && w.rows.users[c.sub].epoch == c.ver then Identified(c, op) else Idle)
    case _ => w
  }

  function StampLogout(w: World, r: nat): World {
    match At(w, r)
    case Identified(c, LogOut) => Go(w, r, Stamped(c, w.clock))
    case _ => w
  }

  function PurgeStep(w: World, r: nat): World {
    match At(w, r)
    case Stamped(c, now) => Go(w.(rows := Purge(w.rows, now)), r, Purged(c))
    case _ => w
  }

  function RevokeStep(w: World, r: nat): World {
    match At(w, r)
    case Purged(c) => Go(w.(rows := InsertRevoked(w.rows, c), revokedEver := w.revokedEver + {c.jti}), r, Idle)
    case _ => w
  }

  function ReadForRefresh(w: World, r: nat): World {
    match At(w, r)
    case Identified(c, Renew) => Go(w, r, if c.sub in w.rows.users then Renewing(c) else Idle)
    case _ => w
  }

  /** The token a login issued and from which this one descends by refreshes. */
  function Root(tokens: map<string, Token>, jti: string): string {
    if jti in tokens then tokens[jti].root else jti
  }

  /** Does the refresh waiting in r commit if it gets the lock now? */
  predicate RefreshCommits(w: World, r: nat, jti: string) {
    At(w, r).Renewing? && Refresh(w.rows, At(w, r).claims, w.clock).Some? && jti !in w.tokens
  }

  function RefreshStep(w: World, r: nat, jti: string): World {
    if RefreshCommits(w, r, jti) then
      var c := At(w, r).claims;
      var root := Root(w.tokens, c.jti);
      var v := w.(rows := Refresh(w.rows, c, w.clock).value,
                  revokedEver := w.revokedEver + {c.jti},
                  forkedRoots := if c.jti in w.revokedEver then w.forkedRoots + {root} else w.forkedRoots);
      Go(Mint(v, Snapshot(c.sub, w.rows.users[c.sub], w.step), jti, root), r, Idle)
    else if At(w, r).Renewing? && jti !in w.tokens then Go(w, r, Idle)
    else w
  }

  predicate OnTime(w: World, c: Claims) {
    w.clock <= InstantOf(c.exp)
  }

  function ReadForChange(w: World, r: nat): World {
    match At(w, r)
    case Identified(c, ChangeTo(current, chosen)) =>
      if c.sub in w.rows.users && Verifies(current, w.rows.users[c.sub].hash)
      then Go(w, r, Changing(Snapshot(c.sub, w.rows.users[c.sub], w.step), current, chosen))
      else Go(w, r, Idle)
    case _ => w
  }

  function ChangeStep(w: World, r: nat, salt: nat, jti: string): World {
    match At(w, r)
    case Changing(s, current, chosen) =>
      if jti in w.tokens then w
      else if ChangePassword(w.rows, s.id, s.user, HashPassword(chosen, salt)).Some? then
        var v := CommitPassword(w, s.id, salt, chosen, Confirmed(current, w.rows.users[s.id].hash));
        Go(Mint(v, Snapshot(s.id, v.rows.users[s.id], w.step), jti, jti), r, Idle)
      else Go(w, r, Idle)
    case _ => w
  }

  function FindForReset(w: World, r: nat, id: UserId): World {
    if At(w, r).Idle? && id in w.rows.users then Go(w, r, ResetFound(id)) else w
  }

  function StampReset(w: World, r: nat): World {
    match At(w, r)
    case ResetFound(id) => Go(w, r, ResetStamped(id, w.clock))
    case _ => w
  }

  function InsertReset(w: World, r: nat, digest: string): World {
    match At(w, r)
    case ResetStamped(id, now) =>
      if digest in w.rows.resets then w
      else Go(w.(rows := w.rows.(resets := w.rows.resets[digest := ResetRow(id, Some(IsoText(now + RESET_LIFE)), false)]),
                 issuedAt := w.issuedAt[digest := w.step], stamped := w.stamped[digest := now]), r, Idle)
    case _ => w
  }

  function CheckReset(w: World, r: nat, digest: string, chosen: string): World {
    if At(w, r).Idle? && ResetUsable(w.rows, digest, w.clock) then Go(w, r, Confirming(digest, chosen)) else w
  }

  function IssuedAt(w: World, digest: string): nat {
    if digest in w.issuedAt then w.issuedAt[digest] else 0
  }

  function ConfirmStep(w: World, r: nat, salt: nat): World {
    match At(w, r)
    case Confirming(digest, chosen) =>
      if ConfirmReset(w.rows, digest, HashPassword(chosen, salt), w.clock).Some?
      then Go(CommitPassword(w, w.rows.resets[digest].user, salt, chosen, ByReset(digest, IssuedAt(w, digest))), r, Idle)
      else Go(w, r, Idle)
    case _ => w
  }

  function Effect(w: World, a: Action): World {
    match a
    case Tick(d) => if w.clock + d + 3_600_000_000 < 253_402_300_800_000_000 then w.(clock := w.clock + d) else w
    case Abort(r) => Go(w, r, Idle)
    case LoginRead(r, id, password) => Login(w, r, id, password)
    case LoginUpgrade(r, salt) => Upgrade(w, r, salt)
    case RegisterInsert(r, id, name, password, salt, epoch) =>
      CreateUser(w, r, id, User(name, HashPassword(password, salt), epoch))
    case RegisterRead(r) => ReadCreated(w, r)
    case IssueSession(r, jti) => Session(w, r, jti)
    case Present(r, jti, op) => PresentToken(w, r, jti, op)
    case CheckRevoked(r) => TestRevoked(w, r)
    case CheckEpoch(r) => TestEpoch(w, r)
    case LogoutClock(r) => StampLogout(w, r)
    case LogoutPurge(r) => PurgeStep(w, r)
    case LogoutInsert(r) => RevokeStep(w, r)
    case RefreshRead(r) => ReadForRefresh(w, r)
    case RefreshCommit(r, jti) => RefreshStep(w, r, jti)
    case ChangeRead(r) => ReadForChange(w, r)
    case ChangeCommit(r, salt, jti) => ChangeStep(w, r, salt, jti)
    case ResetRead(r, id) => FindForReset(w, r, id)
    case ResetClock(r) => StampReset(w, r)
    case ResetInsert(r, digest) => InsertReset(w, r, digest)
    case ConfirmRead(r, digest, chosen) => CheckReset(w, r, digest, chosen)
    case ConfirmCommit(r, salt) => ConfirmStep(w, r, salt)
  }

  function Apply(w: World, a: Action): World {
    Effect(w, a).(step := w.step + 1)
  }

  /** The world after an interleaving. */
  function Run(w: World, actions: seq<Action>): World
    decreases |actions|
  {
    if actions == [] then w else Run(Apply(w, actions[0]), actions[1..])
  }

  /** A database with any users and reset rows, before any token of this key was issued. */
  ghost predicate Init(w: World) {
    && w.step == 1
    && w.requests == map[] && w.tokens == map[] && w.rows.revoked == map[]
    && w.revokedEver == {} && w.forkedRoots == {} && w.changes == [] && w.stamped == map[]
    && w.origin == (map id | id in w.rows.users :: Secret(w.rows.users[id].hash))
    && w.changedAt == (map id | id in w.rows.users :: 0)
    && w.issuedAt == (map d | d in w.rows.resets :: 0)
    && forall d :: d in w.rows.resets ==> w.rows.resets[d].user in w.rows.users
  }
}
