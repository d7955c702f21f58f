/**
 `_load_or_create_secrets` of config.py: any number of processes start at once on one secret file, each may crash
 at any step, and the file is made by writing a private temporary and renaming it while an flock is held. An
 action is one system call of one process. Nobody else writes the directory.
 */
module SecretStore {
  import opened Outcomes

  datatype Name = JwtSecret | SecretKey | DataKey

  /** A key text; `bytes` is its encoded length and `fernet` says whether Fernet() accepts it. */
  datatype Key = Key(text: string, bytes: nat, fernet: bool)

  /** What json.load makes of a file: an object whose string members are `keys`, another value, or an error. */
  datatype Content = Object(keys: map<Name, Key>) | OtherJson | Garbage

  /** `ownerOnly` is the check on file type, mode and owner. */
  datatype Entry = Regular(content: Content, ownerOnly: bool) | Symlink

  type Environment = map<Name, Key>  // the variables that are set and not empty

  datatype Process =
    | Waiting(env: Environment)                              // lock file open, flock not yet granted
    | Locked(env: Environment)
    | Reading(env: Environment, seen: Entry)                 // store opened
    | Making(env: Environment, keys: map<Name, Key>)         // store absent, keys generated
    | Writing(env: Environment, keys: map<Name, Key>, temp: nat)
    | Synced(env: Environment, keys: map<Name, Key>, temp: nat)
    | Replaced(env: Environment, keys: map<Name, Key>)
    | Unwinding(temp: nat)                                   // exception: the finally block unlinks the temporary
    | Done(env: Environment, result: map<Name, Key>)
    | Failed
    | Crashed(left: Option<nat>)                             // with the temporary it leaves behind

  datatype World = World(
    store: Option<Entry>,
    temps: map<nat, Content>,
    lock: Option<nat>,
    processes: map<nat, Process>)

  datatype Action =
    | Start(p: nat, env: Environment)
    | Acquire(p: nat)
    | Open(p: nat, made: map<Name, Key>)
    | MakeTemp(p: nat, temp: nat)
    | WritePart(p: nat)
    | WriteAll(p: nat)
    | Rename(p: nat)
    | Raise(p: nat)
    | Unlink(p: nat)
    | Finish(p: nat)
    | Crash(p: nat)

  const NAMES: set<Name> := {JwtSecret, SecretKey, DataKey}

  predicate ValidKeys(keys: map<Name, Key>) {
    && keys.Keys == NAMES
    && keys[JwtSecret].bytes >= 32 && keys[SecretKey].bytes >= 32 && keys[DataKey].fernet
  }

  /** `value or stored.get(name)` for each name. */
  function Merge(env: Environment, stored: map<Name, Key>): map<Name, Key> {
    stored + env
  }

  /** The keys a caller gets from an existing store; None is a RuntimeError. */
  function Load(env: Environment, seen: Entry): Option<map<Name, Key>> {
    if seen.Regular? && seen.ownerOnly && seen.content.Object? && ValidKeys(Merge(env, seen.content.keys))
    then Some(Merge(env, seen.content.keys)) else None
  }

  function At(w: World, p: nat): Option<Process> {
    if p in w.processes then Some(w.processes[p]) else None
  }

  function Go(w: World, p: nat, q: Process): World {
    w.(processes := w.processes[p := q])
  }

  function Release(w: World, p: nat, q: Process): World {
    Go(w, p, q).(lock := None)
  }

  predicate InLock(q: Process) {
    q.Locked? || q.Reading? || q.Making? || q.Writing? || q.Synced? || q.Replaced? || q.Unwinding?
  }

  /** The temporary that is the process's own, or that it left when it crashed. */
  function TempOf(q: Process): Option<nat> {
    if q.Writing? || q.Synced? || q.Unwinding? then Some(q.temp) else if q.Crashed? then q.left else None
  }

  function Begin(w: World, p: nat, env: Environment): World {
    if p in w.processes then w
    else if NAMES <= env.Keys then Go(w, p, if ValidKeys(env) then Done(env, env) else Failed)
    else Go(w, p, Waiting(env))
  }

  function OpenStore(w: World, p: nat, made: map<Name, Key>): World {
    match At(w, p)
    case Some(Locked(env)) =>
      (match w.store
       case None => if ValidKeys(made) then Go(w, p, Making(env, made)) else w
       case Some(Symlink) => Release(w, p, Failed)
       case Some(entry) => Go(w, p, Reading(env, entry)))
    case _ => w
  }

  function Effect(w: World, a: Action): World {
    match a
    case Start(p, env) => Begin(w, p, env)
    case Acquire(p) =>
      (match At(w, p)
       case Some(Waiting(env)) => if w.lock == None then Go(w, p, Locked(env)).(lock := Some(p)) else w
       case _ => w)
    case Open(p, made) => OpenStore(w, p, made)
    case MakeTemp(p, temp) =>
      (match At(w, p)
       case Some(Making(env, keys)) =>
         if temp in w.temps then w else Go(w, p, Writing(env, keys, temp)).(temps := w.temps[temp := Garbage])
       case _ => w)
    case WritePart(p) =>
      (match At(w, p)
       case Some(Writing(env, keys, temp)) => w.(temps := w.temps[temp := Garbage])
       case _ => w)
    case WriteAll(p) =>
      (match At(w, p)
       case Some(Writing(env, keys, temp)) => Go(w, p, Synced(env, keys, temp)).(temps := w.temps[temp := Object(keys)])
       case _ => w)
    case Rename(p) =>
      (match At(w, p)
       case Some(Synced(env, keys, temp)) =>
         if temp in w.temps
         then Go(w, p, Replaced(env, keys)).(store := Some(Regular(w.temps[temp], true)), temps := w.temps - {temp})
         else w
       case _ => w)
    case Raise(p) =>
      (match At(w, p)
       case Some(Making(_, _)) => Release(w, p, Failed)
       case Some(Writing(_, _, temp)) => Go(w, p, Unwinding(temp))
       case Some(Synced(_, _, temp)) => Go(w, p, Unwinding(temp))
       case _ => w)
    case Unlink(p) =>
      (match At(w, p)
       case Some(Unwinding(temp)) => Release(w, p, Failed).(temps := w.temps - {temp})
       case _ => w)
    case Finish(p) =>
      (match At(w, p)
       case Some(Reading(env, seen)) => Release(w, p, Outcome(env, Load(env, seen)))
       case Some(Replaced(env, keys)) => Release(w, p, Outcome(env, Load(env, Regular(Object(keys), true))))
       case _ => w)
    case Crash(p) =>
      if p in w.processes && !w.processes[p].Done? && !w.processes[p].Failed?
      then Go(w, p, Crashed(TempOf(w.processes[p]))).(lock := if w.lock == Some(p) then None else w.lock)
      else w
  }

  function Outcome(env: Environment, keys: Option<map<Name, Key>>): Process {
    match keys
    case Some(result) => Done(env, result)
    case None => Failed
  }

  function Run(w: World, actions: seq<Action>): World
    decreases |actions|
  {
    if actions == [] then w else Run(Effect(w, actions[0]), actions[1..])
  }

  /** Any store to begin with, leftover temporaries allowed, and no process yet. */
  predicate Init(w: World) {
    w.lock == None && w.processes == map[]
  }

  // ---------- invariant ----------

  /** What one process may rely on. */
  ghost predicate ProcessOk(store: Option<Entry>, temps: map<nat, Content>, q: Process) {
    && (q.Reading? ==> store == Some(q.seen) && q.seen.Regular?)
    && (q.Making? || q.Writing? || q.Synced? ==> store == None && ValidKeys(q.keys))
    && (q.Replaced? ==> store == Some(Regular(Object(q.keys), true)))
    && (q.Synced? ==> q.temp in temps && temps[q.temp] == Object(q.keys))
    && (q.Done? ==> if NAMES <= q.env.Keys then q.result == q.env && ValidKeys(q.env)
                    else store.Some? && Load(q.env, store.value) == Some(q.result))
  }

  predicate Overridden(env: Environment) {
    NAMES <= env.Keys
  }

  ghost predicate Placed(lock: Option<nat>, p: nat, q: Process) {
    && (InLock(q) <==> lock == Some(p))
    && (q.Waiting? || (InLock(q) && !q.Unwinding?) ==> !Overridden(q.env))
  }

  ghost predicate Inv(w: World) {
    && (w.lock.Some? ==> w.lock.value in w.processes)
    && (forall p :: p in w.processes ==> Placed(w.lock, p, w.processes[p]))
    && (forall p :: p in w.processes ==> ProcessOk(w.store, w.temps, w.processes[p]))
  }

  // ---------- every step keeps it, and never touches a store that is there ----------

  /** A step of the lock holder: the others hold nothing that depends on the temporaries or on an absent store. */
  lemma HolderKeeps(w: World, p: nat, v: World)
    requires Inv(w) && p in w.processes && InLock(w.processes[p])
    requires p in v.processes && v.processes == w.processes[p := v.processes[p]]
    requires v.lock == if InLock(v.processes[p]) then Some(p) else None
    requires v.store == w.store || w.store == None
    requires ProcessOk(v.store, v.temps, v.processes[p])
    requires v.processes[p].Waiting? || (InLock(v.processes[p]) && !v.processes[p].Unwinding?) ==>
      !Overridden(v.processes[p].env)
    ensures Inv(v)
  {
    forall i | i in v.processes && i != p
      ensures Placed(v.lock, i, v.processes[i]) && ProcessOk(v.store, v.temps, v.processes[i])
    {
      assert Placed(w.lock, p, w.processes[p]);
      assert Placed(w.lock, i, w.processes[i]) && ProcessOk(w.store, w.temps, w.processes[i]);
    }
  }

  /** A step of a process outside the lock that does not take it. */
  lemma OutsiderKeeps(w: World, p: nat, q: Process)
    requires Inv(w) && (p in w.processes ==> !InLock(w.processes[p])) && !InLock(q)
    requires ProcessOk(w.store, w.temps, q) && (q.Waiting? ==> !Overridden(q.env))
    ensures Inv(Go(w, p, q))
  {
    assert p in w.processes ==> Placed(w.lock, p, w.processes[p]);
  }

  ghost predicate SafeStep(w: World, v: World) {
    Inv(v) && (w.store.Some? ==> v.store == w.store)
  }

  lemma HeldBy(w: World, p: nat)
    requires Inv(w) && p in w.processes
    ensures Placed(w.lock, p, w.processes[p]) && ProcessOk(w.store, w.temps, w.processes[p])
  {
  }

  lemma BeginKeeps(w: World, p: nat, env: Environment)
    requires Inv(w)
    ensures SafeStep(w, Begin(w, p, env))
  {
    if p !in w.processes {
      OutsiderKeeps(w, p, if !Overridden(env) then Waiting(env) else if ValidKeys(env) then Done(env, env) else Failed);
    }
  }

  lemma AcquireKeeps(w: World, p: nat)
    requires Inv(w)
    ensures SafeStep(w, Effect(w, Acquire(p)))
  {
    var v := Effect(w, Acquire(p));
    if v != w {
      HeldBy(w, p);
      forall i | i in v.processes && i != p
        ensures Placed(v.lock, i, v.processes[i]) && ProcessOk(v.store, v.temps, v.processes[i])
      {
        HeldBy(w, i);
      }
    }
  }

  lemma CrashKeeps(w: World, p: nat)
    requires Inv(w)
    ensures SafeStep(w, Effect(w, Crash(p)))
  {
    var v := Effect(w, Crash(p));
    if v != w {
      HeldBy(w, p);
      if InLock(w.processes[p]) {
        HolderKeeps(w, p, v);
      } else {
        OutsiderKeeps(w, p, Crashed(TempOf(w.processes[p])));
      }
    }
  }

  lemma HolderStepKeeps(w: World, a: Action)
    requires Inv(w) && !a.Start? && !a.Acquire? && !a.Crash?
    ensures SafeStep(w, Effect(w, a))
  {
    hide Inv, Merge, ValidKeys;
    var v := Effect(w, a);
    if v != w {
      HeldBy(w, a.p);
      HolderKeeps(w, a.p, v);
    }
  }

  lemma StepKeeps(w: World, a: Action)
    requires Inv(w)
    ensures SafeStep(w, Effect(w, a))
  {
    match a
    case Start(p, env) => BeginKeeps(w, p, env);
    case Acquire(p) => AcquireKeeps(w, p);
    case Crash(p) => CrashKeeps(w, p);
    case _ => HolderStepKeeps(w, a);
  }

  lemma {:induction false} RunKeeps(w: World, actions: seq<Action>)
    requires Inv(w)
    ensures SafeStep(w, Run(w, actions))
    decreases |actions|
  {
    if actions != [] {
      StepKeeps(w, actions[0]);
      RunKeeps(Effect(w, actions[0]), actions[1..]);
    }
  }

  ghost predicate Reachable(w0: World, w: World) {
    Init(w0) && exists actions :: w == Run(w0, actions)
  }

  lemma ReachableInv(w0: World, w: World)
    requires Reachable(w0, w)
    ensures SafeStep(w0, w)
  {
    var actions :| w == Run(w0, actions);
    RunKeeps(w0, actions);
  }

  // ---------- what every run keeps ----------

  ghost predicate Complete(store: Option<Entry>) {
    && store.Some? && store.value.Regular? && store.value.ownerOnly
    && store.value.content.Object? && ValidKeys(store.value.content.keys)
  }

  lemma {:induction false} CreatedComplete(w: World, actions: seq<Action>)
    requires Inv(w) && (w.store.Some? ==> Complete(w.store))
    ensures var v := Run(w, actions); v.store.Some? ==> Complete(v.store)
    decreases |actions|
  {
    if actions != [] {
      var v := Effect(w, actions[0]);
      StepKeeps(w, actions[0]);
      if w.store == None && v.store.Some? {
        HeldBy(w, actions[0].p);
      }
      CreatedComplete(v, actions[1..]);
    }
  }

  /**
   Whatever crashes, once the file is there its content never changes, so a bad store is never overwritten. A store
   that was absent at first is, at every moment, absent still or complete: private, parsed, with three valid keys.
   */
  lemma StoreAbsentOrComplete(w0: World, w: World, later: seq<Action>)
    requires Reachable(w0, w)
    ensures w0.store.Some? ==> w.store == w0.store
    ensures w.store.Some? ==> Run(w, later).store == w.store
    ensures w0.store == None && w.store.Some? ==> Complete(w.store)
  {
    ReachableInv(w0, w);
    RunKeeps(w, later);
    var actions :| w == Run(w0, actions);
    if w0.store == None {
      CreatedComplete(w0, actions);
    }
  }

  /** Two callers that succeeded agree on every key that neither takes from its environment. */
  lemma CallersAgree(w0: World, w: World, p: nat, q: nat, name: Name)
    requires Reachable(w0, w) && p in w.processes && q in w.processes
    requires w.processes[p].Done? && w.processes[q].Done?
    requires name !in w.processes[p].env && name !in w.processes[q].env
    ensures name in w.processes[p].result && name in w.processes[q].result
    ensures w.processes[p].result[name] == w.processes[q].result[name]
  {
    ReachableInv(w0, w);
    HeldBy(w, p);
    HeldBy(w, q);
    assert NAMES == {JwtSecret, SecretKey, DataKey};
  }

  /** A caller's own environment always wins, and what it gets always passes validation. */
  lemma CallersGetValidKeys(w0: World, w: World, p: nat)
    requires Reachable(w0, w) && p in w.processes && w.processes[p].Done?
    ensures ValidKeys(w.processes[p].result)
    ensures forall name :: name in w.processes[p].env ==>
      name in w.processes[p].result && w.processes[p].result[name] == w.processes[p].env[name]
  {
    ReachableInv(w0, w);
    HeldBy(w, p);
  }

  /** A store serves a caller exactly if it is private and every key, the caller's own first, is long enough or usable. */
  lemma LoadIff(env: Environment, stored: map<Name, Key>, ownerOnly: bool)
    ensures
      var keys := map n: Name | n in stored.Keys + env.Keys :: if n in env then env[n] else stored[n];
      Load(env, Regular(Object(stored), ownerOnly)) ==
        if && ownerOnly && JwtSecret in keys && SecretKey in keys && DataKey in keys
           && keys[JwtSecret].bytes >= 32 && keys[SecretKey].bytes >= 32 && keys[DataKey].fernet
        then Some(keys) else None
    ensures Load(env, Symlink) == None && Load(env, Regular(OtherJson, ownerOnly)) == None
    ensures Load(env, Regular(Garbage, ownerOnly)) == None
  {
    var keys := map n: Name | n in stored.Keys + env.Keys :: if n in env then env[n] else stored[n];
    assert Merge(env, stored) == keys;
    assert keys.Keys == NAMES <==> JwtSecret in keys && SecretKey in keys && DataKey in keys by {
      forall n: Name
        ensures n in NAMES
      {
        match n
        case JwtSecret =>
        case SecretKey =>
        case DataKey =>
      }
    }
  }

  /** A caller that needs a stored key succeeds only with what the store of the beginning or the one made gives. */
  lemma BadStoreStopsCallers(w0: World, w: World, p: nat)
    requires Reachable(w0, w) && w0.store.Some?
    requires p in w.processes && w.processes[p].Done? && !Overridden(w.processes[p].env)
    ensures Load(w.processes[p].env, w0.store.value) == Some(w.processes[p].result)
  {
    ReachableInv(w0, w);
    HeldBy(w, p);
  }

  // ---------- temporaries ----------

  predicate Owns(w: World, p: nat, temp: nat) {
    p in w.processes && TempOf(w.processes[p]) == Some(temp)
  }

  /** The temporaries are those of the beginning, unchanged, and one for each process that made one and has it still. */
  ghost predicate TempsOk(first: map<nat, Content>, w: World) {
    && (forall t :: t in first ==> t in w.temps && w.temps[t] == first[t])
    && (forall t :: t in w.temps ==> t in first || exists p :: Owns(w, p, t))
    && (forall p, t :: Owns(w, p, t) ==> t in w.temps && t !in first)
    && (forall p, q, t :: Owns(w, p, t) && Owns(w, q, t) ==> p == q)
  }

  /** A process keeps its temporary, or has none before and after; the files stay, whatever is written to its own. */
  lemma SameTempsOk(first: map<nat, Content>, w: World, p: nat, v: World)
    requires TempsOk(first, w) && v.processes.Keys == w.processes.Keys + {p}
    requires forall q :: q in w.processes && q != p ==> v.processes[q] == w.processes[q]
    requires TempOf(v.processes[p]) == if p in w.processes then TempOf(w.processes[p]) else None
    requires v.temps.Keys == w.temps.Keys
    requires forall t :: t in w.temps && !Owns(w, p, t) ==> v.temps[t] == w.temps[t]
    ensures TempsOk(first, v)
  {
    assert forall q, t :: Owns(v, q, t) <==> Owns(w, q, t);
  }

  /** A process makes a temporary under a name that no file has. */
  lemma NewTempOk(first: map<nat, Content>, w: World, p: nat, temp: nat, v: World)
    requires TempsOk(first, w) && p in w.processes && TempOf(w.processes[p]) == None && temp !in w.temps
    requires p in v.processes && v.processes == w.processes[p := v.processes[p]] && TempOf(v.processes[p]) == Some(temp)
    requires temp in v.temps && v.temps == w.temps[temp := v.temps[temp]]
    ensures TempsOk(first, v)
  {
    assert Owns(v, p, temp);
    forall t | t in v.temps && t !in first && t != temp
      ensures exists q :: Owns(v, q, t)
    {
      var q :| Owns(w, q, t);
      assert Owns(v, q, t);
    }
    forall q, t | Owns(v, q, t) && q != p
      ensures Owns(w, q, t) && t != temp
    {
      assert Owns(w, q, t);
    }
  }

  /** A process renames or unlinks its temporary. */
  lemma DropTempOk(first: map<nat, Content>, w: World, p: nat, temp: nat, v: World)
    requires TempsOk(first, w) && Owns(w, p, temp)
    requires p in v.processes && v.processes == w.processes[p := v.processes[p]] && TempOf(v.processes[p]) == None
    requires v.temps == w.temps - {temp}
    ensures TempsOk(first, v)
  {
    forall t | t in v.temps && t !in first
      ensures exists q :: Owns(v, q, t)
    {
      var q :| Owns(w, q, t);
      assert Owns(v, q, t);
    }
    forall q, t | Owns(v, q, t)
      ensures Owns(w, q, t) && t != temp
    {
      assert Owns(w, q, t);
    }
  }

  lemma StepTemps(first: map<nat, Content>, w: World, a: Action)
    requires TempsOk(first, w)
    ensures TempsOk(first, Effect(w, a))
  {
    hide TempsOk, Load, ValidKeys, Merge;
    var v, p := Effect(w, a), a.p;
    if v != w {
      if a.MakeTemp? {
        NewTempOk(first, w, p, a.temp, v);
      } else if a.Rename? || a.Unlink? {
        DropTempOk(first, w, p, TempOf(w.processes[p]).value, v);
      } else {
        OwnedIsThere(first, w);
        assert a.WritePart? || a.WriteAll? ==> Owns(w, p, w.processes[p].temp);
        SameTempsOk(first, w, p, v);
      }
    }
  }

  lemma OwnedIsThere(first: map<nat, Content>, w: World)
    requires TempsOk(first, w)
    ensures forall p, t :: Owns(w, p, t) ==> t in w.temps
  {
  }

  lemma {:induction false} RunTemps(first: map<nat, Content>, w: World, actions: seq<Action>)
    requires TempsOk(first, w)
    ensures TempsOk(first, Run(w, actions))
    decreases |actions|
  {
    hide TempsOk, Effect;
    if actions != [] {
      StepTemps(first, w, actions[0]);
      RunTemps(first, Effect(w, actions[0]), actions[1..]);
    }
  }

  /**
   Whatever crashes, nobody touches a temporary of the beginning, every other one belongs to exactly one process,
   which holds the lock or has crashed, and no other process has one: when nobody holds the lock, the temporaries
   that were not there before are exactly those that crashes left.
   */
  lemma TemporariesAreAccounted(w0: World, w: World, t: nat)
    requires Reachable(w0, w)
    ensures t in w0.temps ==> t in w.temps && w.temps[t] == w0.temps[t]
    ensures t in w.temps && t !in w0.temps <==> exists p :: Owns(w, p, t)
    ensures forall p :: Owns(w, p, t) ==> w.processes[p].Crashed? || w.lock == Some(p)
    ensures forall p, q :: Owns(w, p, t) && Owns(w, q, t) ==> p == q
  {
    var actions :| w == Run(w0, actions);
    ReachableInv(w0, w);
    assert TempsOk(w0.temps, w0);
    RunTemps(w0.temps, w0, actions);
    forall p | Owns(w, p, t)
      ensures w.processes[p].Crashed? || w.lock == Some(p)
    {
      HeldBy(w, p);
    }
  }

  // ---------- one caller alone ----------

  /** Where an exception strikes a caller that makes the store. */
  datatype Fault = NoFault | InMakeTemp | InWrite | InRename

  /** The store and the keys after one undisturbed call. */
  function Solo(store: Option<Entry>, env: Environment, made: map<Name, Key>, fault: Fault)
    : (Option<Entry>, Option<map<Name, Key>>)
  {
    if Overridden(env) then (store, if ValidKeys(env) then Some(env) else None)
    else match store
      case Some(entry) => (store, Load(env, entry))
      case None =>
        if fault != NoFault then (None, None)
        else (Some(Regular(Object(made), true)), Load(env, Regular(Object(made), true)))
  }

  class SecretDirectory {
    var store: Option<Entry>
    var temps: map<nat, Content>

    method LoadOrCreate(env: Environment, made: map<Name, Key>, temp: nat, fault: Fault)
      returns (keys: Option<map<Name, Key>>)
      requires ValidKeys(made) && temp !in temps
      modifies this
      ensures (store, keys) == Solo(old(store), env, made, fault)
      ensures temps == old(temps)
    {
      if Overridden(env) {
        return if ValidKeys(env) then Some(env) else None;
      }
      var stored;
      if store == None {
        if fault == InMakeTemp {
          return None;
        }
        temps := temps[temp := Garbage];
        if fault == InWrite {
          temps := temps - {temp};
          return None;
        }
        temps := temps[temp := Object(made)];
        if fault == InRename {
          temps := temps - {temp};
          return None;
        }
        store := Some(Regular(temps[temp], true));
        temps := temps - {temp};
        stored := made;
      } else {
        var entry := store.value;
        if !entry.Regular? || !entry.ownerOnly || !entry.content.Object? {
          return None;
        }
        stored := entry.content.keys;
      }
      keys := if ValidKeys(Merge(env, stored)) then Some(Merge(env, stored)) else None;
    }
  }

  /** The system calls of one undisturbed call. */
  function Script(p: nat, store: Option<Entry>, env: Environment, made: map<Name, Key>, temp: nat, fault: Fault): seq<Action> {
    if Overridden(env) then [Start(p, env)]
    else if store.Some? then [Start(p, env), Acquire(p), Open(p, made), Finish(p)]
    else [Start(p, env), Acquire(p), Open(p, made)] + Creation(p, temp, fault)
  }

  function Creation(p: nat, temp: nat, fault: Fault): seq<Action> {
    match fault
    case NoFault => [MakeTemp(p, temp), WriteAll(p), Rename(p), Finish(p)]
    case InMakeTemp => [Raise(p)]
    case InWrite => [MakeTemp(p, temp), WritePart(p), Raise(p), Unlink(p)]
    case InRename => [MakeTemp(p, temp), WriteAll(p), Raise(p), Unlink(p)]
  }

  lemma RunCons(w: World, a: Action, rest: seq<Action>)
    ensures Run(w, [a] + rest) == Run(Effect(w, a), rest)
  {
    assert ([a] + rest)[1..] == rest;
  }

  lemma RunFour(w: World, a: Action, b: Action, c: Action, d: Action)
    ensures Run(w, [a, b, c, d]) == Effect(Effect(Effect(Effect(w, a), b), c), d)
  {
    hide Effect;
    assert [a, b, c, d] == [a] + ([b] + ([c] + ([d] + [])));
    RunCons(w, a, [b] + ([c] + ([d] + [])));
    RunCons(Effect(w, a), b, [c] + ([d] + []));
    RunCons(Effect(Effect(w, a), b), c, [d] + []);
    RunCons(Effect(Effect(Effect(w, a), b), c), d, []);
  }

  lemma RunThree(w: World, a: Action, b: Action, c: Action, rest: seq<Action>)
    ensures Run(w, [a, b, c] + rest) == Run(Effect(Effect(Effect(w, a), b), c), rest)
  {
    hide Effect;
    assert [a, b, c] + rest == [a] + ([b] + ([c] + rest));
    RunCons(w, a, [b] + ([c] + rest));
    RunCons(Effect(w, a), b, [c] + rest);
    RunCons(Effect(Effect(w, a), b), c, rest);
  }

  ghost predicate Ends(w: World, v: World, p: nat, env: Environment, result: (Option<Entry>, Option<map<Name, Key>>)) {
    && v.store == result.0 && v.lock == None && v.temps == w.temps
    && v.processes == w.processes[p := Outcome(env, result.1)]
  }

  /** The method is a run of the protocol: its system calls in order, when nobody holds the lock. */
  lemma SoloIsARun(w: World, p: nat, env: Environment, made: map<Name, Key>, temp: nat, fault: Fault)
    requires w.lock == None && p !in w.processes && ValidKeys(made) && temp !in w.temps
    ensures Ends(w, Run(w, Script(p, w.store, env, made, temp, fault)), p, env, Solo(w.store, env, made, fault))
  {
    hide ValidKeys, Merge, Load, Effect;
    if Overridden(env) {
      assert [Start(p, env)] == [Start(p, env)] + [];
      RunCons(w, Start(p, env), []);
      StartsOverridden(w, p, env);
    } else if w.store.Some? {
      ReadEnds(w, p, env, made);
    } else {
      RunThree(w, Start(p, env), Acquire(p), Open(p, made), Creation(p, temp, fault));
      TakesLock(w, p, env);
      OpensNothing(w, p, env, made);
      CreationEnds(w, p, env, made, temp, fault);
    }
  }

  lemma StartsOverridden(w: World, p: nat, env: Environment)
    requires p !in w.processes && Overridden(env)
    ensures Effect(w, Start(p, env)) == Go(w, p, Outcome(env, if ValidKeys(env) then Some(env) else None))
  {
    hide ValidKeys;
  }

  lemma OpensNothing(w: World, p: nat, env: Environment, made: map<Name, Key>)
    requires w.store == None && ValidKeys(made)
    ensures Effect(Holding(w, p, Locked(env)), Open(p, made)) == Holding(w, p, Making(env, made))
  {
    hide ValidKeys;
    assert w.processes[p := Locked(env)][p := Making(env, made)] == w.processes[p := Making(env, made)];
  }

  lemma TakesLock(w: World, p: nat, env: Environment)
    requires w.lock == None && p !in w.processes && !Overridden(env)
    ensures Effect(Effect(w, Start(p, env)), Acquire(p)) == Holding(w, p, Locked(env))
  {
    assert Effect(w, Start(p, env)) == Go(w, p, Waiting(env));
  }

  lemma ReadEnds(w: World, p: nat, env: Environment, made: map<Name, Key>)
    requires w.lock == None && p !in w.processes && !Overridden(env) && w.store.Some?
    ensures Ends(w, Run(w, [Start(p, env), Acquire(p), Open(p, made), Finish(p)]), p, env, (w.store, Load(env, w.store.value)))
  {
    hide Effect, Load;
    RunFour(w, Start(p, env), Acquire(p), Open(p, made), Finish(p));
    TakesLock(w, p, env);
    if w.store.value.Symlink? {
      RefusesLink(w, p, env, made);
    } else {
      ReadsStore(w, p, env, made);
    }
  }

  lemma RefusesLink(w: World, p: nat, env: Environment, made: map<Name, Key>)
    requires w.lock == None && w.store == Some(Symlink)
    ensures
      var v := Effect(Effect(Holding(w, p, Locked(env)), Open(p, made)), Finish(p));
      v == Go(w, p, Failed) && Load(env, Symlink) == None
  {
    hide ValidKeys, Merge;
    var u := Effect(Holding(w, p, Locked(env)), Open(p, made));
    assert u == Go(w, p, Failed) by {
      assert w.processes[p := Locked(env)][p := Failed] == w.processes[p := Failed];
    }
  }

  lemma ReadsStore(w: World, p: nat, env: Environment, made: map<Name, Key>)
    requires w.lock == None && w.store.Some? && w.store.value.Regular?
    ensures Effect(Effect(Holding(w, p, Locked(env)), Open(p, made)), Finish(p)) ==
      Go(w, p, Outcome(env, Load(env, w.store.value)))
  {
    hide Load;
    var q := Reading(env, w.store.value);
    var u := Effect(Holding(w, p, Locked(env)), Open(p, made));
    assert u == Holding(w, p, q) by {
      assert w.processes[p := Locked(env)][p := q] == w.processes[p := q];
    }
    assert Effect(u, Finish(p)).processes == w.processes[p := Outcome(env, Load(env, w.store.value))];
  }

  function Holding(w: World, p: nat, q: Process): World {
    Go(w, p, q).(lock := Some(p))
  }

  lemma CreationEnds(w: World, p: nat, env: Environment, made: map<Name, Key>, temp: nat, fault: Fault)
    requires w.lock == None && w.store == None && !Overridden(env) && temp !in w.temps
    ensures Ends(w, Run(Holding(w, p, Making(env, made)), Creation(p, temp, fault)), p, env, Solo(None, env, made, fault))
  {
    match fault
    case NoFault => CreationSucceeds(w, p, env, made, temp);
    case InMakeTemp =>
      var v := Holding(w, p, Making(env, made));
      assert [Raise(p)] == [Raise(p)] + [];
      RunCons(v, Raise(p), []);
      assert Effect(v, Raise(p)).processes == w.processes[p := Failed];
    case InWrite => WriteFails(w, p, env, made, temp);
    case InRename => RenameFails(w, p, env, made, temp);
  }

  lemma WritesTemp(w: World, p: nat, env: Environment, made: map<Name, Key>, temp: nat)
    requires temp !in w.temps
    ensures Effect(Effect(Holding(w, p, Making(env, made)), MakeTemp(p, temp)), WriteAll(p)) ==
      Holding(w, p, Synced(env, made, temp)).(temps := w.temps[temp := Object(made)])
  {
    var v := Holding(w, p, Making(env, made));
    assert Effect(v, MakeTemp(p, temp)) == Holding(w, p, Writing(env, made, temp)).(temps := w.temps[temp := Garbage]);
  }

  lemma RenamesTemp(w: World, p: nat, env: Environment, made: map<Name, Key>, temp: nat)
    requires temp !in w.temps
    ensures Effect(Holding(w, p, Synced(env, made, temp)).(temps := w.temps[temp := Object(made)]), Rename(p)) ==
      Holding(w, p, Replaced(env, made)).(store := Some(Regular(Object(made), true)))
  {
    assert w.temps[temp := Object(made)] - {temp} == w.temps;
  }

  lemma CreationSucceeds(w: World, p: nat, env: Environment, made: map<Name, Key>, temp: nat)
    requires w.lock == None && w.store == None && !Overridden(env) && temp !in w.temps
    ensures Ends(w, Run(Holding(w, p, Making(env, made)), Creation(p, temp, NoFault)), p, env, Solo(None, env, made, NoFault))
  {
    hide Load;
    var v := Holding(w, p, Making(env, made));
    RunFour(v, MakeTemp(p, temp), WriteAll(p), Rename(p), Finish(p));
    WritesTemp(w, p, env, made, temp);
    RenamesTemp(w, p, env, made, temp);
    var c := Holding(w, p, Replaced(env, made)).(store := Some(Regular(Object(made), true)));
    assert Effect(c, Finish(p)).processes == w.processes[p := Outcome(env, Load(env, Regular(Object(made), true)))];
  }

  lemma WriteFails(w: World, p: nat, env: Environment, made: map<Name, Key>, temp: nat)
    requires w.lock == None && w.store == None && !Overridden(env) && temp !in w.temps
    ensures Ends(w, Run(Holding(w, p, Making(env, made)), Creation(p, temp, InWrite)), p, env, (None, None))
  {
    var v := Holding(w, p, Making(env, made));
    RunFour(v, MakeTemp(p, temp), WritePart(p), Raise(p), Unlink(p));
    var a := Effect(v, MakeTemp(p, temp));
    assert a == Holding(w, p, Writing(env, made, temp)).(temps := w.temps[temp := Garbage]);
    assert Effect(a, WritePart(p)) == a;
    UnlinkEnds(w, a, p, temp);
  }

  lemma RenameFails(w: World, p: nat, env: Environment, made: map<Name, Key>, temp: nat)
    requires w.lock == None && w.store == None && !Overridden(env) && temp !in w.temps
    ensures Ends(w, Run(Holding(w, p, Making(env, made)), Creation(p, temp, InRename)), p, env, (None, None))
  {
    var v := Holding(w, p, Making(env, made));
    RunFour(v, MakeTemp(p, temp), WriteAll(p), Raise(p), Unlink(p));
    WritesTemp(w, p, env, made, temp);
    UnlinkEnds(w, Holding(w, p, Synced(env, made, temp)).(temps := w.temps[temp := Object(made)]), p, temp);
  }

  /** The finally block leaves the directory as it was. */
  lemma UnlinkEnds(w: World, v: World, p: nat, temp: nat)
    requires p in v.processes && (v.processes[p].Writing? || v.processes[p].Synced?) && v.processes[p].temp == temp
    requires v == Holding(w, p, v.processes[p]).(temps := v.temps) && v.temps - {temp} == w.temps && w.lock == None
    ensures Effect(Effect(v, Raise(p)), Unlink(p)) == Go(w, p, Failed)
  {
    var x := Effect(v, Raise(p));
    assert x == Holding(w, p, Unwinding(temp)).(temps := v.temps);
  }
}
