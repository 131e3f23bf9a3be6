/** Shared writer leases, the exclusive cut and managed SQLite handles, over every interleaving
    of processes and threads. */
module GateMachine {

  /** Where a managed operation stands; each step may be followed by a step of any other one. */
  datatype Pc = Idle | Gated | Locked | Began | Opened | Finishing | Ending | Leaving | Unlocked | Done

  datatype Handle = NoHandle | Open | Uncertain | Closed

  /** A managed operation: its process and thread, its handle, whether it holds its shared lease,
      whether the lease is retained for an uncertain close, and whether it began SQLite. */
  datatype Task = Task(process: nat, thread: nat, pc: Pc, handle: Handle, lease: bool, retained: bool, started: bool)

  /** A process's lifetime lock: reentrant, with an active SQLite flag and a sticky uncertainty. */
  datatype Lifetime = Lifetime(owner: nat, depth: nat, active: bool, uncertain: bool)

  const FREE := Lifetime(0, 0, false, false)

  datatype World = World(tasks: map<nat, Task>, locks: map<nat, Lifetime>, cut: bool)

  const START := World(map[], map[], false)

  function LockOf(w: World, process: nat): Lifetime {
    if process in w.locks then w.locks[process] else FREE
  }

  datatype Action =
    | Spawn(id: nat, process: nat, thread: nat)
    | AcquireShared(id: nat, granted: bool)
    | EnterLock(id: nat)
    | Begin(id: nat, preflight: bool)
    | OpenDatabase(id: nat, result: Handle)
    | EndBody(id: nat, uncertain: bool)
    | Close(id: nat, definite: bool)
    | EndSqlite(id: nat)
    | ExitLock(id: nat)
    | Release(id: nat)
    | Exit(process: nat)
    | AcquireCut
    | ReleaseCut

  /** What a step does to the operation that takes it and to its process's lock. A step that is
      not possible where the operation stands changes nothing. */
  function Moved(t: Task, l: Lifetime, cut: bool, a: Action): (Task, Lifetime) {
    match a
    case AcquireShared(_, granted) =>
      if t.pc != Idle then (t, l)
      else if granted && !cut then (t.(pc := Gated, lease := true), l)
      else (t.(pc := Done), l)
    case EnterLock(_) =>
      if t.pc != Gated || (l.depth > 0 && l.owner != t.thread) then (t, l)
      else if l.uncertain then (t.(pc := Unlocked), l)
      else (t.(pc := Locked), l.(owner := t.thread, depth := l.depth + 1))
    case Begin(_, preflight) =>
      if t.pc != Locked then (t, l)
      else if !preflight || l.active then (t.(pc := Finishing), l)
      else (t.(pc := Began, started := true), l.(active := true))
    case OpenDatabase(_, result) =>
      if t.pc != Began || result == Closed then (t, l)
      else if result == Open then (t.(pc := Opened, handle := Open), l)
      else if result == Uncertain
        then (t.(pc := Finishing, handle := Uncertain, retained := true), l.(uncertain := true))
      else (t.(pc := Finishing), l)
    case EndBody(_, uncertain) =>
      if t.pc != Opened then (t, l)
      else if uncertain then (t.(pc := Finishing, retained := true), l.(uncertain := true))
      else (t.(pc := Finishing), l)
    case Close(_, definite) =>
      if t.pc != Finishing then (t, l)
      else if t.retained || t.handle != Open then (t.(pc := Ending), l)
      else if definite then (t.(pc := Ending, handle := Closed), l)
      else (t.(pc := Ending, handle := Uncertain, retained := true), l.(uncertain := true))
    case EndSqlite(_) =>
      if t.pc != Ending then (t, l)
      else if t.started && !t.retained then (t.(pc := Leaving, started := false), l.(active := false))
      else (t.(pc := Leaving), l)
    case ExitLock(_) =>
      if t.pc != Leaving then (t, l)
      else (t.(pc := Unlocked), l.(depth := if l.depth > 0 then l.depth - 1 else 0))
    case Release(_) =>
      if t.pc != Unlocked then (t, l) else (t.(pc := Done, lease := t.retained), l)
    case _ => (t, l)
  }

  function Next(w: World, a: Action): World {
    match a
    case Spawn(id, p, th) =>
      if id in w.tasks then w else w.(tasks := w.tasks[id := Task(p, th, Idle, NoHandle, false, false, false)])
    case Exit(p) => w.(tasks := map id | id in w.tasks && w.tasks[id].process != p :: w.tasks[id])
    case AcquireCut => if exists id | id in w.tasks :: w.tasks[id].lease then w else w.(cut := true)
    case ReleaseCut => w.(cut := false)
    case _ =>
      if a.id !in w.tasks then w
      else
        var t := w.tasks[a.id];
        var moved := Moved(t, LockOf(w, t.process), w.cut, a);
        w.(tasks := w.tasks[a.id := moved.0], locks := w.locks[t.process := moved.1])
  }

  function Run(w: World, actions: seq<Action>): World {
    if actions == [] then w else Next(Run(w, actions[..|actions| - 1]), actions[|actions| - 1])
  }

  // ------------------------------------------------------------- invariants

  predicate Live(h: Handle) { h == Open || h == Uncertain }

  /** The lease outlives the handle, at every step of a task. */
  ghost predicate TaskSound(t: Task) {
    && (t.pc == Idle ==> !t.lease && t.handle == NoHandle && !t.retained && !t.started)
    && (t.pc != Idle && t.pc != Done ==> t.lease)
    && (Live(t.handle) ==> t.lease && t.started)
    && (t.handle == Uncertain ==> t.retained)
    && (t.retained ==> t.lease && t.started && Live(t.handle))
    && (t.pc in {Gated, Locked, Done} && !t.retained ==> !Live(t.handle) && !t.started)
    && (t.pc in {Leaving, Unlocked} && !t.retained ==> !Live(t.handle) && !t.started)
    && (t.pc == Ending && !t.retained ==> !Live(t.handle))
    && (t.pc in {Gated, Locked, Idle} ==> !t.retained && t.handle == NoHandle)
    && (t.pc == Began ==> t.started && !t.retained && t.handle == NoHandle)
    && (t.pc == Opened ==> t.handle == Open && !t.retained)
    && (t.pc == Finishing && t.handle == Open ==> t.started)
    && (t.pc == Done ==> t.lease == t.retained)
  }

  /** At most one task of a process has begun SQLite, the lock knows it, and an uncertain lock
      stays with the operation whose lease is retained. */
  ghost predicate LockSound(w: World, p: nat) {
    && (forall a, b | a in w.tasks && b in w.tasks && w.tasks[a].process == p == w.tasks[b].process
                      && w.tasks[a].started && w.tasks[b].started :: a == b)
    && (forall a | a in w.tasks && w.tasks[a].process == p && w.tasks[a].started :: LockOf(w, p).active)
    && (forall a | a in w.tasks && w.tasks[a].process == p && w.tasks[a].started && !w.tasks[a].retained ::
         !LockOf(w, p).uncertain)
    && (forall a | a in w.tasks && w.tasks[a].process == p && w.tasks[a].retained :: LockOf(w, p).uncertain)
    && (LockOf(w, p).uncertain ==> LockOf(w, p).active)
  }

  ghost predicate Inv(w: World) {
    && (forall id | id in w.tasks :: TaskSound(w.tasks[id]))
    && (forall p: nat :: LockSound(w, p))
    && (w.cut ==> forall id | id in w.tasks :: !w.tasks[id].lease)
  }

  lemma StartGood()
    ensures Inv(START)
  {
  }

  lemma TasksKept(w: World, a: Action, id: nat)
    requires Inv(w) && id in Next(w, a).tasks
    ensures TaskSound(Next(w, a).tasks[id])
  {
    hide LockSound, Moved;
    if id in w.tasks {
      assert TaskSound(w.tasks[id]);
      MovedSound(w.tasks[id], LockOf(w, w.tasks[id].process), w.cut, a);
    }
  }

  lemma MovedSound(t: Task, l: Lifetime, cut: bool, a: Action)
    requires TaskSound(t)
    ensures var t' := Moved(t, l, cut, a).0;
            && TaskSound(t') && t'.process == t.process && (cut && !t.lease ==> !t'.lease)
            && (t.retained && t.lease ==> t'.retained && t'.lease)
            && (t'.handle == Open && t.handle != Open ==> t.pc == Began)
    ensures l.uncertain ==> Moved(t, l, cut, a).1.uncertain
  {
  }

  lemma LocksKept(w: World, a: Action, p: nat)
    requires Inv(w)
    ensures LockSound(Next(w, a), p)
  {
    if a.Exit? || a.AcquireCut? || a.ReleaseCut? || a.Spawn? {
      assert LockSound(w, p);
    } else if a.id in w.tasks {
      assert LockSound(w, w.tasks[a.id].process) && LockSound(w, p) && TaskSound(w.tasks[a.id]);
      StepIsLocal(w, a);
      hide Next, TaskSound, LockSound, Local;
      LocalKeeps(w, Next(w, a), a.id, p);
    } else {
      assert LockSound(w, p);
    }
  }

  /** How one task's step may move its process's lock. */
  ghost predicate Local(t: Task, t': Task, l: Lifetime, l': Lifetime) {
    && t'.process == t.process
    && (t'.started && !t.started ==> !l.active)
    && (t'.started ==> l'.active)
    && (!t.started && !t'.started ==> l'.active == l.active)
    && (t'.started && !t'.retained ==> !l'.uncertain) && (t'.retained ==> l'.uncertain)
    && (l'.uncertain != l.uncertain ==> t'.retained && t'.started)
    && (l.uncertain ==> l'.uncertain) && (l'.uncertain ==> l'.active)
  }

  lemma StepIsLocal(w: World, a: Action)
    requires !a.Exit? && !a.AcquireCut? && !a.ReleaseCut? && !a.Spawn? && a.id in w.tasks
    requires TaskSound(w.tasks[a.id]) && LockSound(w, w.tasks[a.id].process)
    ensures var w', t := Next(w, a), w.tasks[a.id];
            && a.id in w'.tasks && w'.tasks == w.tasks[a.id := w'.tasks[a.id]]
            && Local(t, w'.tasks[a.id], LockOf(w, t.process), LockOf(w', t.process))
            && forall q: nat | q != t.process :: LockOf(w', q) == LockOf(w, q)
  {
    var t, l := w.tasks[a.id], LockOf(w, w.tasks[a.id].process);
    MovedLocal(t, l, w.cut, a);
    hide LockSound, Local, Moved;
  }

  lemma MovedLocal(t: Task, l: Lifetime, cut: bool, a: Action)
    requires TaskSound(t) && (t.started ==> l.active) && (t.started && !t.retained ==> !l.uncertain)
    requires (t.retained ==> l.uncertain) && (l.uncertain ==> l.active)
    ensures Local(t, Moved(t, l, cut, a).0, l, Moved(t, l, cut, a).1)
  {
  }

  lemma LocalKeeps(w: World, w': World, id: nat, p: nat)
    requires id in w.tasks && LockSound(w, p) && id in w'.tasks && w'.tasks == w.tasks[id := w'.tasks[id]]
    requires var t := w.tasks[id];
             && Local(t, w'.tasks[id], LockOf(w, t.process), LockOf(w', t.process))
             && forall q: nat | q != t.process :: LockOf(w', q) == LockOf(w, q)
    ensures LockSound(w', p)
  {
    hide LockOf;
  }

  lemma CutKept(w: World, a: Action)
    requires Inv(w) && Next(w, a).cut
    ensures forall id | id in Next(w, a).tasks :: !Next(w, a).tasks[id].lease
  {
    hide LockSound, Moved;
    forall id | id in Next(w, a).tasks ensures !Next(w, a).tasks[id].lease {
      if id in w.tasks {
        assert TaskSound(w.tasks[id]);
        MovedSound(w.tasks[id], LockOf(w, w.tasks[id].process), w.cut, a);
      }
    }
  }

  lemma StepKeeps(w: World, a: Action)
    requires Inv(w)
    ensures Inv(Next(w, a))
  {
    forall id | id in Next(w, a).tasks { TasksKept(w, a, id); }
    forall p: nat { LocksKept(w, a, p); }
    if Next(w, a).cut { CutKept(w, a); }
    hide Next, TaskSound, LockSound;
  }

  lemma {:induction false} RunKeeps(w: World, actions: seq<Action>)
    requires Inv(w)
    ensures Inv(Run(w, actions))
  {
    hide Inv, Next;
    if actions != [] {
      RunKeeps(w, actions[..|actions| - 1]);
      StepKeeps(Run(w, actions[..|actions| - 1]), actions[|actions| - 1]);
    }
  }

  // ------------------------------------------------------------- guarantees

  /** After every run, a handle that is open or not known to be closed has its lease held. */
  lemma LeaseOutlivesHandle(actions: seq<Action>, id: nat)
    requires id in Run(START, actions).tasks
    ensures var t := Run(START, actions).tasks[id];
            && (Live(t.handle) ==> t.lease)
            && (t.handle == Uncertain ==> t.retained)
            && (t.pc == Done && t.lease <==> t.pc == Done && t.retained)
  {
    hide Run, LockSound;
    StartGood();
    RunKeeps(START, actions);
    assert TaskSound(Run(START, actions).tasks[id]);
  }

  /** While the exclusive cut is held, no ordinary writer handle is open or uncertain anywhere. */
  lemma CutExcludesWriters(actions: seq<Action>, id: nat)
    requires Run(START, actions).cut && id in Run(START, actions).tasks
    ensures !Live(Run(START, actions).tasks[id].handle)
  {
    hide Run, LockSound;
    StartGood();
    RunKeeps(START, actions);
    assert TaskSound(Run(START, actions).tasks[id]);
  }

  lemma UncertainStays(w: World, a: Action, p: nat)
    requires Inv(w) && LockOf(w, p).uncertain
    ensures LockOf(Next(w, a), p).uncertain
    ensures forall id | id in Next(w, a).tasks && Next(w, a).tasks[id].process == p
            && Next(w, a).tasks[id].handle == Open ::
              id in w.tasks && w.tasks[id].process == p && w.tasks[id].handle == Open
  {
    assert LockSound(w, p);
    forall id | id in w.tasks && w.tasks[id].process == p ensures w.tasks[id].pc != Began {
      assert TaskSound(w.tasks[id]);
    }
    forall id | id in w.tasks { MovedSound(w.tasks[id], LockOf(w, w.tasks[id].process), w.cut, a); }
    hide TaskSound, LockSound, Moved;
  }

  /** After an uncertain close, no managed handle is ever opened again in that process. */
  lemma {:induction false} UncertaintyBarsHandles(w: World, actions: seq<Action>, p: nat)
    requires Inv(w) && LockOf(w, p).uncertain
    ensures LockOf(Run(w, actions), p).uncertain
    ensures forall id | id in Run(w, actions).tasks && Run(w, actions).tasks[id].process == p
            && Run(w, actions).tasks[id].handle == Open ::
              id in w.tasks && w.tasks[id].process == p && w.tasks[id].handle == Open
  {
    hide Inv, Next;
    if actions != [] {
      var front := actions[..|actions| - 1];
      UncertaintyBarsHandles(w, front, p);
      RunKeeps(w, front);
      UncertainStays(Run(w, front), actions[|actions| - 1], p);
    }
  }

  /** and its lease is held until the process exits, so no cut begins before that. */
  lemma {:induction false} RetainedLeaseStays(w: World, actions: seq<Action>, id: nat)
    requires Inv(w) && id in w.tasks && w.tasks[id].retained && w.tasks[id].lease && !w.cut
    requires forall a | a in actions :: a != Exit(w.tasks[id].process)
    ensures var w' := Run(w, actions);
            && id in w'.tasks && w'.tasks[id].retained && w'.tasks[id].lease
            && w'.tasks[id].process == w.tasks[id].process && !w'.cut
  {
    hide Inv, Next;
    if actions != [] {
      var front, last := actions[..|actions| - 1], actions[|actions| - 1];
      assert last in actions && forall a | a in front :: a in actions;
      RetainedLeaseStays(w, front, id);
      RunKeeps(w, front);
      RetainedStep(Run(w, front), last, id);
    }
  }

  lemma RetainedStep(w: World, a: Action, id: nat)
    requires Inv(w) && id in w.tasks && w.tasks[id].retained && w.tasks[id].lease && !w.cut
             && a != Exit(w.tasks[id].process)
    ensures var w' := Next(w, a);
            && id in w'.tasks && w'.tasks[id].retained && w'.tasks[id].lease
            && w'.tasks[id].process == w.tasks[id].process && !w'.cut
  {
    hide LockSound, Moved;
    assert TaskSound(w.tasks[id]);
    MovedSound(w.tasks[id], LockOf(w, w.tasks[id].process), w.cut, a);
  }
}
