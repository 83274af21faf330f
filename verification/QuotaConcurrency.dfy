/**
 Concurrency slots under any interleaving. Every thread handles one request: it reserves the project
 slot, then the key slot, gives the project slot back if the key is full, and releases both once when
 it is done. Loads and compare-exchanges are separate atomic steps, so a thread may act on a counter
 value that others have changed since.
 */
module QuotaConcurrency {

  datatype Scope = Project(id: string) | Key(id: string)

  datatype Request = Request(keyId: string, projectId: string)

  datatype Pc =
    | Start
    | ProjectLoad
    | ProjectCas(cur: nat)
    | KeyLoad
    | KeyCas(cur: nat)
    | RollbackLoad
    | RollbackCas(cur: nat)
    | Rejected
    | Admitted
    | KeyDropLoad
    | KeyDropCas(cur: nat)
    | ProjectDropLoad
    | ProjectDropCas(cur: nat)
    | Released

  datatype Thread = Thread(request: Request, pc: Pc) {
    function ProjectScope(): Scope { Project(request.projectId) }
    function KeyScope(): Scope { Key(request.keyId) }
  }

  datatype State = State(counters: map<Scope, nat>, threads: map<nat, Thread>)

  const INITIAL := State(map[], map[])

  /** Limits of the limited scopes, fixed over a run. */
  type Limits = map<Scope, nat>

  function Count(counters: map<Scope, nat>, s: Scope): nat {
    if s in counters then counters[s] else 0
  }

  function AfterProject(limits: Limits, t: Thread): Pc {
    if t.KeyScope() in limits then KeyLoad else Admitted
  }

  /** A failed compare-exchange changes nothing. */
  function Cas(counters: map<Scope, nat>, s: Scope, cur: nat, next: nat): map<Scope, nat> {
    if Count(counters, s) == cur then counters[s := next] else counters
  }

  /** One atomic step of a thread. */
  function ThreadStep(limits: Limits, counters: map<Scope, nat>, t: Thread): (Pc, map<Scope, nat>) {
    var project, key := t.ProjectScope(), t.KeyScope();
    match t.pc
    case Start => (if project in limits then ProjectLoad else AfterProject(limits, t), counters)
    case ProjectLoad =>
      var cur := Count(counters, project);
      (if project in limits && cur < limits[project] then ProjectCas(cur) else Rejected, counters)
    case ProjectCas(cur) =>
      (if Count(counters, project) == cur then AfterProject(limits, t) else ProjectLoad,
       Cas(counters, project, cur, cur + 1))
    case KeyLoad =>
      var cur := Count(counters, key);
      (if key in limits && cur < limits[key] then KeyCas(cur)
       else if project in limits then RollbackLoad else Rejected,
       counters)
    case KeyCas(cur) =>
      (if Count(counters, key) == cur then Admitted else KeyLoad, Cas(counters, key, cur, cur + 1))
    case RollbackLoad =>
      var cur := Count(counters, project);
      (if cur == 0 then Rejected else RollbackCas(cur), counters)
    case RollbackCas(cur) =>
      (if Count(counters, project) == cur then Rejected else RollbackLoad,
       if cur == 0 then counters else Cas(counters, project, cur, cur - 1))
    case Admitted => (KeyDropLoad, counters)
    case KeyDropLoad =>
      var cur := Count(counters, key);
      (if cur == 0 then ProjectDropLoad else KeyDropCas(cur), counters)
    case KeyDropCas(cur) =>
      (if Count(counters, key) == cur then ProjectDropLoad else KeyDropLoad,
       if cur == 0 then counters else Cas(counters, key, cur, cur - 1))
    case ProjectDropLoad =>
      var cur := Count(counters, project);
      (if cur == 0 then Released else ProjectDropCas(cur), counters)
    case ProjectDropCas(cur) =>
      (if Count(counters, project) == cur then Released else ProjectDropLoad,
       if cur == 0 then counters else Cas(counters, project, cur, cur - 1))
    case Rejected => (Rejected, counters)
    case Released => (Released, counters)
  }

  datatype Action = Arrive(id: nat, request: Request) | Step(id: nat)

  function Next(limits: Limits, st: State, a: Action): State {
    match a
    case Arrive(id, request) =>
      if id in st.threads then st else st.(threads := st.threads[id := Thread(request, Start)])
    case Step(id) =>
      if id !in st.threads then st
      else
        var (pc, counters) := ThreadStep(limits, st.counters, st.threads[id]);
        State(counters, st.threads[id := st.threads[id].(pc := pc)])
  }

  function Run(limits: Limits, st: State, actions: seq<Action>): State
    decreases |actions|
  {
    if actions == [] then st else Run(limits, Next(limits, st, actions[0]), actions[1..])
  }

  // ----- who holds a slot -----

  predicate InFlight(pc: Pc) {
    pc.Admitted? || pc.KeyDropLoad? || pc.KeyDropCas?
  }

  predicate HoldsProject(pc: Pc) {
    || InFlight(pc) || pc.KeyLoad? || pc.KeyCas? || pc.RollbackLoad? || pc.RollbackCas?
    || pc.ProjectDropLoad? || pc.ProjectDropCas?
  }

  /** Admitted and not yet released, or a reservation in progress. */
  predicate Holds(limits: Limits, t: Thread, s: Scope) {
    && s in limits
    && ((s == t.ProjectScope() && HoldsProject(t.pc)) || (s == t.KeyScope() && InFlight(t.pc)))
  }

  function Holders(limits: Limits, st: State, s: Scope): set<nat> {
    set id | id in st.threads && Holds(limits, st.threads[id], s)
  }

  /** What a thread's program counter says about the scopes it is working on. */
  predicate PcOk(limits: Limits, t: Thread) {
    match t.pc
    case ProjectLoad => t.ProjectScope() in limits
    case ProjectCas(cur) => t.ProjectScope() in limits && cur < limits[t.ProjectScope()]
    case KeyLoad => t.KeyScope() in limits
    case KeyCas(cur) => t.KeyScope() in limits && cur < limits[t.KeyScope()]
    case RollbackLoad => t.ProjectScope() in limits
    case RollbackCas(cur) => t.ProjectScope() in limits && cur > 0
    case KeyDropCas(cur) => t.KeyScope() in limits && cur > 0
    case ProjectDropCas(cur) => t.ProjectScope() in limits && cur > 0
    case _ => true
  }

  ghost predicate Inv(limits: Limits, st: State) {
    && (forall id | id in st.threads :: PcOk(limits, st.threads[id]))
    && (forall s: Scope :: Count(st.counters, s) == |Holders(limits, st, s)|)
    && (forall s | s in limits :: Count(st.counters, s) <= limits[s])
  }

  /** One thread's move adds it to, or takes it from, the holders of a scope. */
  lemma HoldersAfter(limits: Limits, st: State, id: nat, t: Thread, counters: map<Scope, nat>, s: Scope)
    ensures var st' := State(counters, st.threads[id := t]);
            Holders(limits, st', s) == Holders(limits, st, s) - {id} + (if Holds(limits, t, s) then {id} else {})
  {
  }

  lemma HolderCount(limits: Limits, st: State, id: nat, s: Scope)
    ensures |Holders(limits, st, s) - {id}|
            == |Holders(limits, st, s)| - (if id in Holders(limits, st, s) then 1 else 0)
  {
  }

  function One(b: bool): nat {
    if b then 1 else 0
  }

  /** What a thread may rely on: a slot it holds is counted, and unlimited scopes are never counted. */
  ghost predicate Sound(limits: Limits, counters: map<Scope, nat>, t: Thread, s: Scope) {
    && (Holds(limits, t, s) ==> Count(counters, s) >= 1)
    && (if s in limits then Count(counters, s) <= limits[s] else Count(counters, s) == 0)
  }

  /** A thread's step moves each counter by exactly the slots it takes or gives back. */
  lemma StepMovesCountersExactly(limits: Limits, counters: map<Scope, nat>, t: Thread, s: Scope)
    requires PcOk(limits, t) && Sound(limits, counters, t, s)
    requires Sound(limits, counters, t, t.ProjectScope()) && Sound(limits, counters, t, t.KeyScope())
    ensures var (pc, counters') := ThreadStep(limits, counters, t);
            && PcOk(limits, t.(pc := pc))
            && Count(counters', s) + One(Holds(limits, t, s))
                == Count(counters, s) + One(Holds(limits, t.(pc := pc), s))
            && (s in limits ==> Count(counters', s) <= limits[s])
  {
  }

  lemma InvIsSound(limits: Limits, st: State, id: nat, s: Scope)
    requires Inv(limits, st) && id in st.threads
    ensures Sound(limits, st.counters, st.threads[id], s)
  {
    assert Count(st.counters, s) == |Holders(limits, st, s)|;
    assert id in Holders(limits, st, s) <==> Holds(limits, st.threads[id], s);
    if s !in limits {
      assert Holders(limits, st, s) == {};
    }
  }

  lemma StepIsExact(limits: Limits, st: State, id: nat, s: Scope)
    requires Inv(limits, st) && id in st.threads
    ensures var t, t' := st.threads[id], Next(limits, st, Step(id)).threads[id];
            var after := Next(limits, st, Step(id)).counters;
            && PcOk(limits, t')
            && Count(after, s) + One(Holds(limits, t, s)) == Count(st.counters, s) + One(Holds(limits, t', s))
            && (s in limits ==> Count(after, s) <= limits[s])
  {
    InvIsSound(limits, st, id, s);
    InvIsSound(limits, st, id, st.threads[id].ProjectScope());
    InvIsSound(limits, st, id, st.threads[id].KeyScope());
    StepMovesCountersExactly(limits, st.counters, st.threads[id], s);
  }

  lemma ScopeAfterStep(limits: Limits, st: State, id: nat, s: Scope)
    requires Inv(limits, st) && id in st.threads
    ensures var st' := Next(limits, st, Step(id));
            && Count(st'.counters, s) == |Holders(limits, st', s)|
            && (s in limits ==> Count(st'.counters, s) <= limits[s])
            && PcOk(limits, st'.threads[id])
  {
    var st' := Next(limits, st, Step(id));
    assert Count(st.counters, s) == |Holders(limits, st, s)|;
    assert id in Holders(limits, st, s) <==> Holds(limits, st.threads[id], s);
    StepIsExact(limits, st, id, s);
    HoldersAfter(limits, st, id, st'.threads[id], st'.counters, s);
    HolderCount(limits, st, id, s);
  }

  lemma StepKeepsInv(limits: Limits, st: State, a: Action)
    requires Inv(limits, st)
    ensures Inv(limits, Next(limits, st, a))
  {
    var st' := Next(limits, st, a);
    if a.Step? && a.id in st.threads {
      ScopeAfterStep(limits, st, a.id, Key(""));
      forall s: Scope
        ensures Count(st'.counters, s) == |Holders(limits, st', s)|
        ensures s in limits ==> Count(st'.counters, s) <= limits[s]
      {
        ScopeAfterStep(limits, st, a.id, s);
      }
    } else {
      forall s: Scope
        ensures Count(st'.counters, s) == |Holders(limits, st', s)|
      {
        assert Count(st.counters, s) == |Holders(limits, st, s)|;
        assert Holders(limits, st', s) == Holders(limits, st, s);
      }
    }
  }

  lemma {:induction false} RunKeepsInv(limits: Limits, st: State, actions: seq<Action>)
    requires Inv(limits, st)
    ensures Inv(limits, Run(limits, st, actions))
    decreases |actions|
  {
    if actions != [] {
      StepKeepsInv(limits, st, actions[0]);
      RunKeepsInv(limits, Next(limits, st, actions[0]), actions[1..]);
    }
  }

  lemma InitialInv(limits: Limits)
    ensures Inv(limits, INITIAL)
  {
  }

  // ----- main results -----

  /** In every interleaving a limited scope's counter is the number of requests holding a slot, and
      never exceeds the limit; an unlimited scope is never counted. */
  lemma CountersAreHolders(limits: Limits, actions: seq<Action>, s: Scope)
    ensures var st := Run(limits, INITIAL, actions);
            && Count(st.counters, s) == |Holders(limits, st, s)|
            && (s in limits ==> Count(st.counters, s) <= limits[s])
            && (s !in limits ==> Count(st.counters, s) == 0)
  {
    InitialInv(limits);
    RunKeepsInv(limits, INITIAL, actions);
    var st := Run(limits, INITIAL, actions);
    if s !in limits {
      assert Holders(limits, st, s) == {};
    }
  }

  /** Whenever a rollback ends, the project counter has gone down by exactly one in that step and no
      other counter has moved: the saturating decrement never swallows the slot. */
  lemma RollbackReturnsTheSlot(limits: Limits, actions: seq<Action>, id: nat, s: Scope)
    requires var st := Run(limits, INITIAL, actions);
             id in st.threads && (st.threads[id].pc.RollbackLoad? || st.threads[id].pc.RollbackCas?)
    requires Next(limits, Run(limits, INITIAL, actions), Step(id)).threads[id].pc.Rejected?
    ensures var st := Run(limits, INITIAL, actions);
            Count(Next(limits, st, Step(id)).counters, s) + One(s == st.threads[id].ProjectScope())
                == Count(st.counters, s)
  {
    InitialInv(limits);
    RunKeepsInv(limits, INITIAL, actions);
    var st := Run(limits, INITIAL, actions);
    assert PcOk(limits, st.threads[id]);
    StepIsExact(limits, st, id, s);
  }

  /** Once every request has been rejected or released, all slots are free again. */
  lemma QuiescentMeansFree(limits: Limits, actions: seq<Action>, s: Scope)
    requires var st := Run(limits, INITIAL, actions);
             forall id | id in st.threads ::
                 st.threads[id].pc.Start? || st.threads[id].pc.Rejected? || st.threads[id].pc.Released?
    ensures Count(Run(limits, INITIAL, actions).counters, s) == 0
  {
    CountersAreHolders(limits, actions, s);
    assert Holders(limits, Run(limits, INITIAL, actions), s) == {};
  }

  // ----- one thread alone -----

  /** `n` steps of a thread with nobody else around. */
  function Alone(limits: Limits, x: (Pc, map<Scope, nat>), r: Request, n: nat): (Pc, map<Scope, nat>)
    decreases n
  {
    if n == 0 then x else Alone(limits, ThreadStep(limits, x.1, Thread(r, x.0)), r, n - 1)
  }

  lemma AloneStep(limits: Limits, x: (Pc, map<Scope, nat>), r: Request, n: nat)
    ensures Alone(limits, x, r, n + 1) == Alone(limits, ThreadStep(limits, x.1, Thread(r, x.0)), r, n)
  {
  }

  predicate HasRoom(limits: Limits, counters: map<Scope, nat>, s: Scope) {
    s in limits ==> Count(counters, s) < limits[s]
  }

  /** The counters with one more call in each of these scopes that is limited. */
  predicate Reserved(limits: Limits, before: map<Scope, nat>, after: map<Scope, nat>, r: Request, admitted: bool) {
    && Count(after, Project(r.projectId))
        == Count(before, Project(r.projectId)) + One(admitted && Project(r.projectId) in limits)
    && Count(after, Key(r.keyId)) == Count(before, Key(r.keyId)) + One(admitted && Key(r.keyId) in limits)
  }

  /** From the project's slot on: the key decides, and a full key gives the project's slot back. */
  lemma KeyPhase(limits: Limits, counters: map<Scope, nat>, r: Request) returns (n: nat)
    requires Project(r.projectId) in limits ==> Count(counters, Project(r.projectId)) > 0
    ensures var end := Alone(limits, (AfterProject(limits, Thread(r, Start)), counters), r, n);
            var back := Count(counters, Project(r.projectId)) - One(Project(r.projectId) in limits);
            && end.0 == (if HasRoom(limits, counters, Key(r.keyId)) then Admitted else Rejected)
            && Count(end.1, Key(r.keyId)) ==
               Count(counters, Key(r.keyId)) + One(end.0.Admitted? && Key(r.keyId) in limits)
            && Count(end.1, Project(r.projectId))
                == (if end.0.Admitted? then Count(counters, Project(r.projectId)) else back)
  {
    var key, project := Key(r.keyId), Project(r.projectId);
    var x := (AfterProject(limits, Thread(r, Start)), counters);
    if key !in limits {
      n := 0;
    } else {
      var y := ThreadStep(limits, x.1, Thread(r, x.0));
      if HasRoom(limits, counters, key) {
        n := 2;
        AloneStep(limits, x, r, 1);
        AloneStep(limits, y, r, 0);
      } else if project in limits {
        n := 3;
        var z := ThreadStep(limits, y.1, Thread(r, y.0));
        AloneStep(limits, x, r, 2);
        AloneStep(limits, y, r, 1);
        AloneStep(limits, z, r, 0);
      } else {
        n := 1;
        AloneStep(limits, x, r, 0);
      }
    }
  }

  /**
   Alone, a request is admitted exactly when both its scopes have room, and counted in each limited one;
   refused, it leaves both counts as they were. This is what the sequential limiter does.
   */
  lemma AloneReserves(limits: Limits, counters: map<Scope, nat>, r: Request) returns (n: nat)
    ensures var end := Alone(limits, (Start, counters), r, n);
            && end.0 == (if HasRoom(limits, counters, Project(r.projectId)) && HasRoom(limits, counters, Key(r.keyId))
                         then Admitted else Rejected)
            && Reserved(limits, counters, end.1, r, end.0.Admitted?)
  {
    var project := Project(r.projectId);
    var x := (Start, counters);
    if project !in limits {
      var m := KeyPhase(limits, counters, r);
      n := m + 1;
      AloneStep(limits, x, r, m);
    } else {
      var y := ThreadStep(limits, x.1, Thread(r, x.0));
      var z := ThreadStep(limits, y.1, Thread(r, y.0));
      if HasRoom(limits, counters, project) {
        var w := ThreadStep(limits, z.1, Thread(r, z.0));
        var m := KeyPhase(limits, w.1, r);
        n := m + 3;
        AloneStep(limits, x, r, m + 2);
        AloneStep(limits, y, r, m + 1);
        AloneStep(limits, z, r, m);
      } else {
        n := 2;
        AloneStep(limits, x, r, 1);
        AloneStep(limits, y, r, 0);
      }
    }
  }
}
