/** The coordinated machines one by one: each turn is one step of the virtual machine on its own program, with its own
    variables and the shared ones (pkg/vm/coordinator.go, run and runLine in pkg/vm/vm.go). */
module Scheduling {
  import opened Ast
  import opened Operations
  import opened Semantics
  import opened Machine
  import opened RoundRobin
  import opened Coordination

  /** A virtual machine for each program, and the shared variables with all writes so far. */
  datatype World = World(confs: seq<Conf>, globals: map<string, Value>, trace: seq<Write>)

  /** A machine that has left its last line starts again or stops before it takes part in a turn again. */
  function Settled(env: Env, code: Code, c: Conf): Conf {
    if c.Run? && c.pc >= |code| then VmStep(env, code, c) else c
  }

  /** Machine `v` runs one line, and sees what the others have left. */
  function StepOf(env: Env, codes: seq<Code>, w: World, v: nat): World
    requires |w.confs| == |codes| && v < |codes|
  {
    var c := w.confs[v];
    if !c.Run? then w
    else
      var c' := VmStep(env, codes[v], Run(c.pc, State(c.st.locals, w.globals, w.trace)));
      World(w.confs[v := Settled(env, codes[v], c')], c'.st.globals, c'.st.trace)
  }

  /** The machines of the schedule run one line each, one after another. */
  function RunSchedule(env: Env, codes: seq<Code>, w: World, schedule: seq<nat>): World
    requires |w.confs| == |codes| && forall j :: 0 <= j < |schedule| ==> schedule[j] < |codes|
    decreases |schedule|
  {
    if schedule == [] then w else RunSchedule(env, codes, StepOf(env, codes, w, schedule[0]), schedule[1..])
  }

  ghost function StartWorld(env: Env, codes: seq<Code>, shared: Shared): World {
    World(seq(|codes|, i requires 0 <= i < |codes| =>
                Settled(env, codes[i], Run(0, State(map[], shared.globals, shared.trace)))),
          shared.globals, shared.trace)
  }

  function Count(schedule: seq<nat>, v: nat): nat {
    if schedule == [] then 0 else (if schedule[0] == v then 1 else 0) + Count(schedule[1..], v)
  }

  function LineOf(c: Conf): Option<nat> {
    if c.Run? then Some(c.pc) else None
  }

  // ---- the turns of the sequential interpreter are steps of the machines ----

  ghost predicate SameMachine(t: Task, code: Code, c: Conf) {
    t.code == code && t.locals == c.st.locals && t.next == LineOf(c)
  }

  ghost predicate SameWorld(codes: seq<Code>, t: Table, w: World) {
    && |t.tasks| == |codes| == |w.confs| && TableOk(t) && t.shared == Shared(w.globals, w.trace)
    && forall v: nat {:trigger SameMachine(t.tasks[v], codes[v], w.confs[v])} ::
         v < |codes| ==> SameMachine(t.tasks[v], codes[v], w.confs[v])
  }

  /** The machine whose line the next turn runs. */
  function Runner(t: Table): Option<nat>
    requires TableOk(t)
  {
    if t.i < |t.order| && t.tasks[t.order[t.i]].next.Some? then Some(t.order[t.i]) else None
  }

  function After(env: Env, codes: seq<Code>, w: World, v: Option<nat>): World
    requires |w.confs| == |codes| && (v.Some? ==> v.value < |codes|)
  {
    match v
    case None => w
    case Some(u) => StepOf(env, codes, w, u)
  }

  lemma LineSettled(env: Env, code: Code, line: nat, st: State)
    requires line < |code|
    ensures var c := VmStep(env, code, Run(line, st));
            var r := RunStmts(env.d, code[line], st);
            c.st == r.st && LineOf(Settled(env, code, c)) == Finally(env, code, NextLine(env, line, r.sig))
    ensures Settled(env, code, VmStep(env, code, Run(line, st))).st.locals ==
            RunStmts(env.d, code[line], st).st.locals
  {
  }

  lemma TurnIsStep(env: Env, codes: seq<Code>, t: Table, w: World)
    requires SameWorld(codes, t, w)
    ensures SameWorld(codes, Turn(env, t), After(env, codes, w, Runner(t)))
    ensures forall v :: 0 <= v < |codes| ==>
              Turn(env, t).tasks[v].turns == t.tasks[v].turns + if Runner(t) == Some(v) then 1 else 0
  {
    var t', w' := Turn(env, t), After(env, codes, w, Runner(t));
    TurnOk(env, t);
    if Runner(t).Some? {
      var u := t.order[t.i];
      assert SameMachine(t.tasks[u], codes[u], w.confs[u]);
      LineSettled(env, codes[u], w.confs[u].pc, State(w.confs[u].st.locals, w.globals, w.trace));
    }
    forall v: nat | v < |codes| ensures SameMachine(t'.tasks[v], codes[v], w'.confs[v]) {
      assert SameMachine(t.tasks[v], codes[v], w.confs[v]);
    }
  }

  ghost predicate IsSchedule(codes: seq<Code>, schedule: seq<nat>) {
    forall j :: 0 <= j < |schedule| ==> schedule[j] < |codes|
  }

  /** Some turns amount to a schedule, in which each machine stands as often as it had a turn. */
  lemma {:induction false} TurnsAreSteps(env: Env, codes: seq<Code>, t: Table, w: World, k: nat)
      returns (schedule: seq<nat>)
    requires SameWorld(codes, t, w)
    ensures IsSchedule(codes, schedule) && TableOk(Turns(env, t, k))
    ensures SameWorld(codes, Turns(env, t, k), RunSchedule(env, codes, w, schedule))
    ensures forall v: nat {:trigger Count(schedule, v)} ::
              v < |codes| ==> Turns(env, t, k).tasks[v].turns == t.tasks[v].turns + Count(schedule, v)
    decreases k
  {
    schedule := [];
    if k > 0 {
      TurnIsStep(env, codes, t, w);
      TurnOk(env, t);
      var rest := TurnsAreSteps(env, codes, Turn(env, t), After(env, codes, w, Runner(t)), k - 1);
      schedule := if Runner(t).Some? then [Runner(t).value] + rest else rest;
      assert Runner(t).Some? ==> schedule[1..] == rest;
      forall v: nat | v < |codes|
        ensures Count(schedule, v) == (if Runner(t) == Some(v) then 1 else 0) + Count(rest, v)
      {
      }
    }
  }

  lemma StartsSameWorld(env: Env, codes: seq<Code>, shared: Shared)
    ensures SameWorld(codes, StartTable(env, codes, shared), StartWorld(env, codes, shared))
    requires Programs(env, codes)
  {
    var t, w := StartTable(env, codes, shared), StartWorld(env, codes, shared);
    forall v: nat | v < |codes| ensures SameMachine(t.tasks[v], codes[v], w.confs[v]) {
    }
  }

  // ---- runs of the coordinated machines ----

  /** Machine `v` is where its configuration says: the same variables, and the same line when it waits for its turn. */
  ghost predicate IsWhere(s: System, v: nat, c: Conf)
    requires v < |s.vms|
  {
    && s.vms[v].locals == c.st.locals
    && (s.vms[v].phase.Waiting? ==> c == Run(s.vms[v].phase.line, c.st))
    && (s.vms[v].phase.Closing? || s.vms[v].phase.Closed? ==> !c.Run?)
  }

  /** Whatever a run of the coordinated machines does, whole lines of the virtual machines do it one after another:
      there is a schedule in which every machine stands as often as it was permitted to run a line, and between two
      lines the machines and the shared variables are where that schedule of machine steps leads. */
  lemma RunIsSteps(env: Env, codes: seq<Code>, shared: Shared, ms: seq<Move>, s: System) returns (schedule: seq<nat>)
    requires Programs(env, codes) && Leads(env, Start(codes, shared), ms, s) && Quiet(ms) && !s.master.Awaiting?
    ensures IsSchedule(codes, schedule) && |s.vms| == |codes|
    ensures forall v: nat {:trigger Count(schedule, v)} ::
              v < |codes| ==> Count(schedule, v) == Grants(env, Start(codes, shared), ms, v)
    ensures var w := RunSchedule(env, codes, StartWorld(env, codes, shared), schedule);
            && |w.confs| == |codes| && s.shared == Shared(w.globals, w.trace)
            && forall v: nat {:trigger IsWhere(s, v, w.confs[v])} :: v < |codes| ==> IsWhere(s, v, w.confs[v])
  {
    var k := RunIsRoundRobin(env, codes, shared, ms, s);
    var t0, w0 := StartTable(env, codes, shared), StartWorld(env, codes, shared);
    StartsSameWorld(env, codes, shared);
    schedule := TurnsAreSteps(env, codes, t0, w0, k);
    var t, w := Turns(env, t0, k), RunSchedule(env, codes, w0, schedule);
    StartInv(codes, shared);
    LeadsInv(env, Start(codes, shared), ms, s);
    forall v: nat | v < |codes|
      ensures Count(schedule, v) == Grants(env, Start(codes, shared), ms, v) && IsWhere(s, v, w.confs[v])
    {
      assert SameTask(env, s, v, t.tasks[v]) && SameMachine(t.tasks[v], codes[v], w.confs[v]) && VmOk(s, v);
    }
  }

  // ---- a single machine ----

  lemma StepsOneMore(env: Env, code: Code, n: nat, c: Conf)
    ensures VmSteps(env, code, n + 1, c) == VmStep(env, code, VmSteps(env, code, n, c))
    decreases n
  {
    if n > 0 {
      StepsOneMore(env, code, n - 1, VmStep(env, code, c));
    }
  }

  /** The machine alone: what the others have left is what it has left itself. */
  ghost predicate Alone(w: World) {
    |w.confs| == 1 && w.confs[0].st.globals == w.globals && w.confs[0].st.trace == w.trace
  }

  lemma AloneStep(env: Env, code: Code, w: World, n: nat, start: Conf) returns (n': nat)
    requires Alone(w) && w.confs[0] == VmSteps(env, code, n, start)
    ensures var w' := StepOf(env, [code], w, 0); Alone(w') && w'.confs[0] == VmSteps(env, code, n', start)
  {
    var c := w.confs[0];
    n' := n;
    if c.Run? {
      assert c == Run(c.pc, State(c.st.locals, w.globals, w.trace));
      StepsOneMore(env, code, n, start);
      StepsOneMore(env, code, n + 1, start);
      var c' := VmStep(env, code, c);
      n' := if c'.Run? && c'.pc >= |code| then n + 2 else n + 1;
    }
  }

  lemma {:induction false} AloneSteps(env: Env, code: Code, w: World, schedule: seq<nat>, n: nat, start: Conf)
      returns (n': nat)
    requires Alone(w) && w.confs[0] == VmSteps(env, code, n, start) && IsSchedule([code], schedule)
    ensures var w' := RunSchedule(env, [code], w, schedule); Alone(w') && w'.confs[0] == VmSteps(env, code, n', start)
    decreases |schedule|
  {
    n' := n;
    if schedule != [] {
      var m := AloneStep(env, code, w, n, start);
      n' := AloneSteps(env, code, StepOf(env, [code], w, 0), schedule[1..], m, start);
    }
  }

  /** A single machine under a coordinator does what it does without one. */
  lemma OneMachine(env: Env, code: Code, shared: Shared, ms: seq<Move>, s: System) returns (n: nat)
    requires Programs(env, [code]) && Leads(env, Start([code], shared), ms, s) && Quiet(ms) && !s.master.Awaiting?
    ensures |s.vms| == 1
    ensures var c := VmSteps(env, code, n, Run(0, State(map[], shared.globals, shared.trace)));
            s.vms[0].locals == c.st.locals && s.shared == Shared(c.st.globals, c.st.trace) && IsWhere(s, 0, c)
  {
    var start := Run(0, State(map[], shared.globals, shared.trace));
    var schedule := RunIsSteps(env, [code], shared, ms, s);
    var w0 := StartWorld(env, [code], shared);
    StepsOneMore(env, code, 0, start);
    n := AloneSteps(env, code, w0, schedule, if code == [] then 1 else 0, start);
    assert IsWhere(s, 0, RunSchedule(env, [code], w0, schedule).confs[0]);
  }
}
