/** The protocol between the coordinator and its virtual machines (pkg/vm/coordinator.go and run, runLine and
    aquireCoordinatorPermission in pkg/vm/vm.go) as a transition system: every participant moves on its own, except
    when two of them meet at a channel. */
module Coordination {
  import opened Ast
  import opened Operations
  import opened Semantics
  import opened Machine
  import opened RoundRobin

  /** What a machine is doing: choosing its next line, waiting for permission, running a line with some statements
      left, sending its done signal (after which it goes on with line `next`, or stops), about to close its
      channel, or gone. */
  datatype Phase =
    | Deciding(line: nat)
    | Waiting(line: nat)
    | InLine(line: nat, rest: seq<Stmt>)
    | Reporting(next: Option<nat>)
    | Closing
    | Closed

  datatype Vm = Vm(code: Code, locals: map<string, Value>, phase: Phase)

  /** What the coordinator is doing at place `i` of its lists: offering permission, or awaiting the done signal. */
  datatype Master = Offering(i: nat) | Awaiting(i: nat) | Ended

  /** `list`, `runs` and `dones` are the coordinator's three lists: the machines, and the owners of the channels. */
  datatype System = System(vms: seq<Vm>, list: seq<nat>, runs: seq<nat>, dones: seq<nat>, master: Master,
                           shared: Shared)

  datatype Move =
    | Decide(v: nat) | Execute(v: nat) | Close(v: nat) | Terminate(v: nat)
    | Grant | Report | DropOffered | DropAwaited | NextRound | Finish

  predicate Enabled(s: System, m: Move) {
    match m
    case Decide(v) => v < |s.vms| && s.vms[v].phase.Deciding?
    case Execute(v) => v < |s.vms| && s.vms[v].phase.InLine?
    case Close(v) => v < |s.vms| && s.vms[v].phase.Closing?
    case Terminate(v) =>
      v < |s.vms| && (s.vms[v].phase.Deciding? || s.vms[v].phase.Waiting? || s.vms[v].phase.InLine?)
    case Grant =>
      s.master.Offering? && s.master.i < |s.runs| && s.runs[s.master.i] < |s.vms| &&
          s.vms[s.runs[s.master.i]].phase.Waiting?
    case Report =>
      s.master.Awaiting? && s.master.i < |s.dones| && s.dones[s.master.i] < |s.vms| &&
          s.vms[s.dones[s.master.i]].phase.Reporting?
    case DropOffered => s.master.Offering? && Droppable(s)
    case DropAwaited => s.master.Awaiting? && Droppable(s)
    case NextRound => s.master.Offering? && s.master.i >= |s.runs| && |s.list| > 0
    case Finish => s.master.Offering? && s.master.i >= |s.runs| && |s.list| == 0
  }

  /** Receiving from the done channel reports that it is closed. */
  predicate Droppable(s: System) {
    && !s.master.Ended? && s.master.i < |s.dones| && s.dones[s.master.i] < |s.vms| &&
       s.vms[s.dones[s.master.i]].phase.Closed?
    && s.master.i < |s.list| && s.master.i < |s.runs|
  }

  function SetPhase(s: System, v: nat, p: Phase): System
    requires v < |s.vms|
  {
    s.(vms := s.vms[v := s.vms[v].(phase := p)])
  }

  function Decided(env: Env, code: Code, line: nat): Phase {
    if line < |code| then Waiting(line) else if env.forever then Deciding(0) else Closing
  }

  function Executed(env: Env, s: System, v: nat): System
    requires v < |s.vms| && s.vms[v].phase.InLine?
  {
    var vm := s.vms[v];
    var line := vm.phase.line;
    if vm.phase.rest == [] then SetPhase(s, v, Reporting(Some(line + 1)))
    else
      var r := RunStmt(env.d, vm.phase.rest[0], StateOf(vm.locals, s.shared));
      var p := if r.sig == Next then InLine(line, vm.phase.rest[1..]) else Reporting(NextLine(env, line, r.sig));
      s.(vms := s.vms[v := vm.(locals := r.st.locals, phase := p)], shared := SharedOf(r.st))
  }

  function Dropped(s: System): System
    requires Droppable(s)
  {
    var i := s.master.i;
    s.(list := RemoveAt(s.list, i), runs := RemoveAt(s.runs, i), dones := RemoveAt(s.dones, i),
       master := Offering(i + 1))
  }

  /** A machine that is stopped inside of a line still sends its done signal. */
  function Terminated(p: Phase): Phase {
    if p.InLine? then Reporting(None) else Closing
  }

  function Apply(env: Env, s: System, m: Move): System
    requires Enabled(s, m)
  {
    match m
    case Decide(v) => SetPhase(s, v, Decided(env, s.vms[v].code, s.vms[v].phase.line))
    case Execute(v) => Executed(env, s, v)
    case Close(v) => SetPhase(s, v, Closed)
    case Terminate(v) => SetPhase(s, v, Terminated(s.vms[v].phase))
    case Grant =>
      var v := s.runs[s.master.i];
      var line := s.vms[v].phase.line;
      SetPhase(s, v, InLine(line, if line < |s.vms[v].code| then s.vms[v].code[line] else []))
          .(master := Awaiting(s.master.i))
    case Report =>
      var v := s.dones[s.master.i];
      var next := s.vms[v].phase.next;
      SetPhase(s, v, if next.Some? then Deciding(next.value) else Closing).(master := Offering(s.master.i + 1))
    case DropOffered => Dropped(s)
    case DropAwaited => Dropped(s)
    case NextRound => s.(master := Offering(0))
    case Finish => s.(master := Ended)
  }

  // ---- what every reachable state keeps ----

  /** Machine `v` holds the permission. */
  predicate Active(s: System, v: nat) {
    s.master.Awaiting? && s.master.i < |s.list| && s.list[s.master.i] == v
  }

  ghost predicate VmOk(s: System, v: nat)
    requires v < |s.vms|
  {
    var p := s.vms[v].phase;
    && (p.InLine? || p.Reporting? <==> Active(s, v))
    && (p.Waiting? || p.InLine? ==> p.line < |s.vms[v].code|)
    && (v !in s.list ==> p.Closed?)
  }

  ghost predicate Inv(s: System) {
    && s.runs == s.list && s.dones == s.list && Distinct(s.list)
    && (forall j :: 0 <= j < |s.list| ==> s.list[j] < |s.vms|)
    && (s.master.Awaiting? ==> s.master.i < |s.list|)
    && (s.master.Ended? ==> s.list == [])
    && (forall v: nat {:trigger VmOk(s, v)} :: v < |s.vms| ==> VmOk(s, v))
  }

  ghost function Start(codes: seq<Code>, shared: Shared): System {
    var list := seq(|codes|, i requires 0 <= i < |codes| => i);
    System(seq(|codes|, i requires 0 <= i < |codes| => Vm(codes[i], map[], Deciding(0))), list, list, list,
           Offering(0), shared)
  }

  lemma StartInv(codes: seq<Code>, shared: Shared)
    ensures Inv(Start(codes, shared))
  {
    var s := Start(codes, shared);
    forall v: nat | v < |s.vms| ensures VmOk(s, v) {
      assert s.list[v] == v;
    }
  }

  /** Only machine `v` changes, in a way that does not involve the coordinator. */
  lemma LocalInv(s: System, s': System, v: nat)
    requires Inv(s) && v < |s.vms| == |s'.vms| && VmOk(s', v)
    requires forall u :: 0 <= u < |s.vms| && u != v ==> s'.vms[u] == s.vms[u]
    requires s'.list == s.list && s'.runs == s.runs && s'.dones == s.dones && s'.master == s.master
    ensures Inv(s')
  {
    forall u: nat | u < |s'.vms| ensures VmOk(s', u) {
      assert VmOk(s, u);
    }
  }

  lemma RemoveInv(s: System)
    requires Inv(s) && Droppable(s) && s.master.Offering?
    ensures Inv(Dropped(s))
  {
    var s' := Dropped(s);
    var i := s.master.i;
    forall v: nat | v < |s'.vms| ensures VmOk(s', v) {
      assert VmOk(s, v);
      if v in s.list && v != s.list[i] {
        var j :| 0 <= j < |s.list| && s.list[j] == v;
        assert s'.list[if j < i then j else j - 1] == v;
      }
    }
  }

  /** The permission changes hands. */
  lemma HandInv(s: System, s': System, v: nat)
    requires Inv(s) && v < |s.vms| == |s'.vms| && VmOk(s', v)
    requires forall u :: 0 <= u < |s.vms| && u != v ==> s'.vms[u] == s.vms[u]
    requires s'.list == s.list && s'.runs == s.runs && s'.dones == s.dones
    requires !s'.master.Ended? && (s'.master.Awaiting? ==> s'.master.i < |s.list|)
    requires forall u :: u != v ==> Active(s', u) == Active(s, u)
    ensures Inv(s')
  {
    forall u: nat | u < |s'.vms| ensures VmOk(s', u) {
      assert VmOk(s, u);
    }
  }

  /** Every move keeps the invariant, also if machines are terminated from outside. */
  lemma StepInv(env: Env, s: System, m: Move)
    requires Inv(s) && Enabled(s, m)
    ensures Inv(Apply(env, s, m))
  {
    var s' := Apply(env, s, m);
    DoneBeforeClose(s);
    match m
    case Decide(v) => assert VmOk(s, v); LocalInv(s, s', v);
    case Execute(v) => assert VmOk(s, v); LocalInv(s, s', v);
    case Close(v) => assert VmOk(s, v); LocalInv(s, s', v);
    case Terminate(v) => assert VmOk(s, v); LocalInv(s, s', v);
    case Grant => var v := s.runs[s.master.i]; assert VmOk(s, v); HandInv(s, s', v);
    case Report => var v := s.dones[s.master.i]; assert VmOk(s, v); HandInv(s, s', v);
    case DropOffered => RemoveInv(s);
    case DropAwaited =>
    case NextRound => NewRoundInv(s, s');
    case Finish => NewRoundInv(s, s');
  }

  lemma NewRoundInv(s: System, s': System)
    requires Inv(s) && s.master.Offering? && s' == s.(master := s'.master)
    requires s'.master.Offering? || (s'.master.Ended? && s.list == [])
    ensures Inv(s')
  {
    forall u: nat | u < |s'.vms| ensures VmOk(s', u) {
      assert VmOk(s, u);
    }
  }

  // ---- consequences ----

  /** Never are two machines inside a line. */
  lemma MutualExclusion(s: System, u: nat, v: nat)
    requires Inv(s) && u < |s.vms| && v < |s.vms| && s.vms[u].phase.InLine? && s.vms[v].phase.InLine?
    ensures u == v
  {
    assert VmOk(s, u) && VmOk(s, v);
  }

  /** A granted turn ends with a done signal: the coordinator never finds the channel closed instead. */
  lemma DoneBeforeClose(s: System)
    requires Inv(s)
    ensures !Enabled(s, DropAwaited)
  {
    if s.master.Awaiting? {
      assert VmOk(s, s.list[s.master.i]);
    }
  }

  /** Somebody can move as long as the coordinator runs. */
  lemma NeverStuck(s: System) returns (m: Move)
    requires Inv(s) && !s.master.Ended?
    ensures Enabled(s, m) && !m.Terminate?
  {
    if s.master.i >= |s.list| {
      m := if |s.list| > 0 then NextRound else Finish;
    } else {
      var v := s.list[s.master.i];
      assert VmOk(s, v);
      match s.vms[v].phase
      case Deciding(_) => m := Decide(v);
      case Waiting(_) => m := Grant;
      case InLine(_, _) => m := Execute(v);
      case Reporting(_) => m := Report;
      case Closing => m := Close(v);
      case Closed => m := DropOffered;
    }
  }

  // ---- the sequential interpreter that the system amounts to ----

  /** How the line ends that machine `v` is running, if it is running one. */
  function LineEnd(env: Env, s: System, v: nat): Result
    requires v < |s.vms|
  {
    var vm := s.vms[v];
    var st := StateOf(vm.locals, s.shared);
    if vm.phase.InLine? then RunStmts(env.d, vm.phase.rest, st) else Result(Next, st)
  }

  /** The next line of a machine, when it is done with the current one. */
  function Fate(env: Env, s: System, v: nat): Option<nat>
    requires v < |s.vms|
  {
    var vm := s.vms[v];
    match vm.phase
    case Deciding(line) => Wrapped(env, vm.code, line)
    case Waiting(line) => Some(line)
    case InLine(line, _) => Finally(env, vm.code, NextLine(env, line, LineEnd(env, s, v).sig))
    case Reporting(next) => Finally(env, vm.code, next)
    case _ => None
  }

  ghost predicate SameTask(env: Env, s: System, v: nat, t: Task)
    requires v < |s.vms|
  {
    t.code == s.vms[v].code && t.next == Fate(env, s, v) && t.locals == LineEnd(env, s, v).st.locals
  }

  /** The shared variables when the current line is done. */
  function SharedAfter(env: Env, s: System): Shared {
    if s.master.Awaiting? && s.master.i < |s.list| && s.list[s.master.i] < |s.vms|
    then SharedOf(LineEnd(env, s, s.list[s.master.i]).st)
    else s.shared
  }

  /** The system is where the sequential interpreter is, when the line that is being run counts as finished. */
  ghost predicate Same(env: Env, s: System, t: Table) {
    && |t.tasks| == |s.vms| && t.order == s.list && t.shared == SharedAfter(env, s)
    && (s.master.Offering? ==> t.i == s.master.i)
    && (s.master.Awaiting? ==> t.i == s.master.i + 1)
    && (s.master.Ended? ==> Over(t))
    && (forall v: nat {:trigger SameTask(env, s, v, t.tasks[v])} :: v < |s.vms| ==> SameTask(env, s, v, t.tasks[v]))
  }

  /** Programs that run forever have at least one line. */
  ghost predicate Spinless(env: Env, s: System) {
    env.forever ==> forall v :: 0 <= v < |s.vms| ==> s.vms[v].code != []
  }

  /** The moves that are turns of the sequential interpreter. */
  predicate IsTurn(m: Move) {
    m.Grant? || m.DropOffered? || m.NextRound?
  }

  /** A move of one machine that changes nothing for the sequential interpreter. */
  lemma LocalSame(env: Env, s: System, s': System, v: nat, t: Table)
    requires Inv(s) && Same(env, s, t) && v < |s.vms| == |s'.vms|
    requires forall u :: 0 <= u < |s.vms| && u != v ==> s'.vms[u] == s.vms[u]
    requires s'.list == s.list && s'.master == s.master && s'.shared == s.shared
    requires s'.vms[v].code == s.vms[v].code && Fate(env, s', v) == Fate(env, s, v) &&
             LineEnd(env, s', v).st == LineEnd(env, s, v).st
    ensures Same(env, s', t)
  {
    forall u: nat | u < |s'.vms| ensures SameTask(env, s', u, t.tasks[u]) {
      assert SameTask(env, s, u, t.tasks[u]);
    }
  }

  lemma DecideSame(env: Env, s: System, v: nat, t: Table)
    requires Inv(s) && Same(env, s, t) && Enabled(s, Decide(v)) && Spinless(env, s)
    ensures Same(env, Apply(env, s, Decide(v)), t)
  {
    LocalSame(env, s, Apply(env, s, Decide(v)), v, t);
  }

  /** Running one statement of the line does not change how the line ends. */
  lemma ExecuteSame(env: Env, s: System, v: nat, t: Table)
    requires Inv(s) && Same(env, s, t) && Enabled(s, Execute(v))
    ensures Same(env, Apply(env, s, Execute(v)), t)
  {
    var s' := Apply(env, s, Execute(v));
    assert VmOk(s, v);
    ExecuteEnd(env, s, v);
    forall u: nat | u < |s'.vms| ensures SameTask(env, s', u, t.tasks[u]) {
      assert SameTask(env, s, u, t.tasks[u]);
      if u != v {
        assert VmOk(s, u);
      }
    }
  }

  lemma ExecuteEnd(env: Env, s: System, v: nat)
    requires v < |s.vms| && s.vms[v].phase.InLine?
    ensures var s' := Executed(env, s, v);
            LineEnd(env, s', v).st == LineEnd(env, s, v).st && Fate(env, s', v) == Fate(env, s, v)
  {
  }

  lemma CloseSame(env: Env, s: System, v: nat, t: Table)
    requires Inv(s) && Same(env, s, t) && Enabled(s, Close(v))
    ensures Same(env, Apply(env, s, Close(v)), t)
  {
    LocalSame(env, s, Apply(env, s, Close(v)), v, t);
  }

  lemma ReportSame(env: Env, s: System, t: Table)
    requires Inv(s) && Same(env, s, t) && Enabled(s, Report)
    ensures Same(env, Apply(env, s, Report), t)
  {
    var s' := Apply(env, s, Report);
    forall u: nat | u < |s'.vms| ensures SameTask(env, s', u, t.tasks[u]) {
      assert SameTask(env, s, u, t.tasks[u]);
    }
  }

  /** Granting permission is the moment at which the sequential interpreter runs the whole line. */
  lemma GrantSame(env: Env, s: System, t: Table)
    requires Inv(s) && Same(env, s, t) && Enabled(s, Grant) && TableOk(t)
    ensures Same(env, Apply(env, s, Grant), Turn(env, t))
  {
    var s' := Apply(env, s, Grant);
    var t' := Turn(env, t);
    var v := s.list[s.master.i];
    assert VmOk(s, v) && SameTask(env, s, v, t.tasks[v]);
    GrantEnd(env, s, t);
    forall u: nat | u < |s'.vms| ensures SameTask(env, s', u, t'.tasks[u]) {
      assert SameTask(env, s, u, t.tasks[u]);
      if u != v {
        assert VmOk(s, u);
      }
    }
  }

  lemma GrantEnd(env: Env, s: System, t: Table)
    requires Inv(s) && Same(env, s, t) && Enabled(s, Grant) && TableOk(t)
    ensures var s', v := Apply(env, s, Grant), s.list[s.master.i];
            && t.tasks[v].next.Some?
            && var (task, shared) := RunLine(env, t.tasks[v], t.shared);
               SameTask(env, s', v, task) && shared == SharedAfter(env, s')
  {
    var v := s.list[s.master.i];
    assert VmOk(s, v) && SameTask(env, s, v, t.tasks[v]);
  }

  /** A machine that has closed its channel is one that is over for the sequential interpreter. */
  lemma DropSame(env: Env, s: System, t: Table)
    requires Inv(s) && Same(env, s, t) && Enabled(s, DropOffered) && TableOk(t)
    ensures Same(env, Apply(env, s, DropOffered), Turn(env, t))
  {
    var s' := Apply(env, s, DropOffered);
    var t' := Turn(env, t);
    assert SameTask(env, s, s.list[s.master.i], t.tasks[s.list[s.master.i]]);
    forall u: nat | u < |s'.vms| ensures SameTask(env, s', u, t'.tasks[u]) {
      assert SameTask(env, s, u, t.tasks[u]);
    }
  }

  lemma RoundSame(env: Env, s: System, t: Table, m: Move)
    requires Inv(s) && Same(env, s, t) && Enabled(s, m) && TableOk(t) && (m.NextRound? || m.Finish?)
    ensures Same(env, Apply(env, s, m), if m.NextRound? then Turn(env, t) else t)
  {
    var s' := Apply(env, s, m);
    forall u: nat | u < |s'.vms| ensures SameTask(env, s', u, t.tasks[u]) {
      assert SameTask(env, s, u, t.tasks[u]);
    }
  }

  /** Every move is a turn of the sequential interpreter, or nothing to it. */
  lemma MoveSame(env: Env, s: System, m: Move, t: Table)
    requires Inv(s) && Same(env, s, t) && TableOk(t) && Enabled(s, m) && !m.Terminate? && Spinless(env, s)
    ensures Same(env, Apply(env, s, m), if IsTurn(m) then Turn(env, t) else t)
  {
    DoneBeforeClose(s);
    match m
    case Decide(v) => DecideSame(env, s, v, t);
    case Execute(v) => ExecuteSame(env, s, v, t);
    case Close(v) => CloseSame(env, s, v, t);
    case Grant => GrantSame(env, s, t);
    case Report => ReportSame(env, s, t);
    case DropOffered => DropSame(env, s, t);
    case DropAwaited =>
    case NextRound => RoundSame(env, s, t, m);
    case Finish => RoundSame(env, s, t, m);
  }

  // ---- how long it takes to the next turn ----

  function PhaseRank(vm: Vm): nat {
    match vm.phase
    case Deciding(line) => if line < |vm.code| then 1 else 2
    case Waiting(_) => 0
    case InLine(_, rest) => 4 + |rest|
    case Reporting(_) => 3
    case Closing => 1
    case Closed => 0
  }

  function Rank(vms: seq<Vm>): nat {
    if vms == [] then 0 else PhaseRank(vms[0]) + Rank(vms[1..])
  }

  lemma {:induction false} RankUpdate(vms: seq<Vm>, v: nat, vm: Vm)
    requires v < |vms|
    ensures Rank(vms[v := vm]) + PhaseRank(vms[v]) == Rank(vms) + PhaseRank(vm)
  {
    if v == 0 {
      assert vms[0 := vm][1..] == vms[1..];
    } else {
      assert vms[v := vm][1..] == vms[1..][v - 1 := vm];
      RankUpdate(vms[1..], v - 1, vm);
    }
  }

  function MasterRank(m: Master): nat {
    if m.Ended? then 0 else 1
  }

  /** Moves that are not turns use up the rank. */
  lemma MoveRank(env: Env, s: System, m: Move)
    requires Inv(s) && Enabled(s, m) && !m.Terminate? && !IsTurn(m) && Spinless(env, s)
    ensures var s' := Apply(env, s, m); Rank(s'.vms) + MasterRank(s'.master) < Rank(s.vms) + MasterRank(s.master)
  {
    DoneBeforeClose(s);
    var s' := Apply(env, s, m);
    if m.Finish? {
      assert s'.vms == s.vms;
    } else {
      var v := if m.Report? then s.dones[s.master.i] else m.v;
      RankUpdate(s.vms, v, s'.vms[v]);
    }
  }

  // ---- whole runs ----

  /** The moves can be made one after another and lead from `s` to `s'`. */
  ghost predicate Leads(env: Env, s: System, ms: seq<Move>, s': System)
    decreases |ms|
  {
    if ms == [] then s' == s
    else Enabled(s, ms[0]) && Leads(env, Apply(env, s, ms[0]), ms[1..], s')
  }

  ghost predicate Quiet(ms: seq<Move>) {
    forall j :: 0 <= j < |ms| ==> !ms[j].Terminate?
  }

  /** All reachable states have the invariant. */
  lemma {:induction false} LeadsInv(env: Env, s: System, ms: seq<Move>, s': System)
    requires Inv(s) && Leads(env, s, ms, s')
    ensures Inv(s')
    decreases |ms|
  {
    if ms != [] {
      StepInv(env, s, ms[0]);
      LeadsInv(env, Apply(env, s, ms[0]), ms[1..], s');
    }
  }

  lemma ApplySpinless(env: Env, s: System, m: Move)
    requires Spinless(env, s) && Enabled(s, m)
    ensures Spinless(env, Apply(env, s, m)) && |Apply(env, s, m).vms| == |s.vms|
  {
  }

  /** The move gives machine `v` the permission to run a line. */
  predicate GrantedTo(s: System, m: Move, v: nat) {
    m.Grant? && s.master.Offering? && s.master.i < |s.runs| && s.runs[s.master.i] == v
  }

  /** How many lines machine `v` is permitted to run by the moves. */
  function Grants(env: Env, s: System, ms: seq<Move>, v: nat): nat
    decreases |ms|
  {
    if ms == [] || !Enabled(s, ms[0]) then 0
    else (if GrantedTo(s, ms[0], v) then 1 else 0) + Grants(env, Apply(env, s, ms[0]), ms[1..], v)
  }

  /** The tables differ by as many turns of task `v` as machine `v` has been granted. */
  ghost predicate TurnsMatch(env: Env, s: System, ms: seq<Move>, t: Table, t': Table, v: nat) {
    v < |t.tasks| == |t'.tasks| ==> t'.tasks[v].turns == t.tasks[v].turns + Grants(env, s, ms, v)
  }

  /** One move, and what it counts as. */
  lemma MoveCounts(env: Env, s: System, m: Move, t: Table, v: nat)
    requires Inv(s) && Same(env, s, t) && TableOk(t) && Enabled(s, m) && v < |t.tasks|
    ensures var t' := if IsTurn(m) then Turn(env, t) else t;
            && |t'.tasks| == |t.tasks|
            && t'.tasks[v].turns == t.tasks[v].turns + (if GrantedTo(s, m, v) then 1 else 0)
            && t'.removed + |Apply(env, s, m).list| == t.removed + |s.list|
  {
    DoneBeforeClose(s);
    if m.Grant? || m.DropOffered? {
      var u := s.list[s.master.i];
      assert VmOk(s, u) && SameTask(env, s, u, t.tasks[u]);
    }
  }

  /** Every interleaving amounts to some number of turns of the sequential interpreter, and there is a turn among
      any moves that are more than the rank. Each grant is a turn of the machine that gets it. */
  lemma {:induction false} LeadsTurns(env: Env, s: System, ms: seq<Move>, s': System, t: Table) returns (k: nat)
    requires Inv(s) && Spinless(env, s) && Leads(env, s, ms, s') && Quiet(ms) && Same(env, s, t) && TableOk(t)
    ensures TableOk(Turns(env, t, k)) && Same(env, s', Turns(env, t, k)) && Inv(s')
    ensures k == 0 ==> |ms| + Rank(s'.vms) + MasterRank(s'.master) <= Rank(s.vms) + MasterRank(s.master)
    ensures |Turns(env, t, k).tasks| == |t.tasks|
    ensures Turns(env, t, k).removed + |s'.list| == t.removed + |s.list|
    ensures forall v: nat {:trigger TurnsMatch(env, s, ms, t, Turns(env, t, k), v)} ::
              TurnsMatch(env, s, ms, t, Turns(env, t, k), v)
    decreases |ms|
  {
    k := 0;
    if ms != [] {
      var m := ms[0];
      var next := Apply(env, s, m);
      var t' := if IsTurn(m) then Turn(env, t) else t;
      StepInv(env, s, m);
      ApplySpinless(env, s, m);
      MoveSame(env, s, m, t);
      TurnOk(env, t);
      k := LeadsTurns(env, next, ms[1..], s', t');
      FirstCounts(env, s, ms, t, t', Turns(env, t', k), s');
      if IsTurn(m) {
        k := k + 1;
      } else {
        MoveRank(env, s, m);
      }
    }
  }

  /** The counts of the first move and those of the others. */
  lemma FirstCounts(env: Env, s: System, ms: seq<Move>, t: Table, t': Table, last: Table, s': System)
    requires Inv(s) && Same(env, s, t) && TableOk(t) && ms != [] && Enabled(s, ms[0])
    requires t' == if IsTurn(ms[0]) then Turn(env, t) else t
    requires |last.tasks| == |t'.tasks| && last.removed + |s'.list| == t'.removed + |Apply(env, s, ms[0]).list|
    requires forall v: nat {:trigger TurnsMatch(env, Apply(env, s, ms[0]), ms[1..], t', last, v)} ::
               TurnsMatch(env, Apply(env, s, ms[0]), ms[1..], t', last, v)
    ensures |last.tasks| == |t.tasks| && last.removed + |s'.list| == t.removed + |s.list|
    ensures forall v: nat {:trigger TurnsMatch(env, s, ms, t, last, v)} :: TurnsMatch(env, s, ms, t, last, v)
  {
    TasksKept(env, s, ms[0], t);
    forall v: nat ensures TurnsMatch(env, s, ms, t, last, v) {
      assert TurnsMatch(env, Apply(env, s, ms[0]), ms[1..], t', last, v);
      if v < |t.tasks| {
        MoveCounts(env, s, ms[0], t, v);
      }
    }
  }

  lemma TasksKept(env: Env, s: System, m: Move, t: Table)
    requires Inv(s) && Same(env, s, t) && TableOk(t) && Enabled(s, m)
    ensures var t' := if IsTurn(m) then Turn(env, t) else t;
            |t'.tasks| == |t.tasks| && t'.removed + |Apply(env, s, m).list| == t.removed + |s.list|
  {
    if |t.tasks| > 0 {
      MoveCounts(env, s, m, t, 0);
    } else {
      DoneBeforeClose(s);
    }
  }

  // ---- results about whole runs ----

  ghost function StartTable(env: Env, codes: seq<Code>, shared: Shared): Table {
    Table(seq(|codes|, i requires 0 <= i < |codes| => Task(codes[i], Wrapped(env, codes[i], 0), map[], 0, 0)),
          seq(|codes|, i requires 0 <= i < |codes| => i), 0, shared, 0, 0)
  }

  ghost predicate Programs(env: Env, codes: seq<Code>) {
    env.forever ==> forall i :: 0 <= i < |codes| ==> codes[i] != []
  }

  lemma StartSame(env: Env, codes: seq<Code>, shared: Shared)
    requires Programs(env, codes)
    ensures var s, t := Start(codes, shared), StartTable(env, codes, shared);
            Inv(s) && Spinless(env, s) && TableOk(t) && Fair(t) && Same(env, s, t)
  {
    var s, t := Start(codes, shared), StartTable(env, codes, shared);
    StartInv(codes, shared);
    forall v: nat | v < |s.vms| ensures SameTask(env, s, v, t.tasks[v]) {
    }
    forall j: nat | j < |t.order| ensures Served(t, j) {
    }
  }

  /** Lines are atomic and turns are fair: whatever a run of the coordinated machines does, the sequential
      interpreter does it line by line; and of two machines that still take part, none has been permitted to run more
      lines than the other one, but for one line and one more for each machine that was removed. */
  lemma RunIsRoundRobin(env: Env, codes: seq<Code>, shared: Shared, ms: seq<Move>, s: System) returns (k: nat)
    requires Programs(env, codes) && Leads(env, Start(codes, shared), ms, s) && Quiet(ms)
    ensures TableOk(StartTable(env, codes, shared))
    ensures var t := Turns(env, StartTable(env, codes, shared), k);
            && TableOk(t) && Same(env, s, t) && |t.tasks| == |codes| && t.removed == |codes| - |s.list|
            && forall v: nat :: v < |codes| ==> t.tasks[v].turns == Grants(env, Start(codes, shared), ms, v)
    ensures forall u, v :: u in s.list && v in s.list ==>
              Grants(env, Start(codes, shared), ms, u) <=
              Grants(env, Start(codes, shared), ms, v) + 1 + |codes| - |s.list|
  {
    var s0, t0 := Start(codes, shared), StartTable(env, codes, shared);
    StartSame(env, codes, shared);
    k := LeadsTurns(env, s0, ms, s, t0);
    var t := Turns(env, t0, k);
    FairTurns(env, t0, k);
    forall v: nat | v < |codes| ensures t.tasks[v].turns == Grants(env, s0, ms, v) {
      assert TurnsMatch(env, s0, ms, t0, t, v);
    }
    forall u, v | u in s.list && v in s.list
      ensures Grants(env, s0, ms, u) <= Grants(env, s0, ms, v) + 1 + |codes| - |s.list|
    {
      var i :| 0 <= i < |t.order| && t.order[i] == u;
      var j :| 0 <= j < |t.order| && t.order[j] == v;
      TurnsBalanced(t, i, j);
    }
  }

  /** All complete runs end with the same variables and the same writes: the result depends on the programs and the
      initial shared variables only. */
  lemma Deterministic(env: Env, codes: seq<Code>, shared: Shared, ms: seq<Move>, s: System, ms': seq<Move>, s': System)
    requires Programs(env, codes)
    requires Leads(env, Start(codes, shared), ms, s) && Quiet(ms) && s.master.Ended?
    requires Leads(env, Start(codes, shared), ms', s') && Quiet(ms') && s'.master.Ended?
    ensures s'.shared == s.shared && |s'.vms| == |s.vms|
    ensures forall v :: 0 <= v < |s.vms| ==> s'.vms[v].locals == s.vms[v].locals
  {
    var t0 := StartTable(env, codes, shared);
    StartSame(env, codes, shared);
    var k := LeadsTurns(env, Start(codes, shared), ms, s, t0);
    var k' := LeadsTurns(env, Start(codes, shared), ms', s', t0);
    SameEnd(env, t0, k, k');
    var t := Turns(env, t0, k);
    forall v: nat | v < |s.vms| ensures s'.vms[v].locals == s.vms[v].locals {
      assert SameTask(env, s, v, t.tasks[v]) && SameTask(env, s', v, t.tasks[v]);
      assert VmOk(s, v) && VmOk(s', v);
    }
  }

  lemma SameEnd(env: Env, t: Table, k: nat, k': nat)
    requires TableOk(t) && TableOk(Turns(env, t, k)) && TableOk(Turns(env, t, k'))
    requires Over(Turns(env, t, k)) && Over(Turns(env, t, k'))
    ensures Turns(env, t, k) == Turns(env, t, k')
  {
    if k <= k' {
      TurnsAdd(env, t, k, k' - k);
      OverStays(env, Turns(env, t, k), k' - k);
    } else {
      TurnsAdd(env, t, k', k - k');
      OverStays(env, Turns(env, t, k'), k - k');
    }
  }

  /** The system makes progress: among enough moves there is a turn. */
  lemma TurnComes(env: Env, s: System, ms: seq<Move>, s': System)
    requires Inv(s) && Spinless(env, s) && Leads(env, s, ms, s') && Quiet(ms)
    requires |ms| > Rank(s.vms) + MasterRank(s.master)
    ensures exists j :: 0 <= j < |ms| && IsTurn(ms[j])
    decreases |ms|
  {
    if !IsTurn(ms[0]) {
      MoveRank(env, s, ms[0]);
      StepInv(env, s, ms[0]);
      ApplySpinless(env, s, ms[0]);
      TurnComes(env, Apply(env, s, ms[0]), ms[1..], s');
      var j :| 0 <= j < |ms[1..]| && IsTurn(ms[1..][j]);
      assert IsTurn(ms[j + 1]);
    }
  }

  // ---- what Programs excludes ----

  /** Machine `e`, at place `pe` of the list, has an empty program: it is never ready for permission, and it never
      closes its channel. */
  ghost predicate Blocked(s: System, e: nat, pe: nat) {
    && Inv(s) && !s.master.Ended? && pe < |s.list| && s.list[pe] == e < |s.vms|
    && s.vms[e].code == [] && s.vms[e].phase.Deciding?
  }

  /** Machine `v` is at place `pv` of the list, or has been removed. */
  ghost predicate IsAt(s: System, v: nat, pv: Option<nat>) {
    match pv
    case Some(j) => j < |s.list| && s.list[j] == v
    case None => v !in s.list
  }

  /** The place that the coordinator comes to next. */
  function Head(m: Master): nat {
    match m
    case Offering(i) => i
    case Awaiting(i) => i + 1
    case Ended => 0
  }

  /** How often the machine at `pv` can still be permitted to run a line. The coordinator only gets past place `pe` when
      it removes the machine before it, which brings the empty program one place forward. */
  function Budget(h: nat, pe: nat, pv: Option<nat>): nat {
    match pv
    case None => 0
    case Some(j) =>
      if j == pe then 0
      else if j < pe then pe + (if h <= j || h > pe then 1 else 0)
      else pe + (if pe < h <= j then 1 else 0)
  }

  function PlaceAfter(i: nat, j: nat): Option<nat> {
    if j < i then Some(j) else if j == i then None else Some(j - 1)
  }

  lemma BlockedDrop(env: Env, s: System, e: nat, pe: nat, v: nat, pv: Option<nat>)
    requires Blocked(s, e, pe) && IsAt(s, v, pv) && Enabled(s, DropOffered)
    ensures pe != s.master.i
    ensures var s', i := Apply(env, s, DropOffered), s.master.i;
            var pe', pv' := PlaceAfter(i, pe).value, if pv.Some? then PlaceAfter(i, pv.value) else None;
            && Blocked(s', e, pe') && IsAt(s', v, pv')
            && Budget(Head(s'.master), pe', pv') <= Budget(Head(s.master), pe, pv)
  {
    StepInv(env, s, DropOffered);
    assert s.list[s.master.i] != e;
  }

  lemma BlockedGrant(env: Env, s: System, e: nat, pe: nat, v: nat, pv: Option<nat>)
    requires Blocked(s, e, pe) && IsAt(s, v, pv) && Enabled(s, Grant)
    ensures var s' := Apply(env, s, Grant);
            && Blocked(s', e, pe) && IsAt(s', v, pv)
            && (if GrantedTo(s, Grant, v) then 1 else 0) + Budget(Head(s'.master), pe, pv) <=
               Budget(Head(s.master), pe, pv)
  {
    StepInv(env, s, Grant);
    assert s.list[s.master.i] != e;
  }

  /** All other moves leave the places as they are. */
  lemma BlockedMove(env: Env, s: System, m: Move, e: nat, pe: nat, v: nat, pv: Option<nat>)
    requires env.forever && Blocked(s, e, pe) && IsAt(s, v, pv) && Enabled(s, m)
    requires !m.Terminate? && !m.DropOffered? && !m.Grant?
    ensures var s' := Apply(env, s, m);
            && Blocked(s', e, pe) && IsAt(s', v, pv)
            && Budget(Head(s'.master), pe, pv) <= Budget(Head(s.master), pe, pv)
  {
    StepInv(env, s, m);
    DoneBeforeClose(s);
  }

  lemma {:induction false} BlockedGrants(env: Env, s: System, ms: seq<Move>, s': System, e: nat, pe: nat, v: nat,
                                         pv: Option<nat>)
    requires env.forever && Blocked(s, e, pe) && IsAt(s, v, pv) && Leads(env, s, ms, s') && Quiet(ms)
    ensures Grants(env, s, ms, v) <= Budget(Head(s.master), pe, pv)
    ensures !s'.master.Ended? && e in s'.list
    decreases |ms|
  {
    if ms != [] {
      var m, next := ms[0], Apply(env, s, ms[0]);
      var pe', pv' := pe, pv;
      if m.DropOffered? {
        BlockedDrop(env, s, e, pe, v, pv);
        pe', pv' := PlaceAfter(s.master.i, pe).value, if pv.Some? then PlaceAfter(s.master.i, pv.value) else None;
      } else if m.Grant? {
        BlockedGrant(env, s, e, pe, v, pv);
      } else {
        BlockedMove(env, s, m, e, pe, v, pv);
      }
      BlockedGrants(env, next, ms[1..], s', e, pe', v, pv');
    }
  }

  // ---- the turn that is skipped behind a removal ----

  /** The coordinator is past machine `v` in this round. */
  ghost predicate PastIt(s: System, v: nat, pv: Option<nat>) {
    Inv(s) && IsAt(s, v, pv) && (pv.Some? ==> pv.value < Head(s.master) && !s.master.Ended?)
  }

  lemma PastMove(env: Env, s: System, m: Move, v: nat, pv: Option<nat>) returns (pv': Option<nat>)
    requires PastIt(s, v, pv) && Enabled(s, m) && !m.NextRound?
    requires s.master.Awaiting? ==> pv != Some(s.master.i)
    ensures PastIt(Apply(env, s, m), v, pv') && !GrantedTo(s, m, v)
    ensures Apply(env, s, m).master.Awaiting? ==> pv' != Some(Apply(env, s, m).master.i)
  {
    StepInv(env, s, m);
    DoneBeforeClose(s);
    pv' := if m.DropOffered? && pv.Some? then PlaceAfter(s.master.i, pv.value) else pv;
  }

  lemma {:induction false} PastMoves(env: Env, s: System, ms: seq<Move>, s': System, v: nat, pv: Option<nat>)
    requires PastIt(s, v, pv) && Leads(env, s, ms, s') && (s.master.Awaiting? ==> pv != Some(s.master.i))
    requires forall j :: 0 <= j < |ms| ==> !ms[j].NextRound?
    ensures Grants(env, s, ms, v) == 0
    decreases |ms|
  {
    if ms != [] {
      var pv' := PastMove(env, s, ms[0], v, pv);
      PastMoves(env, Apply(env, s, ms[0]), ms[1..], s', v, pv');
    }
  }

  /** When a machine is removed, the one behind it in the list gets no turn for the rest of the round. */
  lemma RemovalSkips(env: Env, s: System, ms: seq<Move>, s': System)
    requires Inv(s) && Enabled(s, DropOffered) && s.master.i + 1 < |s.list|
    requires Leads(env, Apply(env, s, DropOffered), ms, s') && forall j :: 0 <= j < |ms| ==> !ms[j].NextRound?
    ensures Grants(env, Apply(env, s, DropOffered), ms, s.list[s.master.i + 1]) == 0
  {
    StepInv(env, s, DropOffered);
    PastMoves(env, Apply(env, s, DropOffered), ms, s', s.list[s.master.i + 1], Some(s.master.i));
  }

  /** An empty program that runs for ever blocks everybody: the coordinator never ends, and in no run, however long, is
      a machine permitted to run more than a fixed number of lines. */
  lemma EmptyProgramBlocks(env: Env, codes: seq<Code>, shared: Shared, ms: seq<Move>, s: System, e: nat, v: nat)
    requires env.forever && e < |codes| && codes[e] == []
    requires Leads(env, Start(codes, shared), ms, s) && Quiet(ms)
    ensures !s.master.Ended? && e in s.list
    ensures Grants(env, Start(codes, shared), ms, v) <= if v < e then e + 1 else if v > e then e else 0
  {
    var s0 := Start(codes, shared);
    StartInv(codes, shared);
    assert s0.list[e] == e;
    assert v < |codes| ==> s0.list[v] == v;
    BlockedGrants(env, s0, ms, s, e, e, v, if v < |codes| then Some(v) else None);
  }

  /** The first machine's empty program lets nobody run a line at all. */
  lemma EmptyProgramSpins(env: Env, codes: seq<Code>, shared: Shared, ms: seq<Move>, s: System)
    requires env.forever && codes != [] && codes[0] == []
    requires Leads(env, Start(codes, shared), ms, s) && Quiet(ms)
    ensures s.master == Offering(0) && forall v :: Grants(env, Start(codes, shared), ms, v) == 0
  {
    SpinStays(env, Start(codes, shared), ms, s);
  }

  /** Machine 0 is at the empty program, and everybody waits for it. */
  ghost predicate Spinning(s: System) {
    && s.master == Offering(0) && |s.vms| > 0 && |s.list| > 0 && |s.runs| > 0 && |s.dones| > 0
    && s.runs[0] == 0 && s.dones[0] == 0 && s.vms[0].code == [] && s.vms[0].phase.Deciding?
    && forall v :: 0 <= v < |s.vms| ==> !s.vms[v].phase.InLine? && !s.vms[v].phase.Reporting?
  }

  lemma {:induction false} SpinStays(env: Env, s: System, ms: seq<Move>, s': System)
    requires env.forever && Spinning(s) && Leads(env, s, ms, s') && Quiet(ms)
    ensures Spinning(s') && forall v :: Grants(env, s, ms, v) == 0
    decreases |ms|
  {
    if ms != [] {
      SpinStays(env, Apply(env, s, ms[0]), ms[1..], s');
    }
  }
}
