/** The objects that run programs: the virtual machine (pkg/vm/vm.go) and the lists and shared variables of the
    coordinator (pkg/vm/coordinator.go). */
module Machines {
  import opened Ast
  import opened Operations
  import opened Semantics
  import opened Machine
  import opened RoundRobin

  /** A channel of the coordinator, of which only matters whether it has been closed. */
  class Channel {
    var closed: bool

    constructor ()
      ensures !closed
    {
      closed := false;
    }
  }

  class Coordinator {
    var vms: seq<VM>
    var runLineChannels: seq<Channel>
    var lineDoneChannels: seq<Channel>
    var globalVariables: map<string, Value>

    ghost predicate Valid()
      reads this
    {
      && |vms| == |runLineChannels| == |lineDoneChannels|
      && (forall j, k :: 0 <= j < k < |runLineChannels| ==> runLineChannels[j] != runLineChannels[k])
    }

    constructor ()
      ensures Valid() && vms == [] && globalVariables == map[]
    {
      vms, runLineChannels, lineDoneChannels, globalVariables := [], [], [], map[];
    }

    /** Reading is case-insensitive. */
    method GetVariable(name: string) returns (v: Value, exists_: bool)
      ensures exists_ == (Lower(name) in globalVariables)
      ensures exists_ ==> v == globalVariables[Lower(name)]
    {
      var key := Lower(name);
      if key in globalVariables {
        return globalVariables[key], true;
      }
      return N(0.0), false;
    }

    method SetVariable(name: string, value: Value)
      modifies this`globalVariables
      ensures globalVariables == old(globalVariables)[Lower(name) := value]
    {
      globalVariables := globalVariables[Lower(name) := value];
    }

    /** A new machine comes last in all three lists. */
    method RegisterVM(vm: VM) returns (runChannel: Channel, doneChannel: Channel)
      requires Valid()
      modifies this`vms, this`runLineChannels, this`lineDoneChannels
      ensures Valid() && fresh(runChannel) && fresh(doneChannel) && !runChannel.closed && !doneChannel.closed
      ensures vms == old(vms) + [vm]
      ensures runLineChannels == old(runLineChannels) + [runChannel]
      ensures lineDoneChannels == old(lineDoneChannels) + [doneChannel]
    {
      runChannel := new Channel();
      doneChannel := new Channel();
      vms := vms + [vm];
      runLineChannels := runLineChannels + [runChannel];
      lineDoneChannels := lineDoneChannels + [doneChannel];
    }

    /** Takes a machine out of all three lists, and closes the channel it might be waiting on, and no other. */
    method Remove(idx: nat)
      requires Valid() && idx < |vms|
      modifies this`vms, this`runLineChannels, this`lineDoneChannels, runLineChannels[idx]
      ensures Valid()
      ensures vms == RemoveAt(old(vms), idx)
      ensures runLineChannels == RemoveAt(old(runLineChannels), idx)
      ensures lineDoneChannels == RemoveAt(old(lineDoneChannels), idx)
      ensures old(runLineChannels[idx]).closed
      ensures forall j :: 0 <= j < |runLineChannels| ==>
              runLineChannels[j].closed == old(runLineChannels[if j < idx then j else j + 1].closed)
    {
      vms := vms[..idx] + vms[idx + 1..];
      runLineChannels[idx].closed := true;
      runLineChannels := runLineChannels[..idx] + runLineChannels[idx + 1..];
      lineDoneChannels := lineDoneChannels[..idx] + lineDoneChannels[idx + 1..];
    }
  }

  function LocalPart(vars: map<string, Value>): map<string, Value> {
    map k | k in vars && !IsGlobal(k) :: vars[k]
  }

  function GlobalPart(vars: map<string, Value>): map<string, Value> {
    map k | k in vars && IsGlobal(k) :: vars[k]
  }

  /** How a statement or a line ended for the run loop: normally, aborted by a goto, or with an error. */
  datatype Ending = Normal | AbortLine | Error

  predicate EndsLike(e: Ending, line: int, sig: Signal) {
    match sig
    case Next => e == Normal
    case JumpLine(n) => e == AbortLine && line == n - 1
    case _ => e == Error
  }

  class VM {
    const d: Decimals
    const program: Code
    var variables: map<string, Value>
    var coordinator: Coordinator?
    var currentAstLine: int
    var jumped: bool
    var executedLines: nat
    ghost var trace: seq<Write>

    constructor (d: Decimals, program: Code)
      ensures this.d == d && this.program == program && coordinator == null
      ensures View() == State(map[], map[], []) && currentAstLine == 1 && executedLines == 0
    {
      this.d, this.program := d, program;
      variables, coordinator, currentAstLine, jumped, executedLines, trace := map[], null, 1, false, 0, [];
    }

    /** The variables as the program sees them; without a coordinator the machine keeps the global ones itself. */
    ghost function View(): State
      reads this, coordinator
    {
      if coordinator == null then State(LocalPart(variables), GlobalPart(variables), trace)
      else State(variables, coordinator.globalVariables, trace)
    }

    method GetVariable(name: string) returns (v: Value)
      ensures v == Get(View(), name)
    {
      var key := Lower(name);
      LowerTwice(name);
      if coordinator != null && |key| > 0 && key[0] == ':' {
        var exists_;
        v, exists_ := coordinator.GetVariable(key);
        if !exists_ {
          v := N(0.0);
        }
      } else {
        v := if key in variables then variables[key] else N(0.0);
      }
    }

    method SetVariable(name: string, value: Value)
      modifies this`variables, this`trace, coordinator
      ensures View() == Put(old(View()), name, value) && coordinator == old(coordinator)
    {
      var key := Lower(name);
      LowerTwice(name);
      trace := trace + [Write(key, value)];
      if coordinator != null && |key| > 0 && key[0] == ':' {
        coordinator.SetVariable(key, value);
      } else {
        PartsUpdate(variables, key, value);
        variables := variables[key := value];
      }
    }

    /** Reads a variable and performs its increment or decrement. */
    method RunDeref(name: string, inc: Inc) returns (ok: bool, v: Value)
      modifies this`variables, this`trace, coordinator
      ensures coordinator == old(coordinator)
      ensures var r := EvalDeref(name, inc, old(View()));
              ok == r.Val? && View() == r.st && (ok ==> v == r.v)
    {
      v := GetVariable(name);
      if inc == Plain {
        return true, v;
      }
      var up := inc == PreInc || inc == PostInc;
      var newval;
      match v {
        case N(x) =>
          newval := N(if up then x + 1.0 else x - 1.0);
        case S(s) =>
          if up {
            newval := S(s + " ");
          } else if |s| == 0 {
            return false, v;
          } else {
            newval := S(s[..|s| - 1]);
          }
      }
      SetVariable(name, newval);
      if inc == PreInc || inc == PreDec {
        v := newval;
      }
      ok := true;
    }

    method RunExpr(e: Expr) returns (ok: bool, v: Value)
      modifies this`variables, this`trace, coordinator
      ensures coordinator == old(coordinator)
      ensures var r := Eval(d, e, old(View()));
              ok == r.Val? && View() == r.st && (ok ==> v == r.v)
      decreases e
    {
      v := N(0.0);
      match e
      case Str(s) =>
        return true, S(s);
      case Num(t) =>
        var x := d.parse(t);
        return x.Some?, if x.Some? then N(x.value) else v;
      case Deref(name, inc) =>
        ok, v := RunDeref(name, inc);
      case Bin(op, l, r) =>
        var a;
        ok, a := RunExpr(l);
        if !ok {
          return;
        }
        var b;
        ok, b := RunExpr(r);
        if !ok {
          return;
        }
        var x := RunBinary(d, op, a, b);
        return x.Some?, if x.Some? then x.value else v;
      case Un(op, arg) =>
        var a;
        ok, a := RunExpr(arg);
        if !ok {
          return;
        }
        var x := RunUnary(d, op, a);
        return x.Some?, if x.Some? then x.value else v;
    }

    method RunAssignment(name: string, aop: AssignOp, value: Expr) returns (ok: bool)
      modifies this`variables, this`trace, coordinator
      ensures coordinator == old(coordinator)
      ensures var r := RunStmt(d, Assign(name, aop, value), old(View()));
              ok == (r.sig == Next) && View() == r.st
    {
      var v;
      ok, v := RunExpr(AssignedExpr(name, aop, value));
      if ok {
        SetVariable(name, v);
      }
    }

    /** A goto sets the line before its target, since the run loop will add one. */
    method RunStatement(s: Stmt) returns (e: Ending)
      modifies this`variables, this`trace, this`currentAstLine, this`jumped, coordinator
      ensures coordinator == old(coordinator)
      ensures var r := RunStmt(d, s, old(View()));
              EndsLike(e, currentAstLine, r.sig) && View() == r.st &&
              (!r.sig.JumpLine? ==> currentAstLine == old(currentAstLine))
      decreases s, 1
    {
      match s
      case Assign(name, aop, value) =>
        var ok := RunAssignment(name, aop, value);
        e := if ok then Normal else Error;
      case If(cond, thn, els) =>
        var ok, v := RunExpr(cond);
        if !ok || v.S? {
          return Error;
        }
        if v.num != 0.0 {
          e := RunBlock(thn);
        } else {
          e := RunBlock(els);
        }
      case Goto(line) =>
        var ok, v := RunExpr(line);
        if !ok || v.S? {
          return Error;
        }
        var linenr := d.intPart(v.num);
        if linenr < 1 {
          linenr := 1;
        }
        if linenr > 20 {
          linenr := 20;
        }
        currentAstLine := linenr - 1;
        jumped := true;
        e := AbortLine;
      case Touch(name, inc) =>
        var ok, _ := RunDeref(name, inc);
        e := if ok then Normal else Error;
      case _ =>
        e := Error;
    }

    method RunBlock(ss: seq<Stmt>) returns (e: Ending)
      modifies this`variables, this`trace, this`currentAstLine, this`jumped, coordinator
      ensures coordinator == old(coordinator)
      ensures var r := RunStmts(d, ss, old(View()));
              EndsLike(e, currentAstLine, r.sig) && View() == r.st &&
              (!r.sig.JumpLine? ==> currentAstLine == old(currentAstLine))
      decreases ss, 0
    {
      var i := 0;
      while i < |ss|
        invariant 0 <= i <= |ss| && coordinator == old(coordinator) && currentAstLine == old(currentAstLine)
        invariant RunStmts(d, ss, old(View())) == RunStmts(d, ss[i..], View())
      {
        e := RunStatement(ss[i]);
        assert ss[i..][1..] == ss[i + 1..];
        if e != Normal {
          return;
        }
        i := i + 1;
      }
      e := Normal;
    }

    /** One pass of the run loop. `again` says whether the program starts over after its last line, `goOn` is the answer
        of the error handler. */
    method RunNext(again: bool, goOn: bool) returns (alive: bool)
      requires currentAstLine >= 1
      modifies this`variables, this`trace, this`currentAstLine, this`jumped, this`executedLines, coordinator
      ensures currentAstLine >= 1 && coordinator == old(coordinator)
      ensures var c := VmStep(Env(d, again, goOn), program, Run(old(currentAstLine) - 1, old(View())));
              c.st == View() && alive == c.Run? && (alive ==> c.pc == currentAstLine - 1)
      ensures executedLines == old(executedLines) + if alive && old(currentAstLine) <= |program| then 1 else 0
    {
      if currentAstLine > |program| {
        currentAstLine := 1;
        return again;
      }
      var e := RunBlock(program[currentAstLine - 1]);
      if e == Error && !goOn {
        return false;
      }
      executedLines := executedLines + 1;
      currentAstLine := currentAstLine + 1;
      alive := true;
    }
  }

  lemma LowerTwice(name: string)
    ensures Lower(Lower(name)) == Lower(name)
  {
  }

  lemma PartsUpdate(vars: map<string, Value>, key: string, v: Value)
    ensures LocalPart(vars[key := v]) == if IsGlobal(key) then LocalPart(vars) else LocalPart(vars)[key := v]
    ensures GlobalPart(vars[key := v]) == if IsGlobal(key) then GlobalPart(vars)[key := v] else GlobalPart(vars)
  {
  }
}
