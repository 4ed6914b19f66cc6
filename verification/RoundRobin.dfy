/** The sequential interpreter that several coordinated programs amount to: one after another runs one line, in the
    order in which they were registered. A program that is over loses its place when its turn comes, and then the
    program behind it misses that turn. */
module RoundRobin {
  import opened Ast
  import opened Operations
  import opened Semantics
  import opened Machine

  /** A program between two lines. `next` is the index of its next line, None when it is over. The numbers count
      the lines it has run and the turns it has missed. */
  datatype Task = Task(code: Code, next: Option<nat>, locals: map<string, Value>, turns: nat, missed: nat)

  datatype Shared = Shared(globals: map<string, Value>, trace: seq<Write>)

  /** `order` holds the numbers of the tasks that take part, and `i` is the place of the next one. */
  datatype Table = Table(tasks: seq<Task>, order: seq<nat>, i: nat, shared: Shared, rounds: nat, removed: nat)

  /** Leaving the last line leads to the first one, or ends the program. */
  function Wrapped(env: Env, code: Code, line: nat): Option<nat> {
    if line < |code| then Some(line) else if env.forever && code != [] then Some(0) else None
  }

  function Finally(env: Env, code: Code, line: Option<nat>): Option<nat> {
    match line
    case None => None
    case Some(n) => Wrapped(env, code, n)
  }

  /** Everything a line sees. */
  function StateOf(locals: map<string, Value>, s: Shared): State {
    State(locals, s.globals, s.trace)
  }

  function SharedOf(st: State): Shared {
    Shared(st.globals, st.trace)
  }

  function RunLine(env: Env, t: Task, s: Shared): (Task, Shared)
    requires t.next.Some? && t.next.value < |t.code|
  {
    var r := RunStmts(env.d, t.code[t.next.value], StateOf(t.locals, s));
    (t.(next := Finally(env, t.code, NextLine(env, t.next.value, r.sig)), locals := r.st.locals, turns := t.turns + 1),
     SharedOf(r.st))
  }

  function RemoveAt<T>(s: seq<T>, i: nat): seq<T>
    requires i < |s|
  {
    s[..i] + s[i + 1..]
  }

  function Miss(tasks: seq<Task>, v: nat): seq<Task> {
    if v < |tasks| then tasks[v := tasks[v].(missed := tasks[v].missed + 1)] else tasks
  }

  ghost predicate TableOk(t: Table) {
    && (forall j :: 0 <= j < |t.order| ==> t.order[j] < |t.tasks|)
    && (forall v :: 0 <= v < |t.tasks| && t.tasks[v].next.Some? ==> t.tasks[v].next.value < |t.tasks[v].code|)
  }

  predicate Over(t: Table) {
    t.i >= |t.order| && t.order == []
  }

  /** What happens next is fixed. */
  function Turn(env: Env, t: Table): (r: Table)
    requires TableOk(t)
  {
    if t.i >= |t.order| then
      if t.order == [] then t else t.(i := 0, rounds := t.rounds + 1)
    else
      var v := t.order[t.i];
      if t.tasks[v].next.None? then
        t.(order := RemoveAt(t.order, t.i), i := t.i + 1, removed := t.removed + 1,
           tasks := if t.i + 1 < |t.order| then Miss(t.tasks, t.order[t.i + 1]) else t.tasks)
      else
        var (task, shared) := RunLine(env, t.tasks[v], t.shared);
        t.(tasks := t.tasks[v := task], shared := shared, i := t.i + 1)
  }

  lemma TurnOk(env: Env, t: Table)
    requires TableOk(t)
    ensures TableOk(Turn(env, t))
  {
  }

  function Turns(env: Env, t: Table, n: nat): Table
    requires TableOk(t)
    decreases n
  {
    if n == 0 then t
    else
      TurnOk(env, t);
      Turns(env, Turn(env, t), n - 1)
  }

  lemma {:induction false} TurnsOk(env: Env, t: Table, n: nat)
    requires TableOk(t)
    ensures TableOk(Turns(env, t, n))
    decreases n
  {
    if n > 0 {
      TurnOk(env, t);
      TurnsOk(env, Turn(env, t), n - 1);
    }
  }

  lemma {:induction false} TurnsAdd(env: Env, t: Table, n: nat, m: nat)
    requires TableOk(t)
    ensures TableOk(Turns(env, t, n)) && Turns(env, t, n + m) == Turns(env, Turns(env, t, n), m)
    decreases n
  {
    TurnsOk(env, t, n);
    if n > 0 {
      TurnOk(env, t);
      var next := Turn(env, t);
      assert Turns(env, t, n + m) == Turns(env, next, n - 1 + m);
      TurnsAdd(env, next, n - 1, m);
    }
  }

  lemma {:induction false} OverStays(env: Env, t: Table, n: nat)
    requires TableOk(t) && Over(t)
    ensures Turns(env, t, n) == t
    decreases n
  {
    if n > 0 {
      OverStays(env, t, n - 1);
    }
  }

  // ---- fairness ----

  /** Every task has had its turn once a round, except for the turns it missed. */
  ghost predicate Served(t: Table, j: nat)
    requires TableOk(t) && j < |t.order|
  {
    var task := t.tasks[t.order[j]];
    task.turns + task.missed == t.rounds + (if j < t.i then 1 else 0) && task.missed <= t.removed
  }

  ghost predicate Distinct(s: seq<nat>) {
    forall j, k :: 0 <= j < k < |s| ==> s[j] != s[k]
  }

  ghost predicate Fair(t: Table) {
    TableOk(t) && Distinct(t.order) && forall j: nat {:trigger Served(t, j)} :: j < |t.order| ==> Served(t, j)
  }

  lemma FairRemoval(env: Env, t: Table)
    requires Fair(t) && t.i < |t.order| && t.tasks[t.order[t.i]].next.None?
    ensures Fair(Turn(env, t))
  {
    var t' := Turn(env, t);
    forall j: nat | j < |t'.order| ensures Served(t', j) {
      assert Served(t, if j < t.i then j else j + 1);
    }
  }

  lemma FairRun(env: Env, t: Table)
    requires Fair(t) && t.i < |t.order| && t.tasks[t.order[t.i]].next.Some?
    ensures Fair(Turn(env, t))
  {
    var t' := Turn(env, t);
    forall j: nat | j < |t'.order| ensures Served(t', j) {
      assert Served(t, j);
    }
  }

  lemma FairTurn(env: Env, t: Table)
    requires Fair(t)
    ensures Fair(Turn(env, t))
  {
    if t.i >= |t.order| {
      var t' := Turn(env, t);
      forall j: nat | j < |t'.order| ensures Served(t', j) {
        assert Served(t, j);
      }
    } else if t.tasks[t.order[t.i]].next.None? {
      FairRemoval(env, t);
    } else {
      FairRun(env, t);
    }
  }

  lemma {:induction false} FairTurns(env: Env, t: Table, n: nat)
    requires Fair(t)
    ensures Fair(Turns(env, t, n))
    decreases n
  {
    if n > 0 {
      FairTurn(env, t);
      FairTurns(env, Turn(env, t), n - 1);
    }
  }

  /** Two programs that still take part have run the same number of lines, up to one line and one more for each program
      that was removed. */
  lemma TurnsBalanced(t: Table, j: nat, k: nat)
    requires Fair(t) && j < |t.order| && k < |t.order|
    ensures t.tasks[t.order[j]].turns <= t.tasks[t.order[k]].turns + 1 + t.removed
  {
    assert Served(t, j) && Served(t, k);
  }
}
