/**
 The step guard of profile templates. A template is a tree; the guard rewrites
 it so that every range and every template call first asks a step counter. The
 rewrite is proved to keep the meaning of every template that stays within the
 limit, and to bound the work of every other one, recursive calls included.
 */
module Templates {
  import opened Common

  const MAX_STEPS: nat := 100_000

  /** What templates compute with. List stands for slices and arrays; a map's
      entries are in key order; Struct is any value a range cannot go over. */
  datatype Value =
    | Nil
    | Int(n: int)
    | Str(s: string)
    | List(items: seq<Value>)
    | Map(entries: seq<(Value, Value)>)
    | Ptr(to: Value)
    | NilPtr
    | Chan(received: seq<Value>)
    | Struct(id: nat)

  datatype Cmd = Call(id: nat) | GuardRange | GuardTick | GuardCall

  /** The variables of a pipeline; a range may have two, index and element. */
  datatype Decl =
    | NoVar
    | Declare(name: string)
    | Assign(name: string)
    | DeclareBoth(index: string, element: string)
    | AssignBoth(index: string, element: string)

  datatype Pipe = Pipe(decl: Decl, cmds: seq<Cmd>)

  datatype Node =
    | Text(text: string)
    | Action(pipe: Pipe)
    | If(pipe: Pipe, yes: seq<Node>, no: seq<Node>)
    | With(pipe: Pipe, yes: seq<Node>, no: seq<Node>)
    | Range(pipe: Pipe, body: seq<Node>, no: seq<Node>)
    | Template(name: string, arg: Option<Pipe>)
    | Break
    | Continue

  type Vars = seq<(string, Value)>

  type Defs = map<string, seq<Node>>

  /** The functions templates may call, which may answer differently each time,
      how values print and count as true, and the limit of the output. */
  datatype Machine = Machine(
    fn: (nat, nat, Vars, Value, Option<Value>) -> Option<Value>,
    show: Value -> string,
    truth: Value -> bool,
    maxBytes: nat)

  /** A render so far. steps is the guard's counter. The last four are not in
      the program: the items gone over and templates called in all, whether a
      range was over something unbounded, the nodes visited, and the iterations
      and calls performed. */
  datatype State = State(
    vars: Vars, out: string, calls: nat, steps: nat,
    cost: nat, refused: bool, visits: nat, work: nat)

  datatype Outcome = Next | Broken | Continued | Error | Starved

  datatype Result = Result(st: State, outcome: Outcome)

  // -------------------------------------------------------------- the guard

  function Take(n: int, steps: nat): Option<nat>
    requires steps <= MAX_STEPS
  {
    if n < 0 || n > MAX_STEPS - steps then None else Some(steps + n)
  }

  /** What a range over a value is charged; nothing when it is refused. */
  function Charge(v: Value): Option<nat> {
    match v
    case Ptr(w) => Charge(w)
    case List(items) => Some(|items|)
    case Map(entries) => Some(|entries|)
    case Str(s) => Some(|s|)
    case Int(n) => if n < 0 then None else Some(n)
    case Chan(_) => None
    case _ => Some(0)
  }

  /** guard.steps and the functions that change it. */
  class Guard {
    var steps: nat

    constructor ()
      ensures steps == 0
    {
      steps := 0;
    }

    method Step(n: int) returns (ok: bool)
      requires steps <= MAX_STEPS
      modifies this
      ensures ok <==> Take(n, old(steps)).Some?
      ensures steps == if ok then Take(n, old(steps)).value else old(steps)
      ensures old(steps) <= steps <= MAX_STEPS
    {
      if n < 0 || n > MAX_STEPS - steps { return false; }
      steps := steps + n;
      return true;
    }

    /** Checks what a range goes over and counts its iterations at once. */
    method Bound(v: Value) returns (ok: bool)
      requires steps <= MAX_STEPS
      modifies this
      ensures ok <==> Charge(v).Some? && Charge(v).value <= MAX_STEPS - old(steps)
      ensures steps == if ok then old(steps) + Charge(v).value else old(steps)
      ensures forall d | Items(d, v).Some? ::
                && (ok <==> !Unbounded(v) && |Items(d, v).value| <= MAX_STEPS - old(steps))
                && (ok ==> steps == old(steps) + |Items(d, v).value|)
    {
      forall d ensures Items(d, v).Some? && !Unbounded(v) ==> Charge(v) == Some(|Items(d, v).value|) {
        ChargeIsItems(d, v);
      }
      assert Charge(v) == None <==> Unbounded(v) by { ChargeIsItems(NoVar, v); }
      var rv := v;
      while rv.Ptr?
        invariant Charge(rv) == Charge(v) && steps == old(steps)
        decreases rv
      {
        rv := rv.to;
      }
      match rv {
        case NilPtr => return true;
        case Nil => return true;
        case List(items) => ok := Step(|items|);
        case Map(entries) => ok := Step(|entries|);
        case Str(s) => ok := Step(|s|);
        case Int(n) =>
          if n > MAX_STEPS { return false; }
          ok := Step(n);
        case Chan(_) => return false;
        case Struct(_) => return true;
      }
    }
  }

  // ------------------------------------------------------------ evaluation

  function SetVar(vars: Vars, name: string, v: Value): Vars {
    if vars == [] then []
    else if vars[|vars| - 1].0 == name then vars[..|vars| - 1] + [(name, v)]
    else SetVar(vars[..|vars| - 1], name, v) + [vars[|vars| - 1]]
  }

  function Bind(d: Decl, v: Value, vars: Vars): Vars {
    match d
    case NoVar => vars
    case Declare(x) => vars + [(x, v)]
    case Assign(x) => SetVar(vars, x, v)
    case DeclareBoth(i, x) => vars + [(i, v), (x, v)]
    case AssignBoth(i, x) => SetVar(SetVar(vars, i, v), x, v)
  }

  /** The n-th variable from the top gets a new value. */
  function SetTop(vars: Vars, n: nat, v: Value): Vars {
    if 1 <= n <= |vars| then vars[|vars| - n := (vars[|vars| - n].0, v)] else vars
  }

  /** What an iteration does to the loop variables: one alone is the element. */
  function Rebind(d: Decl, item: (Value, Value), vars: Vars): Vars {
    match d
    case NoVar => vars
    case Declare(_) => SetTop(vars, 1, item.1)
    case Assign(x) => SetVar(vars, x, item.1)
    case DeclareBoth(_, _) => SetTop(SetTop(vars, 1, item.1), 2, item.0)
    case AssignBoth(i, x) => SetVar(SetVar(vars, i, item.0), x, item.1)
  }

  function Pop(vars: Vars, mark: nat): Vars { if mark <= |vars| then vars[..mark] else vars }

  /** One command: a value is handed on, or the render fails. */
  function RunCmd(m: Machine, dot: Value, c: Cmd, last: Option<Value>, st: State): (State, Option<Value>)
    requires st.steps <= MAX_STEPS
  {
    match c
    case Call(id) => (st.(calls := st.calls + 1), m.fn(id, st.calls, st.vars, dot, last))
    case GuardRange =>
      var v := if last.Some? then last.value else Nil;
      if Charge(v) == None || Take(Charge(v).value, st.steps) == None then (st, None)
      else (st.(steps := Take(Charge(v).value, st.steps).value), Some(v))
    case GuardTick => (st, if Take(0, st.steps) == None then None else Some(Str("")))
    case GuardCall =>
      if Take(1, st.steps) == None then (st, None)
      else (st.(steps := st.steps + 1), Some(if last.Some? then last.value else Nil))
  }

  function RunCmds(m: Machine, dot: Value, cs: seq<Cmd>, last: Option<Value>, st: State): (r: (State, Option<Value>))
    requires st.steps <= MAX_STEPS
    ensures r.0.steps <= MAX_STEPS && st.steps <= r.0.steps
    ensures r.0 == st.(calls := r.0.calls, steps := r.0.steps)
    decreases |cs|
  {
    if cs == [] then (st, Some(if last.Some? then last.value else Nil))
    else
      var (st1, v) := RunCmd(m, dot, cs[0], last, st);
      if v == None then (st1, None) else RunCmds(m, dot, cs[1..], v, st1)
  }

  function Eval(m: Machine, dot: Value, p: Pipe, st: State): (r: (State, Option<Value>))
    requires st.steps <= MAX_STEPS
    ensures r.0.steps <= MAX_STEPS && st.steps <= r.0.steps
    ensures r.0 == st.(vars := r.0.vars, calls := r.0.calls, steps := r.0.steps)
  {
    var (st1, v) := RunCmds(m, dot, p.cmds, None, st);
    if v == None then (st1, None) else (st1.(vars := Bind(p.decl, v.value, st1.vars)), v)
  }

  function Print(m: Machine, v: Value): string { if v.Str? then v.s else m.show(v) }

  function Write(m: Machine, text: string, st: State): Result {
    if |st.out| + |text| > m.maxBytes then Result(st, Error)
    else Result(st.(out := st.out + text), Next)
  }

  /** What a range goes over, as indices with elements, or that it cannot; a
      number has no indices, so two variables are refused. */
  function Items(d: Decl, v: Value): Option<seq<(Value, Value)>> {
    match v
    case Ptr(w) => Items(d, w)
    case Nil => Some([])
    case List(items) => Some(Numbered(items))
    case Map(entries) => Some(entries)
    case Chan(items) => Some(Numbered(items))
    case Int(n) =>
      if d.DeclareBoth? || d.AssignBoth? then None
      else Some(seq(if n < 0 then 0 else n, i => (Nil, Int(i))))
    case _ => None
  }

  function Numbered(items: seq<Value>): seq<(Value, Value)> {
    seq(|items|, i requires 0 <= i < |items| => (Int(i), items[i]))
  }

  /** The state in which an iteration executes the body. */
  function Entered(d: Decl, item: (Value, Value), st: State): State {
    st.(work := st.work + 1, vars := Rebind(d, item, st.vars))
  }

  /** What no guarded template may go over: a negative number or a channel,
      behind any pointers. */
  predicate Unbounded(v: Value) {
    match v
    case Ptr(w) => Unbounded(w)
    case Int(n) => n < 0
    case Chan(_) => true
    case _ => false
  }

  /** The record of a range: its items are counted, or it is one to refuse. */
  function Charged(d: Decl, v: Value, st: State): State {
    if Unbounded(v) then st.(refused := true)
    else if Items(d, v).Some? then st.(cost := st.cost + |Items(d, v).value|)
    else st
  }

  /** The guard charges a range exactly its iterations, and refuses only what is
      unbounded. */
  lemma {:induction false} ChargeIsItems(d: Decl, v: Value)
    ensures Charge(v) == None <==> Unbounded(v)
    ensures Items(d, v).Some? && !Unbounded(v) ==> Charge(v) == Some(|Items(d, v).value|)
  {
    if v.Ptr? { ChargeIsItems(d, v.to); }
  }

  // The fuel is the depth of template calls; all else follows the tree.

  function ExecList(m: Machine, defs: Defs, fuel: nat, dot: Value, ns: seq<Node>, st: State): (r: Result)
    requires st.steps <= MAX_STEPS
    ensures r.st.steps <= MAX_STEPS
    ensures st.cost <= r.st.cost && (st.refused ==> r.st.refused)
    ensures |st.out| <= m.maxBytes ==> |r.st.out| <= m.maxBytes
    decreases fuel, ns, 0
  {
    if ns == [] then Result(st, Next)
    else
      var r := ExecNode(m, defs, fuel, dot, ns[0], st);
      if r.outcome != Next then r else ExecList(m, defs, fuel, dot, ns[1..], r.st)
  }

  function ExecNode(m: Machine, defs: Defs, fuel: nat, dot: Value, n: Node, before: State): (r: Result)
    requires before.steps <= MAX_STEPS
    ensures r.st.steps <= MAX_STEPS
    ensures before.cost <= r.st.cost && (before.refused ==> r.st.refused)
    ensures |before.out| <= m.maxBytes ==> |r.st.out| <= m.maxBytes
    decreases fuel, n, 1
  {
    var st := before.(visits := before.visits + 1);
    match n
    case Text(text) => Write(m, text, st)
    case Action(pipe) =>
      var (st1, v) := Eval(m, dot, pipe, st);
      if v == None then Result(st1, Error)
      else if pipe.decl != NoVar then Result(st1, Next)
      else Write(m, Print(m, v.value), st1)
    case If(pipe, yes, no) =>
      var (st1, v) := Eval(m, dot, pipe, st);
      if v == None then Result(st1, Error)
      else Scoped(before, if m.truth(v.value) then ExecList(m, defs, fuel, dot, yes, st1)
                          else ExecList(m, defs, fuel, dot, no, st1))
    case With(pipe, yes, no) =>
      var (st1, v) := Eval(m, dot, pipe, st);
      if v == None then Result(st1, Error)
      else Scoped(before, if m.truth(v.value) then ExecList(m, defs, fuel, v.value, yes, st1)
                          else ExecList(m, defs, fuel, dot, no, st1))
    case Range(_, _, _) => ExecRange(m, defs, fuel, dot, n, before, st)
    case Template(_, _) => ExecTemplate(m, defs, fuel, dot, n, st)
    case Break => Result(st, Broken)
    case Continue => Result(st, Continued)
  }

  function ExecRange(m: Machine, defs: Defs, fuel: nat, dot: Value, n: Node, before: State, st: State): (r: Result)
    requires st.steps <= MAX_STEPS && n.Range?
    ensures r.st.steps <= MAX_STEPS
    ensures st.cost <= r.st.cost && (st.refused ==> r.st.refused)
    ensures |st.out| <= m.maxBytes ==> |r.st.out| <= m.maxBytes
    decreases fuel, n, 0
  {
    var (st1, v) := Eval(m, dot, n.pipe, st);
    if v == None then Result(st1, Error)
    else
      var st2 := Charged(n.pipe.decl, v.value, st1);
      if Items(n.pipe.decl, v.value) == None then Result(st2, Error)
      else if Items(n.pipe.decl, v.value).value == [] then Scoped(before, ExecList(m, defs, fuel, dot, n.no, st2))
      else Scoped(before, Loop(m, defs, fuel, n.pipe.decl, Items(n.pipe.decl, v.value).value, n.body, st2))
  }

  /** The argument of a template call; without one the callee's dot is nil. */
  function Argument(m: Machine, dot: Value, arg: Option<Pipe>, st: State): (r: (State, Option<Value>))
    requires st.steps <= MAX_STEPS
    ensures r.0.steps <= MAX_STEPS && st.steps <= r.0.steps
    ensures r.0 == st.(vars := r.0.vars, calls := r.0.calls, steps := r.0.steps)
  {
    if arg == None then (st, Some(Nil)) else Eval(m, dot, arg.value, st)
  }

  function ExecTemplate(m: Machine, defs: Defs, fuel: nat, dot: Value, n: Node, st: State): (r: Result)
    requires st.steps <= MAX_STEPS && n.Template?
    ensures r.st.steps <= MAX_STEPS
    ensures st.cost <= r.st.cost && (st.refused ==> r.st.refused)
    ensures |st.out| <= m.maxBytes ==> |r.st.out| <= m.maxBytes
    decreases fuel, n, 0
  {
    var (st1, v) := Argument(m, dot, n.arg, st);
    if v == None then Result(st1, Error)
    else if n.name !in defs then Result(st1.(cost := st1.cost + 1), Error)
    else if fuel == 0 then Result(st1, Starved)
    else Called(st1, ExecList(m, defs, fuel - 1, v.value, defs[n.name], Callee(st1, v.value)))
  }

  function Callee(st: State, v: Value): State {
    st.(cost := st.cost + 1, work := st.work + 1, vars := [("$", v)])
  }

  /** Variables declared inside a block end with it. */
  function Scoped(before: State, r: Result): (r': Result)
    ensures r' == Result(r.st.(vars := r'.st.vars), r.outcome)
  {
    Result(r.st.(vars := Pop(r.st.vars, |before.vars|)), r.outcome)
  }

  /** The caller keeps its variables; a break cannot leave a template. */
  function Called(caller: State, r: Result): (r': Result)
    ensures r'.st == r.st.(vars := caller.vars)
  {
    Result(r.st.(vars := caller.vars),
           if r.outcome == Broken || r.outcome == Continued then Error else r.outcome)
  }

  function Loop(m: Machine, defs: Defs, fuel: nat, d: Decl, items: seq<(Value, Value)>, body: seq<Node>, st: State)
    : (r: Result)
    requires st.steps <= MAX_STEPS
    ensures r.st.steps <= MAX_STEPS
    ensures st.cost <= r.st.cost && (st.refused ==> r.st.refused)
    ensures |st.out| <= m.maxBytes ==> |r.st.out| <= m.maxBytes
    decreases fuel, body, 1 + |items|
  {
    if items == [] then Result(st, Next)
    else
      var r := Scoped(st, ExecList(m, defs, fuel, items[0].1, body, Entered(d, items[0], st)));
      if r.outcome == Broken then Result(r.st, Next)
      else if r.outcome == Error || r.outcome == Starved then r
      else Loop(m, defs, fuel, d, items[1..], body, r.st)
  }

  // -------------------------------------------------------- range variables

  function Lookup(vars: Vars, name: string): Option<Value> {
    if vars == [] then None
    else if vars[|vars| - 1].0 == name then Some(vars[|vars| - 1].1)
    else Lookup(vars[..|vars| - 1], name)
  }

  /** The value of a range's own variable during an iteration. */
  function Own(d: Decl, x: string, item: (Value, Value)): Value {
    if d.DeclareBoth? && x != d.element then item.0 else item.1
  }

  function Listed(m: Machine, d: Decl, x: string, items: seq<(Value, Value)>): string {
    if items == [] then "" else Print(m, Own(d, x, items[0])) + Listed(m, d, x, items[1..])
  }

  predicate Declares(d: Decl, x: string) {
    (d.Declare? && d.name == x) || (d.DeclareBoth? && (d.index == x || d.element == x))
  }

  /** The variables of the range are the last ones declared. */
  predicate OnTop(d: Decl, vars: Vars) {
    match d
    case Declare(x) => |vars| >= 1 && vars[|vars| - 1].0 == x
    case DeclareBoth(i, x) => |vars| >= 2 && vars[|vars| - 1].0 == x && vars[|vars| - 2].0 == i
    case _ => false
  }

  lemma RebindSets(d: Decl, x: string, item: (Value, Value), vars: Vars)
    requires OnTop(d, vars) && Declares(d, x)
    ensures var vars' := Rebind(d, item, vars);
            |vars'| == |vars| && OnTop(d, vars') && Lookup(vars', x) == Some(Own(d, x, item))
  {
    var vars' := Rebind(d, item, vars);
    var front := vars'[..|vars'| - 1];
    assert d.DeclareBoth? ==> front[|front| - 1] == (d.index, item.0);
  }

  /** The command with this number reads this variable. */
  ghost predicate Reads(m: Machine, id: nat, x: string) {
    forall calls, vars, dot, last :: m.fn(id, calls, vars, dot, last) == Lookup(vars, x)
  }

  lemma EvalOne(m: Machine, dot: Value, id: nat, st: State)
    requires st.steps <= MAX_STEPS
    ensures Eval(m, dot, Pipe(NoVar, [Call(id)]), st) ==
            (st.(calls := st.calls + 1), m.fn(id, st.calls, st.vars, dot, None))
  {
    var st1, v := st.(calls := st.calls + 1), m.fn(id, st.calls, st.vars, dot, None);
    assert [Call(id)][1..] == [] && RunCmd(m, dot, Call(id), None, st) == (st1, v);
    if v.Some? { assert RunCmds(m, dot, [], v, st1) == (st1, v); }
    assert RunCmds(m, dot, [Call(id)], None, st) == (st1, v);
  }

  /** An iteration whose body writes one variable. */
  lemma OneVariable(m: Machine, defs: Defs, fuel: nat, dot: Value, x: string, id: nat, st: State)
    requires st.steps <= MAX_STEPS && Reads(m, id, x) && Lookup(st.vars, x).Some?
    ensures ExecList(m, defs, fuel, dot, [Action(Pipe(NoVar, [Call(id)]))], st) ==
            Write(m, Print(m, Lookup(st.vars, x).value), st.(visits := st.visits + 1, calls := st.calls + 1))
  {
    hide Eval, Print, Lookup;
    var n := Action(Pipe(NoVar, [Call(id)]));
    EvalOne(m, dot, id, st.(visits := st.visits + 1));
    var r := ExecNode(m, defs, fuel, dot, n, st);
    assert r == Write(m, Print(m, Lookup(st.vars, x).value), st.(visits := st.visits + 1, calls := st.calls + 1));
    assert [n][1..] == [] && ExecList(m, defs, fuel, dot, [], r.st) == Result(r.st, Next);
  }

  lemma {:induction false} LoopBindsEach(m: Machine, defs: Defs, fuel: nat, d: Decl, x: string, id: nat,
                                         items: seq<(Value, Value)>, st: State)
    requires st.steps <= MAX_STEPS && OnTop(d, st.vars) && Declares(d, x) && Reads(m, id, x)
    requires |st.out| + |Listed(m, d, x, items)| <= m.maxBytes
    ensures var r := Loop(m, defs, fuel, d, items, [Action(Pipe(NoVar, [Call(id)]))], st);
            && r.outcome == Next && r.st.out == st.out + Listed(m, d, x, items)
            && r.st.cost == st.cost && r.st.refused == st.refused
    decreases |items|
  {
    hide ExecList, Rebind, Lookup, OnTop, Own, Print, Reads;
    if items != [] {
      RebindSets(d, x, items[0], st.vars);
      OneVariable(m, defs, fuel, items[0].1, x, id, Entered(d, items[0], st));
      var st1 := Entered(d, items[0], st);
      var r := Write(m, Print(m, Own(d, x, items[0])), st1.(visits := st.visits + 1, calls := st.calls + 1));
      assert Scoped(st, r) == r;
      LoopBindsEach(m, defs, fuel, d, x, id, items[1..], r.st);
    }
  }

  /** A range binds its variables anew in every iteration: a body that writes
      one of them writes what it stands for in each, in order. */
  lemma RangeBindsEach(m: Machine, defs: Defs, fuel: nat, d: Decl, x: string, id: nat,
                       dot: Value, cmds: seq<Cmd>, st: State)
    requires st.steps <= MAX_STEPS && Declares(d, x) && Reads(m, id, x)
    ensures var (_, v) := Eval(m, dot, Pipe(d, cmds), st.(visits := st.visits + 1));
            var n := Range(Pipe(d, cmds), [Action(Pipe(NoVar, [Call(id)]))], []);
            var r := ExecNode(m, defs, fuel, dot, n, st);
            v.Some? && Items(d, v.value).Some? &&
            |st.out| + |Listed(m, d, x, Items(d, v.value).value)| <= m.maxBytes ==>
              && r.outcome == Next && r.st.out == st.out + Listed(m, d, x, Items(d, v.value).value)
              && r.st.cost == st.cost + (if Unbounded(v.value) then 0 else |Items(d, v.value).value|)
              && r.st.refused == (st.refused || Unbounded(v.value))
  {
    hide ExecList, ExecNode, Eval, Listed, Items, RunCmds, Loop, Reads, Unbounded, OnTop, Scoped;
    var p := Pipe(d, cmds);
    var (st1, v) := Eval(m, dot, p, st.(visits := st.visits + 1));
    if v.Some? && Items(d, v.value).Some? {
      var items := Items(d, v.value).value;
      var st2 := Charged(d, v.value, st1);
      BoundOnTop(m, dot, d, x, cmds, st.(visits := st.visits + 1));
      ListedNone(m, d, x);
      PlainRange(m, defs, fuel, dot, Range(p, [Action(Pipe(NoVar, [Call(id)]))], []), st);
      if |st.out| + |Listed(m, d, x, items)| <= m.maxBytes && items != [] {
        LoopBindsEach(m, defs, fuel, d, x, id, items, st2);
      }
    }
  }

  /** The variables of a pipeline are the last ones once it is evaluated. */
  lemma BoundOnTop(m: Machine, dot: Value, d: Decl, x: string, cmds: seq<Cmd>, st: State)
    requires st.steps <= MAX_STEPS && Declares(d, x)
    ensures var (st1, v) := Eval(m, dot, Pipe(d, cmds), st);
            && st1.out == st.out && st1.cost == st.cost && st1.refused == st.refused
            && (v.Some? ==> OnTop(d, st1.vars))
  {
    hide RunCmds;
  }

  lemma PlainRange(m: Machine, defs: Defs, fuel: nat, dot: Value, n: Node, st: State)
    requires st.steps <= MAX_STEPS && n.Range? && n.no == []
    ensures var (st1, v) := Eval(m, dot, n.pipe, st.(visits := st.visits + 1));
            v.Some? && Items(n.pipe.decl, v.value).Some? ==>
              var items, st2 := Items(n.pipe.decl, v.value).value, Charged(n.pipe.decl, v.value, st1);
              ExecNode(m, defs, fuel, dot, n, st) ==
              Scoped(st, if items == [] then Result(st2, Next)
                         else Loop(m, defs, fuel, n.pipe.decl, items, n.body, st2))
  {
    hide ExecList, Eval, Items, Loop, Unbounded, Scoped;
    var (st1, v) := Eval(m, dot, n.pipe, st.(visits := st.visits + 1));
    if v.Some? { NothingToDo(m, defs, fuel, dot, Charged(n.pipe.decl, v.value, st1)); }
  }

  lemma NothingToDo(m: Machine, defs: Defs, fuel: nat, dot: Value, st: State)
    requires st.steps <= MAX_STEPS
    ensures ExecList(m, defs, fuel, dot, [], st) == Result(st, Next)
  {
  }

  lemma ListedNone(m: Machine, d: Decl, x: string)
    ensures Listed(m, d, x, []) == ""
  {
  }

  // ------------------------------------------------------------ the rewrite

  const TICK := Action(Pipe(NoVar, [GuardTick]))

  function WithGuard(p: Pipe, c: Cmd): (g: Pipe)
    ensures g.decl == p.decl
  {
    p.(cmds := p.cmds + [c])
  }

  function GuardNode(n: Node): Node
    decreases n
  {
    match n
    case If(pipe, yes, no) => If(pipe, GuardList(yes), GuardList(no))
    case With(pipe, yes, no) => With(pipe, GuardList(yes), GuardList(no))
    case Range(pipe, body, no) => Range(WithGuard(pipe, GuardRange), [TICK] + GuardList(body), GuardList(no))
    case Template(name, arg) =>
      Template(name, Some(WithGuard(if arg == None then Pipe(NoVar, []) else arg.value, GuardCall)))
    case _ => n
  }

  function GuardList(ns: seq<Node>): (gs: seq<Node>)
    ensures |gs| == |ns|
    decreases ns
  {
    if ns == [] then [] else [GuardNode(ns[0])] + GuardList(ns[1..])
  }

  function GuardDefs(defs: Defs): Defs { map x | x in defs :: GuardList(defs[x]) }

  // ------------------------------------------------------- meaning preserved

  /** The two renders agree on everything but the guard's own bookkeeping. */
  ghost predicate Agree(s: State, g: State) {
    && s.vars == g.vars && s.out == g.out && s.calls == g.calls
    && s.cost == g.cost && s.refused == g.refused && s.work == g.work
  }

  predicate Good(r: Result) { r.outcome != Error && r.outcome != Starved }

  /** What a guarded render h has to do with the original one o, from states
      that agree: it goes well exactly when the original goes well, nothing is
      refused and the steps left cover the cost, and then the same happens. */
  ghost predicate Tracks(s: State, g: State, o: Result, h: Result) {
    && (Good(h) <==> Good(o) && !o.st.refused && g.steps + (o.st.cost - s.cost) <= MAX_STEPS)
    && (Good(h) ==> h.outcome == o.outcome && Agree(o.st, h.st) && h.st.steps == g.steps + (o.st.cost - s.cost))
  }

  /** Original templates do not know the guard. */
  predicate Plain(p: Pipe) { forall i | 0 <= i < |p.cmds| :: p.cmds[i].Call? }

  predicate PlainNode(n: Node)
    decreases n, 0
  {
    match n
    case Action(pipe) => Plain(pipe)
    case If(pipe, yes, no) => Plain(pipe) && PlainList(yes) && PlainList(no)
    case With(pipe, yes, no) => Plain(pipe) && PlainList(yes) && PlainList(no)
    case Range(pipe, body, no) => Plain(pipe) && PlainList(body) && PlainList(no)
    case Template(_, arg) => arg == None || Plain(arg.value)
    case _ => true
  }

  predicate PlainList(ns: seq<Node>)
    decreases ns, 0
  {
    ns == [] || (PlainNode(ns[0]) && PlainList(ns[1..]))
  }

  predicate PlainDefs(defs: Defs) { forall x | x in defs :: PlainList(defs[x]) }

  lemma {:induction false} PlainCmds(m: Machine, dot: Value, cs: seq<Cmd>, last: Option<Value>, s: State, g: State)
    requires s.steps <= MAX_STEPS && g.steps <= MAX_STEPS && Agree(s, g)
    requires forall i | 0 <= i < |cs| :: cs[i].Call?
    ensures var (s1, v), (g1, w) := RunCmds(m, dot, cs, last, s), RunCmds(m, dot, cs, last, g);
            v == w && Agree(s1, g1) && s1.steps == s.steps && g1.steps == g.steps
    decreases |cs|
  {
    if cs != [] {
      var (s1, v) := RunCmd(m, dot, cs[0], last, s);
      var (g1, w) := RunCmd(m, dot, cs[0], last, g);
      if v != None { PlainCmds(m, dot, cs[1..], v, s1, g1); }
    }
  }

  lemma PlainEval(m: Machine, dot: Value, p: Pipe, s: State, g: State)
    requires s.steps <= MAX_STEPS && g.steps <= MAX_STEPS && Agree(s, g) && Plain(p)
    ensures var (s1, v), (g1, w) := Eval(m, dot, p, s), Eval(m, dot, p, g);
            v == w && Agree(s1, g1) && s1.steps == s.steps && g1.steps == g.steps
  {
    PlainCmds(m, dot, p.cmds, None, s, g);
  }

  lemma {:induction false} CmdsThen(m: Machine, dot: Value, cs: seq<Cmd>, c: Cmd, last: Option<Value>, st: State)
    requires st.steps <= MAX_STEPS
    ensures var (st1, v) := RunCmds(m, dot, cs, last, st);
            RunCmds(m, dot, cs + [c], last, st) ==
            if v == None then (st1, None)
            else RunCmd(m, dot, c, if cs == [] then last else v, st1)
    decreases |cs|
  {
    if cs == [] {
      assert cs + [c] == [c];
      assert [c][1..] == [];
    } else {
      var (st1, v) := RunCmd(m, dot, cs[0], last, st);
      assert (cs + [c])[0] == cs[0] && (cs + [c])[1..] == cs[1..] + [c];
      if v != None { CmdsThen(m, dot, cs[1..], c, v, st1); }
    }
  }

  /** A guarded pipeline: the original one, then the guard's charge. */
  lemma GuardedEval(m: Machine, dot: Value, p: Pipe, c: Cmd, s: State, g: State)
    requires s.steps <= MAX_STEPS && g.steps <= MAX_STEPS && Agree(s, g) && Plain(p)
    requires c == GuardRange || c == GuardCall
    ensures var (s1, v), (g1, w) := Eval(m, dot, p, s), Eval(m, dot, WithGuard(p, c), g);
            var due := if v == None then None else if c == GuardCall then Some(1) else Charge(v.value);
            && (w.Some? <==> due.Some? && g.steps + due.value <= MAX_STEPS)
            && (w.Some? ==> w == v && Agree(s1, g1) && g1.steps == g.steps + due.value)
  {
    PlainCmds(m, dot, p.cmds, None, s, g);
    CmdsThen(m, dot, p.cmds, c, None, g);
  }

  /** The tick in front of a range body writes nothing and always passes. */
  lemma TickPasses(m: Machine, defs: Defs, fuel: nat, dot: Value, ns: seq<Node>, st: State)
    requires st.steps <= MAX_STEPS && |st.out| <= m.maxBytes
    ensures ExecList(m, defs, fuel, dot, [TICK] + ns, st) ==
            ExecList(m, defs, fuel, dot, ns, st.(visits := st.visits + 1))
  {
    var st1 := st.(visits := st.visits + 1);
    assert TICK.pipe.cmds[1..] == [];
    assert Eval(m, dot, TICK.pipe, st1) == (st1, Some(Str("")));
    assert st.out + "" == st.out;
    assert ExecNode(m, defs, fuel, dot, TICK, st) == Result(st1, Next);
    assert ([TICK] + ns)[1..] == ns;
  }

  ghost predicate Ready(m: Machine, defs: Defs, s: State, g: State) {
    && s.steps <= MAX_STEPS && g.steps <= MAX_STEPS && Agree(s, g) && !s.refused
    && |s.out| <= m.maxBytes && PlainDefs(defs)
  }

  /** Tracking from later states is tracking from earlier ones. */
  lemma TracksBack(s: State, g: State, s1: State, g1: State, o: Result, h: Result)
    requires Tracks(s1, g1, o, h) && g1.steps == g.steps + (s1.cost - s.cost)
    ensures Tracks(s, g, o, h)
  {
  }

  lemma TracksScoped(s: State, g: State, sb: State, gb: State, o: Result, h: Result)
    requires Tracks(s, g, o, h) && |sb.vars| == |gb.vars|
    ensures Tracks(s, g, Scoped(sb, o), Scoped(gb, h))
  {
  }

  lemma TracksCalled(s: State, g: State, s1: State, g1: State, v: Value, o: Result, h: Result)
    requires Tracks(Callee(s1, v), Callee(g1, v), o, h) && s1.vars == g1.vars
    requires g1.steps == g.steps + 1 && s1.cost == s.cost
    ensures Tracks(s, g, Called(s1, o), Called(g1, h))
  {
  }

  /** When both renders end badly, or the guard stops what is over budget. */
  lemma TracksBad(s: State, g: State, o: Result, h: Result)
    requires !Good(h)
    requires !Good(o) || o.st.refused || g.steps + (o.st.cost - s.cost) > MAX_STEPS
    ensures Tracks(s, g, o, h)
  {
  }

  lemma {:induction false} TrackList(m: Machine, defs: Defs, fuel: nat, dot: Value, ns: seq<Node>, s: State, g: State)
    requires Ready(m, defs, s, g) && PlainList(ns)
    ensures Tracks(s, g, ExecList(m, defs, fuel, dot, ns, s), ExecList(m, GuardDefs(defs), fuel, dot, GuardList(ns), g))
    decreases fuel, ns, 1
  {
    if ns != [] {
      TrackNode(m, defs, fuel, dot, ns[0], s, g);
      var o := ExecNode(m, defs, fuel, dot, ns[0], s);
      var h := ExecNode(m, GuardDefs(defs), fuel, dot, GuardNode(ns[0]), g);
      assert GuardList(ns)[0] == GuardNode(ns[0]) && GuardList(ns)[1..] == GuardList(ns[1..]);
      if Good(h) && o.outcome == Next {
        TrackList(m, defs, fuel, dot, ns[1..], o.st, h.st);
      }
    }
  }

  lemma {:induction false} TrackNode(m: Machine, defs: Defs, fuel: nat, dot: Value, n: Node, s: State, g: State)
    requires Ready(m, defs, s, g) && PlainNode(n)
    ensures Tracks(s, g, ExecNode(m, defs, fuel, dot, n, s), ExecNode(m, GuardDefs(defs), fuel, dot, GuardNode(n), g))
    decreases fuel, n, 2
  {
    hide ExecList, ExecRange, ExecTemplate, Loop, Eval, GuardList, PlainList;
    match n {
      case Text(_) =>
      case Action(pipe) => PlainEval(m, dot, pipe, s.(visits := s.visits + 1), g.(visits := g.visits + 1));
      case If(_, _, _) => TrackIf(m, defs, fuel, dot, n, s, g);
      case With(_, _, _) => TrackIf(m, defs, fuel, dot, n, s, g);
      case Range(_, _, _) => TrackRange(m, defs, fuel, dot, n, GuardNode(n), s, g);
      case Template(_, _) => TrackTemplate(m, defs, fuel, dot, n, GuardNode(n), s, g);
      case Break =>
      case Continue =>
    }
  }

  lemma {:induction false} TrackIf(m: Machine, defs: Defs, fuel: nat, dot: Value, n: Node, s: State, g: State)
    requires Ready(m, defs, s, g) && PlainNode(n) && (n.If? || n.With?)
    ensures Tracks(s, g, ExecNode(m, defs, fuel, dot, n, s), ExecNode(m, GuardDefs(defs), fuel, dot, GuardNode(n), g))
    decreases fuel, n, 1
  {
    hide ExecList, ExecRange, ExecTemplate, Loop, Eval, GuardList, PlainList;
    var s0, g0 := s.(visits := s.visits + 1), g.(visits := g.visits + 1);
    PlainEval(m, dot, n.pipe, s0, g0);
    var (s1, v) := Eval(m, dot, n.pipe, s0);
    var (g1, w) := Eval(m, dot, n.pipe, g0);
    if v != None {
      var dot1 := if n.With? && m.truth(v.value) then v.value else dot;
      var branch := if m.truth(v.value) then n.yes else n.no;
      TrackList(m, defs, fuel, dot1, branch, s1, g1);
      TracksScoped(s1, g1, s, g, ExecList(m, defs, fuel, dot1, branch, s1),
                   ExecList(m, GuardDefs(defs), fuel, dot1, GuardList(branch), g1));
    }
  }

  lemma {:induction false} TrackRange(m: Machine, defs: Defs, fuel: nat, dot: Value, n: Node,
                                      gn: Node, s: State, g: State)
    requires Ready(m, defs, s, g) && n.Range? && Plain(n.pipe) && PlainList(n.body) && PlainList(n.no)
    requires gn == Range(WithGuard(n.pipe, GuardRange), [TICK] + GuardList(n.body), GuardList(n.no))
    ensures Tracks(s, g, ExecRange(m, defs, fuel, dot, n, s, s.(visits := s.visits + 1)),
                   ExecRange(m, GuardDefs(defs), fuel, dot, gn, g, g.(visits := g.visits + 1)))
    decreases fuel, n, 1
  {
    hide ExecList, ExecNode, Loop, RunCmds, Eval, GuardList, PlainList, Charge, Unbounded, Items, WithGuard, Plain;
    hide Tracks, Scoped;
    var s0, g0 := s.(visits := s.visits + 1), g.(visits := g.visits + 1);
    var o := ExecRange(m, defs, fuel, dot, n, s, s0);
    var h := ExecRange(m, GuardDefs(defs), fuel, dot, gn, g, g0);
    GuardedEval(m, dot, n.pipe, GuardRange, s0, g0);
    var (s1, v) := Eval(m, dot, n.pipe, s0);
    var (g1, w) := Eval(m, dot, WithGuard(n.pipe, GuardRange), g0);
    if v != None { ChargeIsItems(n.pipe.decl, v.value); }
    if w == None || Items(n.pipe.decl, v.value) == None {
      TracksBad(s, g, o, h);
    } else {
      var s2, g2 := Charged(n.pipe.decl, v.value, s1), Charged(n.pipe.decl, v.value, g1);
      var items := Items(n.pipe.decl, v.value).value;
      var o1, h1;
      if items == [] {
        TrackList(m, defs, fuel, dot, n.no, s2, g2);
        o1 := ExecList(m, defs, fuel, dot, n.no, s2);
        h1 := ExecList(m, GuardDefs(defs), fuel, dot, GuardList(n.no), g2);
      } else {
        TrackLoop(m, defs, fuel, n.pipe.decl, items, n.body, s2, g2);
        o1 := Loop(m, defs, fuel, n.pipe.decl, items, n.body, s2);
        h1 := Loop(m, GuardDefs(defs), fuel, n.pipe.decl, items, [TICK] + GuardList(n.body), g2);
      }
      TracksScoped(s2, g2, s, g, o1, h1);
      TracksBack(s, g, s2, g2, o, h);
    }
  }

  lemma {:induction false} TrackLoop(m: Machine, defs: Defs, fuel: nat, d: Decl, items: seq<(Value, Value)>,
                                     body: seq<Node>, s: State, g: State)
    requires Ready(m, defs, s, g) && PlainList(body)
    ensures Tracks(s, g, Loop(m, defs, fuel, d, items, body, s),
                   Loop(m, GuardDefs(defs), fuel, d, items, [TICK] + GuardList(body), g))
    decreases fuel, body, 2 + |items|
  {
    hide ExecList, ExecNode, Eval, GuardList, PlainList, Rebind;
    if items != [] {
      var dot := items[0].1;
      var s0, g0 := Entered(d, items[0], s), Entered(d, items[0], g);
      TickPasses(m, GuardDefs(defs), fuel, dot, GuardList(body), g0);
      var g1 := g0.(visits := g0.visits + 1);
      TrackList(m, defs, fuel, dot, body, s0, g1);
      var o := ExecList(m, defs, fuel, dot, body, s0);
      var h := ExecList(m, GuardDefs(defs), fuel, dot, GuardList(body), g1);
      TracksScoped(s0, g1, s, g, o, h);
      if Good(h) && o.outcome != Broken {
        TrackLoop(m, defs, fuel, d, items[1..], body, Scoped(s, o).st, Scoped(g, h).st);
      }
    }
  }

  lemma NoArgument(m: Machine, dot: Value, st: State)
    requires st.steps <= MAX_STEPS
    ensures Eval(m, dot, Pipe(NoVar, []), st) == Argument(m, dot, None, st)
  {
  }

  lemma {:induction false} TrackTemplate(m: Machine, defs: Defs, fuel: nat, dot: Value, n: Node,
                                         gn: Node, s: State, g: State)
    requires Ready(m, defs, s, g) && n.Template? && (n.arg == None || Plain(n.arg.value))
    requires gn == Template(n.name, Some(WithGuard(if n.arg == None then Pipe(NoVar, []) else n.arg.value, GuardCall)))
    ensures Tracks(s, g, ExecTemplate(m, defs, fuel, dot, n, s.(visits := s.visits + 1)),
                   ExecTemplate(m, GuardDefs(defs), fuel, dot, gn, g.(visits := g.visits + 1)))
    decreases fuel, n, 1
  {
    hide ExecList, ExecNode, Loop, RunCmds, Eval, GuardList, PlainList, WithGuard, Tracks, Called, Plain;
    var s0, g0 := s.(visits := s.visits + 1), g.(visits := g.visits + 1);
    var o, h := ExecTemplate(m, defs, fuel, dot, n, s0), ExecTemplate(m, GuardDefs(defs), fuel, dot, gn, g0);
    var p := if n.arg == None then Pipe(NoVar, []) else n.arg.value;
    PlainEmpty();
    GuardedEval(m, dot, p, GuardCall, s0, g0);
    NoArgument(m, dot, s0);
    var (s1, v) := Argument(m, dot, n.arg, s0);
    var (g1, w) := Eval(m, dot, WithGuard(p, GuardCall), g0);
    if w != None && n.name in defs && fuel > 0 {
      var s2, g2 := Callee(s1, v.value), Callee(g1, v.value);
      assert GuardDefs(defs)[n.name] == GuardList(defs[n.name]);
      TrackList(m, defs, fuel - 1, v.value, defs[n.name], s2, g2);
      TracksCalled(s, g, s1, g1, v.value, ExecList(m, defs, fuel - 1, v.value, defs[n.name], s2),
                   ExecList(m, GuardDefs(defs), fuel - 1, v.value, GuardList(defs[n.name]), g2));
    } else {
      TracksBad(s, g, o, h);
    }
  }

  lemma PlainEmpty()
    ensures Plain(Pipe(NoVar, []))
  {
  }

  // ------------------------------------------------------------ bounded work

  ghost predicate EndsWith(p: Pipe, c: Cmd) { p.cmds != [] && p.cmds[|p.cmds| - 1] == c }

  /** Every range and every template call asks the guard, and so does every
      iteration before anything else. */
  ghost predicate GuardedNode(n: Node)
    decreases n, 0
  {
    match n
    case If(_, yes, no) => GuardedList(yes) && GuardedList(no)
    case With(_, yes, no) => GuardedList(yes) && GuardedList(no)
    case Range(pipe, body, no) =>
      EndsWith(pipe, GuardRange) && body != [] && body[0] == TICK && GuardedList(body) && GuardedList(no)
    case Template(_, arg) => arg.Some? && EndsWith(arg.value, GuardCall)
    case _ => true
  }

  ghost predicate GuardedList(ns: seq<Node>)
    decreases ns, 0
  {
    ns == [] || (GuardedNode(ns[0]) && GuardedList(ns[1..]))
  }

  lemma {:induction false} RewriteGuardsList(ns: seq<Node>)
    ensures GuardedList(GuardList(ns))
    decreases ns, 0
  {
    if ns != [] {
      RewriteGuards(ns[0]);
      RewriteGuardsList(ns[1..]);
      assert GuardList(ns)[1..] == GuardList(ns[1..]);
    }
  }

  lemma {:induction false} RewriteGuards(n: Node)
    ensures GuardedNode(GuardNode(n))
    decreases n, 0
  {
    match n {
      case If(_, yes, no) => RewriteGuardsList(yes); RewriteGuardsList(no);
      case With(_, yes, no) => RewriteGuardsList(yes); RewriteGuardsList(no);
      case Range(_, body, no) =>
        RewriteGuardsList(body);
        RewriteGuardsList(no);
        assert ([TICK] + GuardList(body))[1..] == GuardList(body);
      case _ =>
    }
  }

  function Size(n: Node): nat
    decreases n, 0
  {
    match n
    case If(_, yes, no) => 1 + SizeList(yes) + SizeList(no)
    case With(_, yes, no) => 1 + SizeList(yes) + SizeList(no)
    case Range(_, body, no) => 1 + SizeList(body) + SizeList(no)
    case _ => 1
  }

  function SizeList(ns: seq<Node>): nat
    decreases ns, 0
  {
    if ns == [] then 0 else Size(ns[0]) + SizeList(ns[1..])
  }

  function Times(a: nat, b: nat): nat { a * b }

  lemma TimesAdd(a: nat, b: nat, n: nat)
    ensures Times(a, n) + Times(b, n) == Times(a + b, n) && (a > 0 ==> Times(a, n) >= n)
  {
    assert a > 0 ==> (a - 1) * n >= 0;
  }

  /** From g to h: no fuel ran out, and each step taken or credited pays for
      one iteration or call and for the nodes of one body. */
  ghost predicate Within(g: State, h: Result, size: nat, credit: nat, limit: nat) {
    && g.steps <= h.st.steps && h.outcome != Starved
    && h.st.work <= g.work + credit + (h.st.steps - g.steps)
    && h.st.visits <= g.visits + size + Times(credit + (h.st.steps - g.steps), limit)
  }

  lemma WithinChain(g: State, r: Result, h: Result, s1: nat, s2: nat, c1: nat, c2: nat, limit: nat)
    requires Within(g, r, s1, c1, limit) && Within(r.st, h, s2, c2, limit)
    ensures Within(g, h, s1 + s2, c1 + c2, limit)
  {
    TimesAdd(c1 + (r.st.steps - g.steps), c2 + (h.st.steps - r.st.steps), limit);
  }

  lemma WithinOnce(g: State, st: State, h: Result, size: nat, limit: nat)
    requires Within(st, h, size, 0, limit) && st == g.(work := g.work + 1, vars := st.vars) && size <= limit
    ensures Within(g, h, 0, 1, limit)
  {
    TimesAdd(1, h.st.steps - g.steps, limit);
  }

  /** A credit already paid by steps need not be counted apart. */
  lemma WithinPaid(g: State, st: State, h: Result, size: nat, credit: nat, limit: nat)
    requires Within(st, h, size, credit, limit) && g.steps + credit <= st.steps
    requires st.work == g.work && st.visits == g.visits + 1
    ensures Within(g, h, 1 + size, 0, limit)
  {
    TimesAdd(credit + (h.st.steps - st.steps), st.steps - g.steps - credit, limit);
  }

  lemma WithinVisit(g: State, st: State, outcome: Outcome, size: nat, limit: nat)
    requires st.work == g.work && st.visits <= g.visits + size && g.steps <= st.steps && outcome != Starved
    ensures Within(g, Result(st, outcome), size, 0, limit)
  {
  }

  lemma GuardCharges(m: Machine, dot: Value, p: Pipe, c: Cmd, st: State)
    requires st.steps <= MAX_STEPS && EndsWith(p, c) && (c == GuardRange || c == GuardCall)
    ensures var (st1, v) := Eval(m, dot, p, st);
            v.Some? ==> (c == GuardRange ==> Charge(v.value).Some? && st.steps + Charge(v.value).value <= st1.steps)
                        && (c == GuardCall ==> st.steps + 1 <= st1.steps)
  {
    hide RunCmds, Charge;
    var front := p.cmds[..|p.cmds| - 1];
    assert p.cmds == front + [c];
    CmdsThen(m, dot, front, c, None, st);
  }

  ghost predicate Fits(defs: Defs, limit: nat) {
    forall x | x in defs :: GuardedList(defs[x]) && SizeList(defs[x]) <= limit
  }

  lemma {:induction false} BoundList(m: Machine, defs: Defs, fuel: nat, dot: Value, ns: seq<Node>, g: State, limit: nat)
    requires g.steps <= MAX_STEPS && fuel + g.steps > MAX_STEPS
    requires Fits(defs, limit) && GuardedList(ns) && SizeList(ns) <= limit
    ensures Within(g, ExecList(m, defs, fuel, dot, ns, g), SizeList(ns), 0, limit)
    decreases fuel, ns, 1
  {
    hide Within, ExecNode, GuardedNode, Size, Times;
    if ns == [] {
      WithinVisit(g, g, Next, 0, limit);
    } else {
      var r := ExecNode(m, defs, fuel, dot, ns[0], g);
      BoundNode(m, defs, fuel, dot, ns[0], g, limit);
      WithinGrows(g, r, Size(ns[0]), SizeList(ns), limit);
      if r.outcome == Next {
        BoundList(m, defs, fuel, dot, ns[1..], r.st, limit);
        WithinChain(g, r, ExecList(m, defs, fuel, dot, ns[1..], r.st), Size(ns[0]), SizeList(ns[1..]), 0, 0, limit);
      }
    }
  }

  lemma WithinGrows(g: State, r: Result, size: nat, more: nat, limit: nat)
    requires Within(g, r, size, 0, limit)
    ensures g.steps <= r.st.steps && (size <= more ==> Within(g, r, more, 0, limit))
  {
  }

  lemma WithinScoped(g: State, before: State, r: Result, size: nat, credit: nat, limit: nat)
    requires Within(g, r, size, credit, limit)
    ensures Within(g, Scoped(before, r), size, credit, limit)
    ensures Within(g, Called(before, r), size, credit, limit)
  {
  }

  lemma {:induction false} BoundNode(m: Machine, defs: Defs, fuel: nat, dot: Value, n: Node, g: State, limit: nat)
    requires g.steps <= MAX_STEPS && fuel + g.steps > MAX_STEPS
    requires Fits(defs, limit) && GuardedNode(n) && Size(n) <= limit
    ensures Within(g, ExecNode(m, defs, fuel, dot, n, g), Size(n), 0, limit)
    decreases fuel, n, 2
  {
    hide ExecList, Loop, RunCmds, Eval, GuardedList, SizeList, Times, ExecRange, ExecTemplate, EndsWith, Within;
    var st := g.(visits := g.visits + 1);
    match n {
      case Text(text) => WithinVisit(g, Write(m, text, st).st, Write(m, text, st).outcome, 1, limit);
      case Action(pipe) =>
        var r := ExecNode(m, defs, fuel, dot, n, g);
        WithinVisit(g, r.st, r.outcome, 1, limit);
      case If(_, _, _) => BoundIf(m, defs, fuel, dot, n, g, limit);
      case With(_, _, _) => BoundIf(m, defs, fuel, dot, n, g, limit);
      case Range(_, _, _) => BoundRange(m, defs, fuel, dot, n, g, limit);
      case Template(_, _) => BoundTemplate(m, defs, fuel, dot, n, g, limit);
      case Break => WithinVisit(g, st, Broken, 1, limit);
      case Continue => WithinVisit(g, st, Continued, 1, limit);
    }
  }

  lemma {:induction false} BoundIf(m: Machine, defs: Defs, fuel: nat, dot: Value, n: Node, g: State, limit: nat)
    requires g.steps <= MAX_STEPS && fuel + g.steps > MAX_STEPS
    requires Fits(defs, limit) && GuardedNode(n) && Size(n) <= limit && (n.If? || n.With?)
    ensures Within(g, ExecNode(m, defs, fuel, dot, n, g), Size(n), 0, limit)
    decreases fuel, n, 1
  {
    hide ExecList, Loop, RunCmds, Eval, GuardedList, SizeList, Times, Within, Scoped, ExecRange, ExecTemplate;
    var st := g.(visits := g.visits + 1);
    var (st1, v) := Eval(m, dot, n.pipe, st);
    if v == None {
      WithinVisit(g, st1, Error, Size(n), limit);
    } else {
      var dot1 := if n.With? && m.truth(v.value) then v.value else dot;
      var branch := if m.truth(v.value) then n.yes else n.no;
      var r := ExecList(m, defs, fuel, dot1, branch, st1);
      BoundList(m, defs, fuel, dot1, branch, st1, limit);
      WithinPaid(g, st1, r, SizeList(branch), 0, limit);
      WithinScoped(g, g, r, 1 + SizeList(branch), 0, limit);
      WithinGrows(g, Scoped(g, r), 1 + SizeList(branch), Size(n), limit);
    }
  }

  lemma {:induction false} BoundRange(m: Machine, defs: Defs, fuel: nat, dot: Value, n: Node, g: State, limit: nat)
    requires g.steps <= MAX_STEPS && fuel + g.steps > MAX_STEPS
    requires Fits(defs, limit) && GuardedNode(n) && Size(n) <= limit && n.Range?
    ensures Within(g, ExecRange(m, defs, fuel, dot, n, g, g.(visits := g.visits + 1)), Size(n), 0, limit)
    decreases fuel, n, 1
  {
    hide ExecList, ExecNode, Loop, RunCmds, Eval, GuardedList, SizeList, Times, Within, Scoped;
    hide Items, Charge, Unbounded;
    var st := g.(visits := g.visits + 1);
    GuardCharges(m, dot, n.pipe, GuardRange, st);
    var (st1, v) := Eval(m, dot, n.pipe, st);
    if v == None {
      WithinVisit(g, st1, Error, Size(n), limit);
    } else {
      var st2 := Charged(n.pipe.decl, v.value, st1);
      if Items(n.pipe.decl, v.value) == None {
        WithinVisit(g, st2, Error, Size(n), limit);
      } else {
        ChargeIsItems(n.pipe.decl, v.value);
        var items := Items(n.pipe.decl, v.value).value;
        var r, size;
        if items == [] {
          r, size := ExecList(m, defs, fuel, dot, n.no, st2), SizeList(n.no);
          BoundList(m, defs, fuel, dot, n.no, st2, limit);
          WithinPaid(g, st2, r, size, 0, limit);
        } else {
          r, size := Loop(m, defs, fuel, n.pipe.decl, items, n.body, st2), 0;
          BoundLoop(m, defs, fuel, n.pipe.decl, items, n.body, st2, limit);
          WithinPaid(g, st2, r, 0, |items|, limit);
        }
        WithinScoped(g, g, r, 1 + size, 0, limit);
        WithinGrows(g, Scoped(g, r), 1 + size, Size(n), limit);
      }
    }
  }

  lemma {:induction false} BoundLoop(m: Machine, defs: Defs, fuel: nat, d: Decl, items: seq<(Value, Value)>,
                                     body: seq<Node>, g: State, limit: nat)
    requires g.steps <= MAX_STEPS && fuel + g.steps > MAX_STEPS
    requires Fits(defs, limit) && GuardedList(body) && SizeList(body) <= limit
    ensures Within(g, Loop(m, defs, fuel, d, items, body, g), 0, |items|, limit)
    decreases fuel, body, 2 + |items|
  {
    hide ExecList, GuardedList, SizeList, Times, Scoped, Within;
    if items == [] {
      WithinVisit(g, g, Next, 0, limit);
    } else {
      var st := Entered(d, items[0], g);
      var l := ExecList(m, defs, fuel, items[0].1, body, st);
      BoundList(m, defs, fuel, items[0].1, body, st, limit);
      WithinOnce(g, st, l, SizeList(body), limit);
      var r := Scoped(g, l);
      WithinScoped(g, g, l, 0, 1, limit);
      WithinStops(g, r, |items|, limit);
      if r.outcome == Next || r.outcome == Continued {
        BoundLoop(m, defs, fuel, d, items[1..], body, r.st, limit);
        WithinChain(g, r, Loop(m, defs, fuel, d, items[1..], body, r.st), 0, 0, 1, |items| - 1, limit);
      }
    }
  }

  lemma WithinStops(g: State, r: Result, credit: nat, limit: nat)
    requires Within(g, r, 0, 1, limit) && credit >= 1
    ensures g.steps <= r.st.steps && Within(g, r, 0, credit, limit) && Within(g, Result(r.st, Next), 0, credit, limit)
  {
    TimesAdd(1 + (r.st.steps - g.steps), credit - 1, limit);
  }

  lemma {:induction false} BoundTemplate(m: Machine, defs: Defs, fuel: nat, dot: Value, n: Node, g: State, limit: nat)
    requires g.steps <= MAX_STEPS && fuel + g.steps > MAX_STEPS
    requires Fits(defs, limit) && GuardedNode(n) && Size(n) <= limit && n.Template?
    ensures Within(g, ExecTemplate(m, defs, fuel, dot, n, g.(visits := g.visits + 1)), Size(n), 0, limit)
    decreases fuel, n, 1
  {
    hide ExecList, ExecNode, Loop, RunCmds, Eval, GuardedList, SizeList, Times, Within, Called;
    var st := g.(visits := g.visits + 1);
    GuardCharges(m, dot, n.arg.value, GuardCall, st);
    var (st1, v) := Eval(m, dot, n.arg.value, st);
    if v == None {
      WithinVisit(g, st1, Error, 1, limit);
    } else if n.name !in defs {
      WithinVisit(g, st1.(cost := st1.cost + 1), Error, 1, limit);
    } else {
      var body := defs[n.name];
      var r := ExecList(m, defs, fuel - 1, v.value, body, Callee(st1, v.value));
      BoundList(m, defs, fuel - 1, v.value, body, Callee(st1, v.value), limit);
      WithinCallee(st1, v.value, r, SizeList(body), limit);
      WithinPaid(g, st1, r, 0, 1, limit);
      WithinScoped(g, st1, r, 1, 0, limit);
    }
  }

  lemma WithinCallee(st: State, v: Value, r: Result, size: nat, limit: nat)
    requires Within(Callee(st, v), r, size, 0, limit) && size <= limit
    ensures Within(st, r, 0, 1, limit)
  {
    TimesAdd(1, r.st.steps - st.steps, limit);
  }

  // -------------------------------------------------------- whole renders

  function Start(data: Value): State { State([("$", data)], "", 0, 0, 0, false, 0, 0) }

  /** Executing a template as it was written, up to a depth of calls. */
  function Execute(m: Machine, defs: Defs, main: seq<Node>, data: Value, depth: nat): Result {
    ExecList(m, defs, depth, data, main, Start(data))
  }

  /** A render as the service runs it: the guarded trees. The depth is no
      restriction, as GuardedRenderIsBounded shows. */
  function Render(m: Machine, defs: Defs, main: seq<Node>, data: Value): Result {
    Execute(m, GuardDefs(defs), GuardList(main), data, MAX_STEPS + 1)
  }

  /** Every guarded render ends, with at most MAX_STEPS iterations and calls,
      and visits at most MAX_STEPS + 1 times the nodes of the largest tree. */
  lemma GuardedRenderIsBounded(m: Machine, defs: Defs, main: seq<Node>, data: Value, limit: nat)
    requires SizeList(GuardList(main)) <= limit
    requires forall x | x in defs :: SizeList(GuardList(defs[x])) <= limit
    ensures var r := Render(m, defs, main, data);
            r.outcome != Starved && r.st.work <= MAX_STEPS && r.st.visits <= Times(MAX_STEPS + 1, limit)
    ensures forall depth | depth > MAX_STEPS ::
              Execute(m, GuardDefs(defs), GuardList(main), data, depth) == Render(m, defs, main, data)
  {
    hide ExecList, GuardList, GuardedList, SizeList;
    var gd, gm := GuardDefs(defs), GuardList(main);
    RewriteGuardsList(main);
    forall x | x in defs ensures GuardedList(gd[x]) { RewriteGuardsList(defs[x]); }
    BoundList(m, gd, MAX_STEPS + 1, data, gm, Start(data), limit);
    var r := Render(m, defs, main, data);
    TimesAdd(r.st.steps, MAX_STEPS - r.st.steps, limit);
    TimesAdd(MAX_STEPS, 1, limit);
    forall depth | depth > MAX_STEPS
      ensures Execute(m, gd, gm, data, depth) == Render(m, defs, main, data)
    {
      MoreFuelList(m, gd, MAX_STEPS + 1, depth, data, gm, Start(data));
    }
  }

  lemma {:induction false} MoreFuelList(m: Machine, defs: Defs, f: nat, f': nat, dot: Value, ns: seq<Node>, st: State)
    requires st.steps <= MAX_STEPS && f <= f' && ExecList(m, defs, f, dot, ns, st).outcome != Starved
    ensures ExecList(m, defs, f', dot, ns, st) == ExecList(m, defs, f, dot, ns, st)
    decreases f, ns, 1
  {
    hide ExecNode;
    if ns != [] {
      MoreFuelNode(m, defs, f, f', dot, ns[0], st);
      var r := ExecNode(m, defs, f, dot, ns[0], st);
      if r.outcome == Next { MoreFuelList(m, defs, f, f', dot, ns[1..], r.st); }
    }
  }

  lemma {:induction false} MoreFuelNode(m: Machine, defs: Defs, f: nat, f': nat, dot: Value, n: Node, g: State)
    requires g.steps <= MAX_STEPS && f <= f' && ExecNode(m, defs, f, dot, n, g).outcome != Starved
    ensures ExecNode(m, defs, f', dot, n, g) == ExecNode(m, defs, f, dot, n, g)
    decreases f, n, 1
  {
    hide ExecList, ExecRange, ExecTemplate, Loop, RunCmds, Eval;
    var st := g.(visits := g.visits + 1);
    match n {
      case If(_, _, _) => MoreFuelIf(m, defs, f, f', dot, n, g);
      case With(_, _, _) => MoreFuelIf(m, defs, f, f', dot, n, g);
      case Range(_, _, _) => MoreFuelRange(m, defs, f, f', dot, n, g, st);
      case Template(_, _) => MoreFuelTemplate(m, defs, f, f', dot, n, st);
      case _ =>
    }
  }

  lemma {:induction false} MoreFuelIf(m: Machine, defs: Defs, f: nat, f': nat, dot: Value, n: Node, g: State)
    requires g.steps <= MAX_STEPS && f <= f' && (n.If? || n.With?)
    requires ExecNode(m, defs, f, dot, n, g).outcome != Starved
    ensures ExecNode(m, defs, f', dot, n, g) == ExecNode(m, defs, f, dot, n, g)
    decreases f, n, 0
  {
    hide ExecList, ExecRange, ExecTemplate, Eval;
    var (st1, v) := Eval(m, dot, n.pipe, g.(visits := g.visits + 1));
    if v != None {
      var dot1 := if n.With? && m.truth(v.value) then v.value else dot;
      MoreFuelList(m, defs, f, f', dot1, if m.truth(v.value) then n.yes else n.no, st1);
    }
  }

  lemma {:induction false} MoreFuelRange(m: Machine, defs: Defs, f: nat, f': nat, dot: Value,
                                         n: Node, g: State, st: State)
    requires st.steps <= MAX_STEPS && f <= f' && n.Range? && ExecRange(m, defs, f, dot, n, g, st).outcome != Starved
    ensures ExecRange(m, defs, f', dot, n, g, st) == ExecRange(m, defs, f, dot, n, g, st)
    decreases f, n, 0
  {
    hide ExecList, ExecNode, Loop, Eval, Items;
    var (st1, v) := Eval(m, dot, n.pipe, st);
    if v != None && Items(n.pipe.decl, v.value) != None {
      var items := Items(n.pipe.decl, v.value).value;
      if items == [] {
        MoreFuelList(m, defs, f, f', dot, n.no, Charged(n.pipe.decl, v.value, st1));
      } else {
        MoreFuelLoop(m, defs, f, f', n.pipe.decl, items, n.body, Charged(n.pipe.decl, v.value, st1));
      }
    }
  }

  lemma {:induction false} MoreFuelTemplate(m: Machine, defs: Defs, f: nat, f': nat, dot: Value, n: Node, st: State)
    requires st.steps <= MAX_STEPS && f <= f' && n.Template? && ExecTemplate(m, defs, f, dot, n, st).outcome != Starved
    ensures ExecTemplate(m, defs, f', dot, n, st) == ExecTemplate(m, defs, f, dot, n, st)
    decreases f, n, 0
  {
    hide ExecList, ExecNode, Loop, Eval;
    var (st1, v) := Argument(m, dot, n.arg, st);
    if v != None && n.name in defs && f > 0 {
      MoreFuelList(m, defs, f - 1, f' - 1, v.value, defs[n.name], Callee(st1, v.value));
    }
  }

  lemma {:induction false} MoreFuelLoop(m: Machine, defs: Defs, f: nat, f': nat, d: Decl,
                                        items: seq<(Value, Value)>, body: seq<Node>, st: State)
    requires st.steps <= MAX_STEPS && f <= f' && Loop(m, defs, f, d, items, body, st).outcome != Starved
    ensures Loop(m, defs, f', d, items, body, st) == Loop(m, defs, f, d, items, body, st)
    decreases f, body, 2 + |items|
  {
    hide ExecList;
    if items != [] {
      var st1 := Entered(d, items[0], st);
      MoreFuelList(m, defs, f, f', items[0].1, body, st1);
      var r := Scoped(st, ExecList(m, defs, f, items[0].1, body, st1));
      if r.outcome == Next || r.outcome == Continued { MoreFuelLoop(m, defs, f, f', d, items[1..], body, r.st); }
    }
  }

  /** The template as written ends within a depth, with an output and within
      what the guard allows. */
  ghost predicate Affordable(m: Machine, defs: Defs, main: seq<Node>, data: Value, out: string, depth: nat) {
    var o := Execute(m, defs, main, data, depth);
    Good(o) && o.st.out == out && !o.st.refused && o.st.cost <= MAX_STEPS
  }

  /** The guard changes nothing but what goes over its limit: a guarded render
      succeeds with an output exactly when the template as written ends with
      that output, goes over no negative number or channel, and has at most
      MAX_STEPS items to go over and templates to call in all. */
  lemma GuardPreservesMeaning(m: Machine, defs: Defs, main: seq<Node>, data: Value, out: string)
    requires PlainDefs(defs) && PlainList(main)
    ensures (Good(Render(m, defs, main, data)) && Render(m, defs, main, data).st.out == out) <==>
            exists depth :: Affordable(m, defs, main, data, out, depth)
  {
    if Good(Render(m, defs, main, data)) && Render(m, defs, main, data).st.out == out {
      GuardedAt(m, defs, main, data, out, MAX_STEPS + 1);
    }
    forall depth | Affordable(m, defs, main, data, out, depth)
      ensures Good(Render(m, defs, main, data)) && Render(m, defs, main, data).st.out == out
    {
      GuardedAt(m, defs, main, data, out, depth);
      SameAtAnyDepth(m, defs, main, data, depth);
    }
  }

  lemma GuardedAt(m: Machine, defs: Defs, main: seq<Node>, data: Value, out: string, depth: nat)
    requires PlainDefs(defs) && PlainList(main)
    ensures var h := Execute(m, GuardDefs(defs), GuardList(main), data, depth);
            Good(h) && h.st.out == out <==> Affordable(m, defs, main, data, out, depth)
  {
    hide ExecList, PlainList, GuardList;
    TrackList(m, defs, depth, data, main, Start(data), Start(data));
  }

  lemma SameAtAnyDepth(m: Machine, defs: Defs, main: seq<Node>, data: Value, depth: nat)
    requires Execute(m, GuardDefs(defs), GuardList(main), data, depth).outcome != Starved
    ensures Execute(m, GuardDefs(defs), GuardList(main), data, depth) == Render(m, defs, main, data)
  {
    hide ExecList, GuardList, SizeList;
    if depth > MAX_STEPS {
      var gd := GuardDefs(defs);
      var limit := LargestTree(gd, GuardList(main));
      forall x | x in defs ensures SizeList(GuardList(defs[x])) <= limit { assert x in gd; }
      GuardedRenderIsBounded(m, defs, main, data, limit);
    } else {
      MoreFuelList(m, GuardDefs(defs), depth, MAX_STEPS + 1, data, GuardList(main), Start(data));
    }
  }

  lemma {:induction false} LargestTree(defs: Defs, main: seq<Node>) returns (limit: nat)
    ensures SizeList(main) <= limit && forall x | x in defs :: SizeList(defs[x]) <= limit
    decreases |defs|
  {
    if defs == map[] {
      limit := SizeList(main);
    } else {
      var x :| x in defs;
      var rest := defs - {x};
      limit := LargestTree(rest, main);
      forall y | y in defs && y != x ensures SizeList(defs[y]) <= limit { assert y in rest; }
      if SizeList(defs[x]) > limit { limit := SizeList(defs[x]); }
    }
  }

  function Written(m: Machine, values: seq<Value>): string {
    if values == [] then "" else Print(m, values[0]) + Written(m, values[1..])
  }

  lemma {:induction false} ListedIsWritten(m: Machine, x: string, items: seq<(Value, Value)>, values: seq<Value>)
    requires |items| == |values| && forall i | 0 <= i < |items| :: items[i].1 == values[i]
    ensures Listed(m, Declare(x), x, items) == Written(m, values)
  {
    if items != [] { ListedIsWritten(m, x, items[1..], values[1..]); }
  }

  /** A range over a list, or over a number, whose body writes the element: under
      the guard it writes them all, one after the other, if and only if there are
      no more than MAX_STEPS. */
  lemma ElementsAreWritten(m: Machine, x: string, v: Value, values: seq<Value>, data: Value)
    requires v == List(values) || (v == Int(|values|) && forall i | 0 <= i < |values| :: values[i] == Int(i))
    requires Reads(m, 0, x) && forall calls, vars, dot, last :: m.fn(1, calls, vars, dot, last) == Some(v)
    requires |Written(m, values)| <= m.maxBytes
    ensures var main := [Range(Pipe(Declare(x), [Call(1)]), [Action(Pipe(NoVar, [Call(0)]))], [])];
            var r := Render(m, map[], main, data);
            && (Good(r) <==> |values| <= MAX_STEPS)
            && (Good(r) ==> r.st.out == Written(m, values))
  {
    var d, items := Declare(x), Items(Declare(x), v).value;
    ListedIsWritten(m, x, items, values);
    var main := [Range(Pipe(d, [Call(1)]), [Action(Pipe(NoVar, [Call(0)]))], [])];
    var st := Start(data).(visits := 1);
    OneCall(m, data, d, st);
    assert PlainDefs(map[]) && PlainList(main) by { SimplePlain(main); }
    hide Reads, Written, Listed, Items, Eval, ExecNode, PlainList;
    forall depth
      ensures var o := Execute(m, map[], main, data, depth);
              Good(o) && o.st.out == Written(m, values) && !o.st.refused && o.st.cost == |values|
    {
      RangeBindsEach(m, map[], depth, d, x, 0, data, [Call(1)], Start(data));
      LastNode(m, map[], depth, data, main[0], Start(data));
    }
    var r := Render(m, map[], main, data);
    GuardPreservesMeaning(m, map[], main, data, r.st.out);
    GuardPreservesMeaning(m, map[], main, data, Written(m, values));
    if |values| <= MAX_STEPS { assert Affordable(m, map[], main, data, Written(m, values), 0); }
  }

  lemma OneCall(m: Machine, dot: Value, d: Decl, st: State)
    requires st.steps <= MAX_STEPS
    ensures Eval(m, dot, Pipe(d, [Call(1)]), st).1 == m.fn(1, st.calls, st.vars, dot, None)
  {
    EvalOne(m, dot, 1, st);
  }

  lemma LastNode(m: Machine, defs: Defs, fuel: nat, dot: Value, n: Node, st: State)
    requires st.steps <= MAX_STEPS
    ensures ExecList(m, defs, fuel, dot, [n], st) == ExecNode(m, defs, fuel, dot, n, st)
  {
    hide ExecNode;
    var r := ExecNode(m, defs, fuel, dot, n, st);
    assert [n][1..] == [] && ExecList(m, defs, fuel, dot, [], r.st) == Result(r.st, Next);
  }

  lemma SimplePlain(main: seq<Node>)
    requires exists d: Decl :: main == [Range(Pipe(d, [Call(1)]), [Action(Pipe(NoVar, [Call(0)]))], [])]
    ensures PlainDefs(map[]) && PlainList(main)
  {
    var body := [Action(Pipe(NoVar, [Call(0)]))];
    assert PlainNode(body[0]) && body[1..] == [] && main[1..] == [];
    assert PlainList(body);
    assert PlainNode(main[0]);
  }

  /** The condition is needed: the language takes a range over a negative
      number as empty, and the guard refuses it. */
  lemma NegativeRangeIsRefused(m: Machine, data: Value)
    requires m.fn(0, 0, [("$", data)], data, None) == Some(Int(-1))
    ensures var main := [Range(Pipe(NoVar, [Call(0)]), [], [])];
            && Good(Execute(m, map[], main, data, MAX_STEPS + 1)) && !Good(Render(m, map[], main, data))
  {
    var p := Pipe(NoVar, [Call(0)]);
    var main := [Range(p, [], [])];
    var st := Start(data).(visits := 1);
    assert p.cmds[1..] == [] && main[1..] == [];
    assert Eval(m, data, p, st) == (st.(calls := 1), Some(Int(-1)));
    assert Items(NoVar, Int(-1)).value == [];
    var st2 := Charged(NoVar, Int(-1), st.(calls := 1));
    assert st2.refused;
    assert ExecList(m, map[], MAX_STEPS + 1, data, [], st2) == Result(st2, Next);
    var o := ExecRange(m, map[], MAX_STEPS + 1, data, main[0], Start(data), st);
    assert o == Scoped(Start(data), Result(st2, Next));
    assert o.st.refused && o.outcome == Next;
    assert ExecList(m, map[], MAX_STEPS + 1, data, main, Start(data)) ==
           ExecList(m, map[], MAX_STEPS + 1, data, [], o.st) == Result(o.st, Next);
    assert Plain(p) && PlainNode(main[0]);
    GuardedAt(m, map[], main, data, o.st.out, MAX_STEPS + 1);
    var r := Render(m, map[], main, data);
    if Good(r) { GuardedAt(m, map[], main, data, r.st.out, MAX_STEPS + 1); }
  }
}
