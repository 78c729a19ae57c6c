/** The core loop of the GS2 virtual machine (`_execute`, `_gcall_target`, `_gcall_script`
    and `_start_execution` in reborn_protocol/gs2/vm.py) as a machine over an explicit stack
    of frames. Every script counts the instructions it runs; a call into a joined script
    hands its count over and takes it back. */
module Gs2Machine {
  import opened Bytes
  import Gs2Disasm
  import opened Gs2Vm

  datatype World = World(env: Env, scripts: seq<Script>, coro: bool)

  /** Where the generator stands: running, suspended in a sleep or in a host call that has to
      wait, or done. */
  datatype Status = Running | Asleep(seconds: real) | Waiting(value: Value) | Finished(value: Value)

  datatype Machine = Machine(
    status: Status,
    frames: seq<Frame>,
    used: map<nat, nat>,
    errors: map<nat, nat>,
    store: Store)

  function CountOf(counts: map<nat, nat>, v: nat): nat { if v in counts then counts[v] else 0 }

  function Used(m: Machine, v: nat): nat { CountOf(m.used, v) }

  function TopFrame(m: Machine): Frame
    requires m.frames != []
  {
    m.frames[|m.frames| - 1]
  }

  function WithTop(m: Machine, f: Frame): Machine
    requires m.frames != []
  {
    m.(frames := m.frames[..|m.frames| - 1] + [f])
  }

  /** Scripts join classes, and joining never leads back. */
  predicate Acyclic(w: World) {
    forall v, k :: 0 <= v < |w.scripts| && 0 <= k < |w.scripts[v].joined| ==>
      v < w.scripts[v].joined[k] < |w.scripts|
  }

  /** A script function: the scripts the call goes through, the one that declares it, and
      where it starts. */
  datatype Found = Found(chain: seq<nat>, script: nat, entry: int)

  function Find(w: World, v: nat, name: string): (r: Option<Found>)
    requires Acyclic(w) && v < |w.scripts|
    ensures r.Some? ==> r.value.script < |w.scripts|
    ensures r.Some? ==> if r.value.chain == [] then r.value.script == v else r.value.chain[0] == v
    decreases |w.scripts| - v, |w.scripts[v].joined| + 1
  {
    if name in w.scripts[v].functions then Some(Found([], v, w.scripts[v].functions[name]))
    else FindJoined(w, v, 0, name)
  }

  /** The first joined class from `k` on that has the function, itself or in a class of its
      own. */
  function FindJoined(w: World, v: nat, k: nat, name: string): (r: Option<Found>)
    requires Acyclic(w) && v < |w.scripts| && k <= |w.scripts[v].joined|
    ensures r.Some? ==> r.value.script < |w.scripts| && r.value.chain != [] && r.value.chain[0] == v
    decreases |w.scripts| - v, |w.scripts[v].joined| - k
  {
    if k == |w.scripts[v].joined| then None
    else
      var r := Find(w, w.scripts[v].joined[k], name);
      if r.Some? then Some(r.value.(chain := [v] + r.value.chain)) else FindJoined(w, v, k + 1, name)
  }

  /** `_gcall_target`: a bare name, or a member of the script's own `this`, that is one of
      the script's functions. */
  function ScriptTarget(w: World, v: nat, target: Value): (r: Option<Found>)
    requires Acyclic(w) && v < |w.scripts|
    ensures r.Some? ==> r.value.script < |w.scripts|
    ensures r.Some? ==> if r.value.chain == [] then r.value.script == v else r.value.chain[0] == v
  {
    match target
    case VarRef(name) => Find(w, v, w.env.fold(name))
    case Slot(base, key) =>
      if base == Obj(w.scripts[v].owner) then Find(w, v, w.env.fold(key)) else None
    case _ => None
  }

  function Counted(counts: map<nat, nat>, vs: seq<nat>, n: nat): map<nat, nat>
    decreases |vs|
  {
    if vs == [] then counts else Counted(counts[vs[0] := n], vs[1..], n)
  }

  lemma {:induction false} CountedAt(counts: map<nat, nat>, vs: seq<nat>, n: nat, v: nat)
    ensures CountOf(Counted(counts, vs, n), v) == if v in vs then n else CountOf(counts, v)
    decreases |vs|
  {
    if vs != [] { CountedAt(counts[vs[0] := n], vs[1..], n, v); }
  }

  /** A new frame with a scope of its own. */
  function Fresh(s: Store, script: nat, chain: seq<nat>, entry: int, args: seq<Value>): (Frame, Store) {
    (Frame(script, chain, entry, [], s.next, args, [], map[]),
     s.(heap := s.heap[s.next := map[]], next := s.next + 1))
  }

  /** `_start_execution` */
  function Launch(store: Store, used: map<nat, nat>, errors: map<nat, nat>, v: nat, entry: int, args: seq<Value>)
    : Machine
  {
    var (f, s) := Fresh(store, v, [], entry, args);
    Machine(Running, [f], used[v := 0], errors[v := 0], s)
  }

  /** A frame returns: the counts go back through the joined classes, and the caller gets
      exactly one value. */
  function Leave(m: Machine, v: Value): Machine
    requires m.frames != []
  {
    var f, below := TopFrame(m), m.frames[..|m.frames| - 1];
    var back := m.(frames := below, used := Counted(m.used, f.chain, Used(m, f.script)));
    if below == [] then back.(status := Finished(v))
    else WithTop(back.(status := Running), Push(TopFrame(back), v))
  }

  /** A handler raised: too many times and the frame gives up. */
  function Failed(w: World, m: Machine): Machine
    requires m.frames != [] && TopFrame(m).script < |w.scripts|
  {
    var v := TopFrame(m).script;
    var n := CountOf(m.errors, v) + 1;
    var noted := m.(errors := m.errors[v := n]);
    if n > w.scripts[v].maxErrors then Leave(noted, Unset) else noted
  }

  /** A script call: the callee's frame on top, the count handed on. */
  function Enter(m: Machine, to: Found, args: seq<Value>): Machine
    requires m.frames != []
  {
    var (g, s) := Fresh(m.store, to.script, to.chain, to.entry, args);
    var handed := if to.chain == [] then [] else to.chain[1..] + [to.script];
    m.(frames := m.frames + [g], store := s,
       used := Counted(m.used, handed, Used(m, TopFrame(m).script)))
  }

  /** OP_CALL */
  function CallOp(w: World, m: Machine, f: Frame): Machine
    requires Acyclic(w) && m.frames != [] && f.script < |w.scripts|
  {
    var x, target, under := w.scripts[f.script], Top(f.stack), Rest(f.stack);
    var args := DerefAll(w.env, x, m.store, f, ArgsOf(under));
    var popped := WithTop(m, f.(stack := BelowMarker(under)));
    var to := ScriptTarget(w, f.script, target);
    if to.Some? then Enter(popped, to.value, args)
    else
      match w.env.host(m.store, target, args)
      case Answer(v, s) => WithTop(popped.(store := s), Push(TopFrame(popped), v))
      case Wait(v, s) =>
        if w.coro then popped.(store := s, status := Waiting(v))
        else WithTop(popped.(store := s), Push(TopFrame(popped), v))
      case Refusal(s) => Failed(w, popped.(store := s))
  }

  /** OP_SLEEP in a coroutine. */
  function SleepOp(w: World, m: Machine, f: Frame): Machine
    requires m.frames != [] && f.script < |w.scripts|
  {
    var seconds := if f.stack == [] then 0.0
                   else w.env.num(Deref(w.env, w.scripts[f.script], m.store, f, Top(f.stack)));
    var popped := WithTop(m, f.(stack := Rest(f.stack)));
    if seconds > 0.0 then popped.(status := Asleep(seconds)) else popped
  }

  /** A handler works on its own frame: whose it is, its scope and its arguments stay. */
  lemma HandleKeeps(e: Env, x: Script, s: Store, f: Frame, i: Gs2Disasm.Instruction)
    ensures var r := Handle(e, x, s, f, i);
            !r.Return? ==>
              r.f.script == f.script && r.f.chain == f.chain && r.f.temps == f.temps && r.f.args == f.args
              && (r.Next? || r.Raise? ==> r.f.ip == f.ip)
  {
    hide Deref, ArgsOf, BelowMarker, BindFrom, WriteRef, OperandReal, TableEntry, CurrentThis, Register;
  }

  /** Any other instruction. */
  function OtherOp(w: World, m: Machine, f: Frame, i: Gs2Disasm.Instruction): Machine
    requires m.frames != [] && f.script < |w.scripts| && TopFrame(m).script == f.script
  {
    HandleKeeps(w.env, w.scripts[f.script], m.store, f, i);
    match Handle(w.env, w.scripts[f.script], m.store, f, i)
    case Next(f', s) => WithTop(m, f').(store := s)
    case Jump(f', s, target) => WithTop(m, f'.(ip := target)).(store := s)
    case Return(v) => Leave(m, v)
    case Raise(f', s) => Failed(w, WithTop(m, f').(store := s))
  }

  /** Whether the next step runs an instruction: there is one, and budget left for it. */
  predicate Executes(w: World, m: Machine) {
    m.status.Running? && m.frames != [] &&
    var f := TopFrame(m);
    f.script < |w.scripts| && 0 <= f.ip < |w.scripts[f.script].code|
    && Used(m, f.script) < w.scripts[f.script].maxOps
  }

  /** One round of the loop of `_execute`, or the end of the frame. */
  function Step(w: World, m: Machine): Machine
    requires Acyclic(w)
  {
    if m.frames == [] then m
    else
      match m.status
      case Waiting(v) => WithTop(m.(status := Running), Push(TopFrame(m), v))
      case Asleep(_) => m
      case Finished(_) => m
      case Running =>
        if !Executes(w, m) then Leave(m, Unset)
        else
          var f := TopFrame(m);
          var i := w.scripts[f.script].code[f.ip];
          var moved := f.(ip := f.ip + 1);
          var counted := WithTop(m.(used := m.used[f.script := Used(m, f.script) + 1]), moved);
          if i.opnum == 6 then CallOp(w, counted, moved)
          else if i.opnum == 8 && w.coro then SleepOp(w, counted, moved)
          else OtherOp(w, counted, moved, i)
  }

  /** The host resumes a sleeping execution: the script that slept starts a new count. */
  function Wake(m: Machine): Machine {
    if m.status.Asleep? && m.frames != [] then
      m.(status := Running, used := m.used[TopFrame(m).script := 0])
    else m
  }

  function Run(w: World, m: Machine, n: nat): Machine
    requires Acyclic(w)
    decreases n
  {
    if n == 0 then m else Run(w, Step(w, m), n - 1)
  }

  /** How many of the next `n` steps run an instruction. */
  function Executed(w: World, m: Machine, n: nat): nat
    requires Acyclic(w)
    decreases n
  {
    if n == 0 then 0 else (if Executes(w, m) then 1 else 0) + Executed(w, Step(w, m), n - 1)
  }

  // ------------------------------------------------------------- invariants

  predicate InWorld(w: World, frames: seq<Frame>) {
    forall k :: 0 <= k < |frames| ==> frames[k].script < |w.scripts|
  }

  /** Every frame but the first was called by the one below it, directly or through joined
      classes. */
  predicate Linked(frames: seq<Frame>) {
    forall k :: 1 <= k < |frames| ==>
      if frames[k].chain == [] then frames[k].script == frames[k - 1].script
      else frames[k].chain[0] == frames[k - 1].script
  }

  predicate Uniform(w: World, budget: nat) {
    forall v :: 0 <= v < |w.scripts| ==> w.scripts[v].maxOps == budget
  }

  /** What every step keeps. */
  predicate Good(w: World, budget: nat, m: Machine) {
    && InWorld(w, m.frames) && Linked(m.frames)
    && (m.status.Finished? <==> m.frames == [])
    && (m.frames != [] ==> Used(m, TopFrame(m).script) <= budget)
  }

  function Measure(budget: nat, m: Machine): int {
    if m.frames == [] then 0
    else 2 * (budget - Used(m, TopFrame(m).script)) + |m.frames| + if m.status.Waiting? then 1 else 0
  }

  predicate Stopped(m: Machine) { m.status.Asleep? || m.status.Finished? }

  lemma LeaveKeeps(w: World, budget: nat, m: Machine, v: Value)
    requires Good(w, budget, m) && m.frames != [] && !m.status.Asleep?
    ensures var r := Leave(m, v);
            Good(w, budget, r) && |r.frames| == |m.frames| - 1 && !r.status.Waiting? && !r.status.Asleep?
            && (r.frames != [] ==> Used(r, TopFrame(r).script) == Used(m, TopFrame(m).script))
  {
    var f, n := TopFrame(m), |m.frames|;
    if n > 1 {
      CountedAt(m.used, f.chain, Used(m, f.script), m.frames[n - 2].script);
    }
  }

  lemma FailedKeeps(w: World, budget: nat, m: Machine)
    requires Good(w, budget, m) && m.frames != [] && m.status.Running?
    ensures var r := Failed(w, m);
            Good(w, budget, r) && |r.frames| <= |m.frames| && !r.status.Waiting? && !r.status.Asleep?
            && (r.frames != [] ==> Used(r, TopFrame(r).script) == Used(m, TopFrame(m).script))
  {
    hide Leave;
    var v := TopFrame(m).script;
    var noted := m.(errors := m.errors[v := CountOf(m.errors, v) + 1]);
    LeaveKeeps(w, budget, noted, Unset);
  }

  lemma EnterKeeps(w: World, budget: nat, m: Machine, to: Found, args: seq<Value>)
    requires Good(w, budget, m) && m.frames != [] && m.status.Running? && to.script < |w.scripts|
    requires if to.chain == [] then to.script == TopFrame(m).script else to.chain[0] == TopFrame(m).script
    ensures var r := Enter(m, to, args);
            Good(w, budget, r) && |r.frames| == |m.frames| + 1 && r.status.Running?
            && Used(r, TopFrame(r).script) == Used(m, TopFrame(m).script)
  {
    if to.chain != [] {
      CountedAt(m.used, to.chain[1..] + [to.script], Used(m, TopFrame(m).script), to.script);
    }
  }

  /** Same frames but for the top one's contents: the invariant carries over. */
  lemma TopChanges(w: World, budget: nat, m: Machine, f: Frame, s: Store, status: Status)
    requires Good(w, budget, m) && m.frames != [] && !status.Finished?
    requires f.script == TopFrame(m).script && f.chain == TopFrame(m).chain
    ensures var r := WithTop(m, f).(store := s, status := status);
            Good(w, budget, r) && |r.frames| == |m.frames| && TopFrame(r) == f
            && Used(r, TopFrame(r).script) == Used(m, TopFrame(m).script)
  {
  }

  /** A machine whose top frame keeps its count and whose stack of frames grew by at most
      one: what an instruction may do. */
  predicate After(w: World, budget: nat, m: Machine, r: Machine) {
    && Good(w, budget, r) && |r.frames| <= |m.frames| + 1
    && (r.status.Waiting? ==> |r.frames| == |m.frames|)
    && (r.frames != [] && m.frames != [] ==> Used(r, TopFrame(r).script) == Used(m, TopFrame(m).script))
  }

  lemma CallKeeps(w: World, budget: nat, m: Machine)
    requires Acyclic(w) && Good(w, budget, m) && m.frames != [] && m.status.Running?
    ensures After(w, budget, m, CallOp(w, m, TopFrame(m)))
  {
    hide ScriptTarget, DerefAll, ArgsOf, BelowMarker, Good, Enter, Failed;
    var f := TopFrame(m);
    InFrames(w, budget, m);
    var x, target, under := w.scripts[f.script], Top(f.stack), Rest(f.stack);
    var args := DerefAll(w.env, x, m.store, f, ArgsOf(under));
    var below := f.(stack := BelowMarker(under));
    var popped := WithTop(m, below);
    TopChanges(w, budget, m, below, m.store, Running);
    var to := ScriptTarget(w, f.script, target);
    if to.Some? {
      EnterKeeps(w, budget, popped, to.value, args);
    } else {
      var answer := w.env.host(m.store, target, args);
      TopChanges(w, budget, popped, below, answer.store, Running);
      assert WithTop(popped, below) == popped;
      if answer.Refusal? {
        FailedKeeps(w, budget, popped.(store := answer.store));
      } else {
        TopChanges(w, budget, popped, Push(below, answer.value), answer.store, Running);
        TopChanges(w, budget, popped, below, answer.store, Waiting(answer.value));
      }
    }
  }

  lemma InFrames(w: World, budget: nat, m: Machine)
    requires Good(w, budget, m) && m.frames != []
    ensures TopFrame(m).script < |w.scripts| && Used(m, TopFrame(m).script) <= budget
  {
  }

  lemma SleepKeeps(w: World, budget: nat, m: Machine)
    requires Good(w, budget, m) && m.frames != [] && m.status.Running?
    ensures TopFrame(m).script < |w.scripts|
    ensures After(w, budget, m, SleepOp(w, m, TopFrame(m)))
  {
    hide Deref, Good;
    var f := TopFrame(m);
    InFrames(w, budget, m);
    var popped := f.(stack := Rest(f.stack));
    var seconds := if f.stack == [] then 0.0
                   else w.env.num(Deref(w.env, w.scripts[f.script], m.store, f, Top(f.stack)));
    TopChanges(w, budget, m, popped, m.store, Running);
    TopChanges(w, budget, m, popped, m.store, Asleep(seconds));
  }

  lemma OtherKeeps(w: World, budget: nat, m: Machine, i: Gs2Disasm.Instruction)
    requires Good(w, budget, m) && m.frames != [] && m.status.Running?
    ensures TopFrame(m).script < |w.scripts|
    ensures After(w, budget, m, OtherOp(w, m, TopFrame(m), i))
  {
    hide Handle, Good, Leave, Failed;
    var f := TopFrame(m);
    InFrames(w, budget, m);
    HandleKeeps(w.env, w.scripts[f.script], m.store, f, i);
    var r := Handle(w.env, w.scripts[f.script], m.store, f, i);
    if r.Return? {
      LeaveKeeps(w, budget, m, r.value);
    } else {
      TopChanges(w, budget, m, r.f, r.s, Running);
      if r.Jump? {
        TopChanges(w, budget, m, r.f.(ip := r.target), r.s, Running);
      } else if r.Raise? {
        FailedKeeps(w, budget, WithTop(m, r.f).(store := r.s));
      }
    }
  }

  /** Each step keeps the invariant, counts exactly the instructions it runs, and brings the
      machine nearer to its next stop. */
  lemma StepCounts(w: World, budget: nat, m: Machine)
    requires Acyclic(w) && Uniform(w, budget) && Good(w, budget, m) && !Stopped(m)
    ensures var r := Step(w, m);
            && Good(w, budget, r) && Measure(budget, r) < Measure(budget, m)
            && (r.frames != [] ==>
                  Used(r, TopFrame(r).script) == Used(m, TopFrame(m).script) + if Executes(w, m) then 1 else 0)
  {
    hide CallOp, SleepOp, OtherOp, Leave, Good;
    Alive(w, budget, m);
    var f := TopFrame(m);
    if m.status.Waiting? {
      TopChanges(w, budget, m, Push(f, m.status.value), m.store, Running);
    } else if !Executes(w, m) {
      LeaveKeeps(w, budget, m, Unset);
      Remains(w, budget, m);
      Remains(w, budget, Leave(m, Unset));
    } else {
      var i := w.scripts[f.script].code[f.ip];
      var moved := f.(ip := f.ip + 1);
      var counted := WithTop(m.(used := m.used[f.script := Used(m, f.script) + 1]), moved);
      Counts(w, budget, m, moved);
      if i.opnum == 6 {
        CallKeeps(w, budget, counted);
      } else if i.opnum == 8 && w.coro {
        SleepKeeps(w, budget, counted);
      } else {
        OtherKeeps(w, budget, counted, i);
      }
      Remains(w, budget, Step(w, m));
    }
  }

  lemma Alive(w: World, budget: nat, m: Machine)
    requires Good(w, budget, m) && !Stopped(m)
    ensures m.frames != [] && TopFrame(m).script < |w.scripts| && (m.status.Running? || m.status.Waiting?)
  {
  }

  lemma Remains(w: World, budget: nat, m: Machine)
    requires Good(w, budget, m)
    ensures m.frames != [] ==> Used(m, TopFrame(m).script) <= budget
  {
  }

  lemma Counts(w: World, budget: nat, m: Machine, moved: Frame)
    requires Uniform(w, budget) && Good(w, budget, m) && Executes(w, m)
    requires moved.script == TopFrame(m).script && moved.chain == TopFrame(m).chain
    ensures var f := TopFrame(m);
            var counted := WithTop(m.(used := m.used[f.script := Used(m, f.script) + 1]), moved);
            Good(w, budget, counted) && |counted.frames| == |m.frames| && TopFrame(counted) == moved
            && Used(counted, moved.script) == Used(m, f.script) + 1
  {
  }

  // ------------------------------------------------------------- the budget

  /** A started execution and a woken one begin a slice with nothing used. */
  lemma LaunchBegins(w: World, budget: nat, store: Store, used: map<nat, nat>, errors: map<nat, nat>,
                     v: nat, entry: int, args: seq<Value>)
    requires v < |w.scripts|
    ensures var m := Launch(store, used, errors, v, entry, args);
            Good(w, budget, m) && |m.frames| == 1 && Used(m, TopFrame(m).script) == 0 && m.status.Running?
  {
  }

  lemma WakeBegins(w: World, budget: nat, asleep: Machine)
    requires Good(w, budget, asleep) && asleep.status.Asleep?
    ensures var m := Wake(asleep);
            Good(w, budget, m) && m.frames != [] && Used(m, TopFrame(m).script) == 0 && m.status.Running?
  {
  }

  /** From any such point, whatever the bytecode, the instructions run before the next sleep,
      in all frames and joined scripts together, fit into what is left of the budget. */
  lemma {:induction false} SliceStaysInBudget(w: World, budget: nat, m: Machine, n: nat)
    requires Acyclic(w) && Uniform(w, budget) && Good(w, budget, m)
    ensures Executed(w, m, n) <= if m.frames == [] then 0 else budget - Used(m, TopFrame(m).script)
    ensures Good(w, budget, Run(w, m, n))
    decreases n
  {
    hide Step, Executes, Good;
    Remains(w, budget, m);
    if n > 0 {
      if Stopped(m) {
        StandsStill(w, m);
        SliceStaysInBudget(w, budget, m, n - 1);
      } else {
        Alive(w, budget, m);
        StepCounts(w, budget, m);
        Remains(w, budget, Step(w, m));
        SliceStaysInBudget(w, budget, Step(w, m), n - 1);
        LastInstruction(w, budget, m);
      }
    }
  }

  lemma StandsStill(w: World, m: Machine)
    requires Acyclic(w) && Stopped(m)
    ensures Step(w, m) == m && !Executes(w, m)
  {
  }

  lemma LastInstruction(w: World, budget: nat, m: Machine)
    requires Uniform(w, budget)
    ensures Executes(w, m) ==> Used(m, TopFrame(m).script) < budget
  {
  }

  lemma {:induction false} StaysStopped(w: World, m: Machine, n: nat)
    requires Acyclic(w) && Stopped(m)
    ensures Run(w, m, n) == m
    decreases n
  {
    hide Step;
    StandsStill(w, m);
    if n > 0 { StaysStopped(w, m, n - 1); }
  }

  /** And the slice does end: in a sleep or with the execution finished. */
  lemma {:induction false} SliceEnds(w: World, budget: nat, m: Machine, n: nat)
    requires Acyclic(w) && Uniform(w, budget) && Good(w, budget, m) && n >= Measure(budget, m)
    ensures Stopped(Run(w, m, n))
    decreases n
  {
    hide Step, Good;
    if Stopped(m) {
      StaysStopped(w, m, n);
    } else {
      Alive(w, budget, m);
      Remains(w, budget, m);
      StepCounts(w, budget, m);
      SliceEnds(w, budget, Step(w, m), n - 1);
    }
  }

  /** An event's execution, up to its first sleep or to its end: at most the budget in
      instructions, and at most twice that and one in steps. */
  lemma EventStaysInBudget(w: World, budget: nat, store: Store, used: map<nat, nat>, errors: map<nat, nat>,
                           v: nat, entry: int, args: seq<Value>, n: nat)
    requires Acyclic(w) && Uniform(w, budget) && v < |w.scripts|
    ensures var m := Launch(store, used, errors, v, entry, args);
            Executed(w, m, n) <= budget && Stopped(Run(w, m, 2 * budget + 1))
  {
    hide Good, Launch;
    var m := Launch(store, used, errors, v, entry, args);
    LaunchBegins(w, budget, store, used, errors, v, entry, args);
    SliceStaysInBudget(w, budget, m, n);
    SliceEnds(w, budget, m, 2 * budget + 1);
  }

  /** The same for every stretch between two sleeps. */
  lemma WokenStaysInBudget(w: World, budget: nat, asleep: Machine, n: nat)
    requires Acyclic(w) && Uniform(w, budget) && Good(w, budget, asleep) && asleep.status.Asleep?
    ensures var m := Wake(asleep);
            Executed(w, m, n) <= budget && Stopped(Run(w, m, 2 * budget + |asleep.frames|))
  {
    hide Good;
    WakeBegins(w, budget, asleep);
    SliceStaysInBudget(w, budget, Wake(asleep), n);
    SliceEnds(w, budget, Wake(asleep), 2 * budget + |asleep.frames|);
  }
}
