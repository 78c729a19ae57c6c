/** Where GS2 control flow goes: the five jump instructions, and the shapes a compiler lays out
    with them. */
module Gs2Jumps {
  import opened Bytes
  import Gs2Disasm
  import opened Gs2Vm
  import opened Gs2Machine
  import opened Gs2Calls

  /** The instruction at `at` jumps to `target`, a whole number. */
  predicate TargetAt(x: Script, at: int, op: byte, target: int) {
    OpAt(x, at, op) && x.code[at].operand.Some? && x.code[at].operand.value.value == Gs2Disasm.Number(target)
  }

  predicate Holds(w: World, m: Machine, v: Value)
    requires m.frames != [] && TopFrame(m).script < |w.scripts|
  {
    w.env.truthy(Deref(w.env, w.scripts[TopFrame(m).script], m.store, Advanced(m), v))
  }

  lemma WholeTarget(e: Env, i: Gs2Disasm.Instruction, f: Frame, s: Store, target: int)
    requires i.operand.Some? && i.operand.value.value == Gs2Disasm.Number(target)
    ensures JumpTo(e, i, f, s) == Jump(f, s, target)
  {
    var r := target as real;
    if r >= 0.0 {
      assert r.Floor == target;
    } else {
      assert -r == (-target) as real && (-r).Floor == -target;
    }
  }

  lemma Jumps(w: World, m: Machine, f: Frame, target: int)
    requires Acyclic(w) && Executes(w, m) && Current(w, m).opnum !in {6, 8}
    requires Handle(w.env, w.scripts[TopFrame(m).script], m.store, Advanced(m), Current(w, m))
             == Jump(f, m.store, target)
    ensures f.script == TopFrame(m).script
    ensures Run(w, m, 1) == Moved(m, f.(ip := target), m.store, Used(m, f.script) + 1)
  {
    hide Handle;
    HandleKeeps(w.env, w.scripts[TopFrame(m).script], m.store, Advanced(m), Current(w, m));
    assert Run(w, m, 1) == Run(w, Step(w, m), 0);
  }

  /** OP_SET_INDEX, opcode 1: on to the target, the stack as it was. */
  lemma SetIndexGoes(w: World, m: Machine, at: int, target: int)
    requires Acyclic(w) && Ready(w, m, at, 1) && TargetAt(w.scripts[TopFrame(m).script], at, 1, target)
    ensures Run(w, m, 1) == Moved(m, TopFrame(m).(ip := target), m.store, Used(m, TopFrame(m).script) + 1)
  {
    WholeTarget(w.env, Current(w, m), Advanced(m), m.store, target);
    Jumps(w, m, Advanced(m), target);
  }

  /** The whole number next to `r` on the side of nothing. */
  predicate WholePart(r: real, n: int) {
    if r >= 0.0 then n as real <= r < n as real + 1.0 else n as real - 1.0 < r <= n as real
  }

  /** A target written as text is cut to its whole part, towards nothing. */
  lemma TextTargetIsCut(w: World, m: Machine, at: int, text: bytes, target: int)
    requires Acyclic(w) && Ready(w, m, at, 1) && OpAt(w.scripts[TopFrame(m).script], at, 1)
    requires var operand := w.scripts[TopFrame(m).script].code[at].operand;
             operand.Some? && operand.value.value == Gs2Disasm.Text(text)
    requires WholePart(w.env.literal(text), target)
    ensures Run(w, m, 1) == Moved(m, TopFrame(m).(ip := target), m.store, Used(m, TopFrame(m).script) + 1)
  {
    var r := w.env.literal(text);
    if r < 0.0 {
      assert -(target as real) == (-target) as real && (-r).Floor == -target;
    } else {
      assert r.Floor == target;
    }
    assert JumpTo(w.env, Current(w, m), Advanced(m), m.store) == Jump(Advanced(m), m.store, target);
    Jumps(w, m, Advanced(m), target);
  }

  /** The four that test the value on top of the stack and take it away. SET_INDEX_TRUE (2) and
      OR (3) jump when it holds, IF (4) and AND (5) when it does not; OR and AND push the truth
      that decided. Nothing but the frame's stack, position and count changes. */
  lemma ConditionDecides(w: World, m: Machine, at: int, op: byte, target: int, under: seq<Value>, v: Value)
    requires Acyclic(w) && Ready(w, m, at, 1) && op in {2, 3, 4, 5}
    requires TargetAt(w.scripts[TopFrame(m).script], at, op, target) && TopFrame(m).stack == under + [v]
    ensures var f := TopFrame(m);
            var jumps := if op in {2, 3} then Holds(w, m, v) else !Holds(w, m, v);
            var left := if op == 3 then [Flag(true)] else if op == 5 then [Flag(false)] else [];
            Run(w, m, 1) ==
              Moved(m, if jumps then f.(ip := target, stack := under + left) else f.(ip := at + 1, stack := under),
                    m.store, Used(m, f.script) + 1)
  {
    hide Run, Step, Deref;
    var f := Advanced(m);
    assert Top(f.stack) == v && Rest(f.stack) == under;
    var popped := f.(stack := under);
    WholeTarget(w.env, Current(w, m), popped, m.store, target);
    WholeTarget(w.env, Current(w, m), Push(popped, Flag(true)), m.store, target);
    WholeTarget(w.env, Current(w, m), Push(popped, Flag(false)), m.store, target);
    assert under + [] == under;
    if (op in {2, 3}) == Holds(w, m, v) {
      Jumps(w, m, if op == 3 then Push(popped, Flag(true)) else if op == 5 then Push(popped, Flag(false)) else popped,
            target);
    } else {
      OpSteps(w, m, popped, m.store);
      OneStep(w, m);
    }
  }

  /** `m` stands at `at`, in the frame `base` stands in, with this stack and budget to go on. */
  predicate Stands(w: World, base: Machine, m: Machine, at: int, stack: seq<Value>) {
    Ready(w, m, at, 1) && base.frames != [] && TopFrame(m).script == TopFrame(base).script && TopFrame(m).stack == stack
  }

  /** Behind the jump at `at`, which tested a value and did not jump. */
  function Inside(d: Machine, at: int, under: seq<Value>): Machine
    requires d.frames != []
  {
    Moved(d, TopFrame(d).(ip := at + 1, stack := under), d.store, Used(d, TopFrame(d).script) + 1)
  }

  /** `if`: the condition's code, IF over the `then` part, the `then` part, and behind it the
      place where both ways meet. The `then` part runs exactly when the condition holds, from a
      stack without the condition; otherwise the machine is at the meeting place at once. */
  lemma IfRunsThenPart(w: World, m: Machine, cond: nat, at: int, join: int, under: seq<Value>, v: Value, body: nat)
    requires Acyclic(w)
    requires var d := Run(w, m, cond);
             Stands(w, m, d, at, under + [v]) && TargetAt(w.scripts[TopFrame(d).script], at, 4, join)
    ensures var d := Run(w, m, cond);
            var f := TopFrame(d);
            if Holds(w, d, v) then Run(w, m, cond + 1 + body) == Run(w, Inside(d, at, under), body)
            else Run(w, m, cond + 1) ==
                   Moved(d, f.(ip := join, stack := under), d.store, Used(d, f.script) + 1)
  {
    hide Run, Step, Handle, Deref, Holds;
    var d := Run(w, m, cond);
    ConditionDecides(w, d, at, 4, join, under, v);
    assert under + [] == under;
    RunSplits(w, m, cond, 1);
    RunSplits(w, m, cond + 1, body);
  }

  /** `while`: condition, IF past the end, body, SET_INDEX back to the condition. When the body
      has come to its end the machine is back at the condition, its stack as it was. */
  lemma WhileGoesBack(w: World, m: Machine, cond: nat, at: int, start: int, end: int, back: int,
                      under: seq<Value>, v: Value, body: nat)
    requires Acyclic(w)
    requires var d := Run(w, m, cond);
             && Stands(w, m, d, at, under + [v]) && TargetAt(w.scripts[TopFrame(d).script], at, 4, end)
             && Holds(w, d, v)
    requires var b := Run(w, m, cond + 1 + body);
             Stands(w, m, b, back, under) && TargetAt(w.scripts[TopFrame(b).script], back, 1, start)
    ensures var d, b := Run(w, m, cond), Run(w, m, cond + 1 + body);
            && Run(w, Inside(d, at, under), body) == b
            && Run(w, m, cond + 1 + body + 1)
               == Moved(b, TopFrame(b).(ip := start), b.store, Used(b, TopFrame(b).script) + 1)
  {
    hide Run, Step, Handle, Deref, Holds, Stands;
    IfRunsThenPart(w, m, cond, at, end, under, v, body);
    var b := Run(w, m, cond + 1 + body);
    Standing(w, m, b, back, under);
    SetIndexGoes(w, b, back, start);
    RunSplits(w, m, cond + 1 + body, 1);
  }

  lemma Standing(w: World, base: Machine, m: Machine, at: int, stack: seq<Value>)
    requires Stands(w, base, m, at, stack)
    ensures Ready(w, m, at, 1) && TopFrame(m).stack == stack
  {
  }

  /** `a && b` and `a || b`: the first operand's code, AND or OR over the second's, the second's
      code, and the place where the ways meet. Whether the second runs, the first decides; and
      at the meeting place the stack has exactly one value more than before: `b`'s if it ran,
      and otherwise the truth of `a`. */
  lemma OneValueWhereWaysMeet(w: World, m: Machine, or: bool, first: nat, at: int, join: int,
                              under: seq<Value>, a: Value, second: nat, b: Value)
    requires Acyclic(w)
    requires var d := Run(w, m, first);
             && Stands(w, m, d, at, under + [a])
             && TargetAt(w.scripts[TopFrame(d).script], at, if or then 3 else 5, join)
             && (Holds(w, d, a) != or ==>
                   Stands(w, m, Run(w, Inside(d, at, under), second), join, under + [b]))
    ensures var decided := Holds(w, Run(w, m, first), a) == or;
            var r := Run(w, m, first + 1 + if decided then 0 else second);
            && r.frames != [] && TopFrame(r).ip == join
            && TopFrame(r).stack == under + [if decided then Flag(or) else b]
            && if decided then
                 var d := Run(w, m, first);
                 r == Moved(d, TopFrame(d).(ip := join, stack := under + [Flag(or)]), d.store,
                            Used(d, TopFrame(d).script) + 1)
               else r == Run(w, Inside(Run(w, m, first), at, under), second)
  {
    hide Run, Step, Handle, Deref, Holds;
    var d := Run(w, m, first);
    ConditionDecides(w, d, at, if or then 3 else 5, join, under, a);
    RunSplits(w, m, first, 1);
    if Holds(w, d, a) != or { RunSplits(w, m, first + 1, second); }
  }
}
