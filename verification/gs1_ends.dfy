/** Every suspended GS1 execution ends: from any configuration at all, reachable or not, the
    machine of Gs1Machine comes to a halt. */
module Gs1Ends {
  import opened Gs1Ast
  import opened Gs1Runtime
  import opened Gs1Exec
  import opened Gs1Machine
  import opened Gs1Simulation

  /** An outcome works its way through one frame, whatever that frame is. */
  lemma FrameEnds(c: Cfg, o: Outcome, f: Frame, k: Kont, st: St) returns (o': Outcome, st': St)
    ensures Reaches(c, Config(Done(o), Push(f, k), st), Config(Done(o'), k, st'))
  {
    var a := Config(Done(o), Push(f, k), st);
    match f
    case Rest(body) =>
      if o.Threw? || body == [] {
        o', st' := o, st;
        OneStep(c, a);
      } else {
        SimBlock(c, body, k, st);
        o', st' := ExecBlock(c, body, st).0, ExecBlock(c, body, st).1;
        assert Step(c, a) == Step(c, Enter(body, k, st));
      }
    case InWhile(s, it) =>
      if o != Threw(BreakS) && Continues(o) {
        SimWhile(c, s, it, k, st);
        o', st' := ExecWhile(c, s, it, st).0, LeaveLoop(ExecWhile(c, s, it, st).1);
        Stepping(c, a, Config(Done(o'), k, st'));
      } else {
        o', st' := if o == Threw(BreakS) then Normal else o, LeaveLoop(st);
        OneStep(c, a);
      }
    case InFor(s, it) =>
      if o != Threw(BreakS) && Continues(o) {
        o', st' := IterationEnds(c, s, it, k, st);
        Stepping(c, a, Config(Done(o'), k, st'));
      } else {
        o', st' := if o == Threw(BreakS) then Normal else o, LeaveLoop(st);
        OneStep(c, a);
      }
    case TopLevel(rest, event) =>
      if Swallow(o).Threw? {
        o', st' := o, st;
        OneStep(c, a);
      } else {
        SimTop(c, rest, event, k, st);
        var (o1, st1) := ExecTop(c, rest, st);
        var r := if o1.Threw? then (o1, st1) else FireEvent(c, event, st1);
        o', st' := r.0, r.1;
        Stepping(c, a, Finish(r, k));
      }
    case _ =>
      o', st' := Step(c, a).control.o, Step(c, a).st;
      OneStep(c, a);
  }

  lemma IterationEnds(c: Cfg, s: ForStmt, it: nat, k: Kont, st: St) returns (o': Outcome, st': St)
    ensures Reaches(c, NextIteration(c, s, it, k, st), Config(Done(o'), k, st'))
  {
    var (o, st1) := if it == 0 then (Normal, st) else ExecHook(c, s.post, st);
    if o.Threw? {
      o', st' := o, LeaveLoop(st1);
      Here(c, NextIteration(c, s, it, k, st));
    } else {
      SimFor(c, s, it, k, st1);
      o', st' := ExecFor(c, s, it, st1).0, LeaveLoop(ExecFor(c, s, it, st1).1);
    }
  }

  lemma {:induction false} OutcomeEnds(c: Cfg, o: Outcome, k: Kont, st: St)
    ensures exists n: nat :: Final(Run(c, Config(Done(o), k, st), n))
    decreases k
  {
    var a := Config(Done(o), k, st);
    if k.Stop? {
      assert Final(Run(c, a, 0));
    } else {
      var o', st' := FrameEnds(c, o, k.frame, k.below, st);
      OutcomeEnds(c, o', k.below, st');
      Extend(c, a, Config(Done(o'), k.below, st'));
    }
  }

  lemma Extend(c: Cfg, a: Config, b: Config)
    requires Reaches(c, a, b)
    requires exists n: nat :: Final(Run(c, b, n))
    ensures exists n: nat :: Final(Run(c, a, n))
  {
    var m: nat :| Run(c, a, m) == b;
    var n: nat :| Final(Run(c, b, n));
    RunSplit(c, a, m, n);
  }

  /** Any configuration at all ends: whatever other events did to the context while the
      execution was suspended, resuming it often enough finishes it. */
  lemma {:induction false} EveryExecutionEnds(c: Cfg, g: Config)
    ensures exists n: nat :: Final(Run(c, g, n))
  {
    match g.control
    case Done(o) => OutcomeEnds(c, o, g.kont, g.st);
    case Start(s) =>
      var (o, st) := Exec(c, s, g.st);
      SimExec(c, s, g.kont, g.st);
      OutcomeEnds(c, o, g.kont, st);
      Extend(c, g, Config(Done(o), g.kont, st));
    case Wake(s) =>
      var (o, st) := ExecBody(c, s, g.st.(steps := 1));
      SimBody(c, s, g.kont, g.st.(steps := 1));
      OutcomeEnds(c, o, g.kont, st);
      Stepping(c, g, Config(Done(o), g.kont, st));
      Extend(c, g, Config(Done(o), g.kont, st));
  }
}
