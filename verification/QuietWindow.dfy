/** Automatic self-refresh needs an unbroken idle window: any activity starts it anew. */
module QuietWindow {
  import opened ProtocolEngine
  import opened EngineInvariant
  import Core

  /** In this cycle the ready engine is in IDLE, no refresh is due and no command is waiting. */
  predicate QuietAt(cfg: Core.Config, trace: seq<Core.State>, inputs: seq<Core.Inputs>, j: nat)
    requires j < |inputs| < |trace|
  {
    var c := trace[j];
    && c.init.ready && c.engine.state.Idle? && c.engine.refCnt >= cfg.engine.refreshUrgent
    && !inputs[j].wires.cmdAvailable && !inputs[j].reset
  }

  /** The last d cycles before n were quiet. */
  predicate QuietFor(cfg: Core.Config, trace: seq<Core.State>, inputs: seq<Core.Inputs>, n: nat, d: int)
    requires n <= |inputs| < |trace|
  {
    d <= n && forall j: nat :: n - d <= j < n ==> QuietAt(cfg, trace, inputs, j)
  }

  /** What the idle counter and the request say about the cycles before n. */
  predicate WindowSeen(cfg: Core.Config, trace: seq<Core.State>, inputs: seq<Core.Inputs>, n: nat)
    requires n <= |inputs| < |trace|
  {
    trace[n].init.ready ==>
      && 0 <= trace[n].engine.idleQuiet && QuietFor(cfg, trace, inputs, n, trace[n].engine.idleQuiet)
      && (trace[n].engine.autoReq ==> QuietFor(cfg, trace, inputs, n, cfg.engine.autoIdle + 1))
  }

  lemma QuietEdge(cfg: Config, s: Registers, i: Inputs, quiet: bool)
    requires cfg.Valid() && Inv(cfg, s) && !i.reset && 0 <= s.idleQuiet
    requires quiet == (i.ready && s.state.Idle? && s.refCnt >= cfg.refreshUrgent && !i.cmdAvailable)
    ensures var t := Step(cfg, s, i);
      && 0 <= t.idleQuiet <= (if quiet then s.idleQuiet + 1 else 0)
      && (t.autoReq ==> quiet && s.idleQuiet >= cfg.autoIdle)
  {
    StepEdges(cfg, s, i);
  }

  lemma UnreadyEdge(cfg: Config, s: Registers, i: Inputs)
    requires !i.reset && !i.ready
    ensures Step(cfg, s, i).idleQuiet == 0 && !Step(cfg, s, i).autoReq
  {
    StepEdges(cfg, s, i);
  }

  lemma QuietGrows(cfg: Core.Config, trace: seq<Core.State>, inputs: seq<Core.Inputs>, n: nat, d: nat, e: nat)
    requires n < |inputs| < |trace| && QuietFor(cfg, trace, inputs, n, d) && QuietAt(cfg, trace, inputs, n) && e <= d + 1
    ensures QuietFor(cfg, trace, inputs, n + 1, e)
  {
  }

  lemma NextSeen(cfg: Core.Config, trace: seq<Core.State>, inputs: seq<Core.Inputs>, n: nat)
    requires cfg.Valid() && Core.IsTrace(cfg, trace, inputs) && n < |inputs| && WindowSeen(cfg, trace, inputs, n)
    ensures WindowSeen(cfg, trace, inputs, n + 1)
  {
    Core.TraceFits(cfg, trace, inputs, n);
    assert trace[n + 1] == Core.Step(cfg, trace[n], inputs[n]);
    if trace[n + 1].init.ready {
      var s := trace[n].engine;
      var wires := Core.EngineInputs(trace[n], inputs[n]);
      if trace[n].init.ready {
        QuietEdge(cfg.engine, s, wires, QuietAt(cfg, trace, inputs, n));
        if QuietAt(cfg, trace, inputs, n) {
          QuietGrows(cfg, trace, inputs, n, s.idleQuiet, trace[n + 1].engine.idleQuiet);
          if trace[n + 1].engine.autoReq {
            QuietGrows(cfg, trace, inputs, n, s.idleQuiet, cfg.engine.autoIdle + 1);
          }
        }
      } else {
        UnreadyEdge(cfg.engine, s, wires);
      }
    }
  }

  lemma {:induction false} RunSeen(cfg: Core.Config, trace: seq<Core.State>, inputs: seq<Core.Inputs>, n: nat)
    requires cfg.Valid() && Core.IsTrace(cfg, trace, inputs) && n <= |inputs|
    ensures WindowSeen(cfg, trace, inputs, n)
  {
    if n > 0 {
      RunSeen(cfg, trace, inputs, n - 1);
      NextSeen(cfg, trace, inputs, n - 1);
    }
  }

  /** On every run, a request means that the whole idle window, and one cycle more, was quiet without a break. */
  lemma RequestNeedsQuiet(cfg: Core.Config, trace: seq<Core.State>, inputs: seq<Core.Inputs>, n: nat, j: nat)
    requires cfg.Valid() && Core.IsTrace(cfg, trace, inputs) && n <= |inputs|
    requires trace[n].init.ready && trace[n].engine.autoReq && n - cfg.engine.autoIdle - 1 <= j < n
    ensures cfg.engine.autoIdle < n && QuietAt(cfg, trace, inputs, j)
  {
    RunSeen(cfg, trace, inputs, n);
  }
}
