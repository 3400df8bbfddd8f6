/** A batch that the coordinator has run ends as its calls, run one by one, would end it. */
module BatchSerial {
  import opened Messages
  import opened Dependency
  import opened Batch
  import BatchParallel
  import opened Serializability

  // What happens during a batch, in the order of time: an event of the
  // coordinator, or one step of a tool.
  datatype Moment = Coordinated(event: BatchParallel.Event) | Stepped(call: nat)

  // The coordinator's history.
  function LogOf(ms: seq<Moment>): seq<BatchParallel.Event> {
    if ms == [] then []
    else LogOf(ms[..|ms| - 1]) + (if ms[|ms| - 1].Coordinated? then [ms[|ms| - 1].event] else [])
  }

  function StepsOf(ms: seq<Moment>): seq<nat> {
    if ms == [] then []
    else StepsOf(ms[..|ms| - 1]) + (if ms[|ms| - 1].Stepped? then [ms[|ms| - 1].call] else [])
  }

  // A worker steps its tool between the start of the call and its return; the
  // coordinator receives it after it has returned.
  ghost predicate Woven<L, V>(tools: seq<Tool<L, V>>, w: World<L, V>, ms: seq<Moment>) {
    ms != [] ==>
      var init, last := ms[..|ms| - 1], ms[|ms| - 1];
      && Woven(tools, w, init)
      && var now := Play(tools, w, StepsOf(init));
         && now.Some?
         && match last
            case Stepped(i) => Running(BatchParallel.ProgressOf(LogOf(init)), i) && StepOf(tools, now.value, i).Some?
            case Coordinated(Received(j, _)) => j < |tools| && j < |now.value.locals| && tools[j].done(now.value.locals[j])
            case Coordinated(_) => true
  }

  lemma {:induction false} WovenKeepsInv<L, V>(ps: seq<Prepared>, tools: seq<Tool<L, V>>, w: World<L, V>, ms: seq<Moment>)
    requires |tools| == |ps| == |w.locals|
    requires Woven(tools, w, ms) && BatchParallel.Legal(ps, LogOf(ms))
    ensures Play(tools, w, StepsOf(ms)).Some?
    ensures BehaviourInv(ps, tools, w, Config(BatchParallel.ProgressOf(LogOf(ms)), Play(tools, w, StepsOf(ms)).value), StepsOf(ms))
  {
    if ms != [] {
      var init, last := ms[..|ms| - 1], ms[|ms| - 1];
      var steps, log := StepsOf(init), LogOf(init);
      if last.Stepped? {
        assert LogOf(ms) == log;
        WovenKeepsInv(ps, tools, w, init);
        var c := Config(BatchParallel.ProgressOf(log), Play(tools, w, steps).value);
        var d := Config(c.progress, StepOf(tools, c.world, last.call).value);
        WorkKeepsInv(ps, tools, w, c, last.call, d, steps);
      } else {
        assert LogOf(ms)[..|log|] == log;
        assert StepsOf(ms) == steps;
        WovenKeepsInv(ps, tools, w, init);
        var c := Config(BatchParallel.ProgressOf(log), Play(tools, w, steps).value);
        var d := Config(BatchParallel.ProgressOf(LogOf(ms)), c.world);
        match last.event
        case Started(j) => ProgressKeepsInv(ps, tools, w, c, Event.Start(j), d, steps);
        case Received(j, _) => ProgressKeepsInv(ps, tools, w, c, Event.Finish(j), d, steps);
        case Noticed(_) =>
      }
    }
  }

  /** A batch that ExecuteParallel ran to its end, whatever was going on between the
      coordinator and its workers: store and results are those of the calls run
      one by one in source order. */
  lemma ExecutedBatchIsSerial<L(!new), V(!new)>(r: Result<BatchResult, Fault>, plan: BatchParallel.Plan, log: seq<BatchParallel.Event>,
                                                lives: seq<seq<CallEvent>>, tools: seq<Tool<L, V>>, w: World<L, V>, ms: seq<Moment>)
    requires BatchParallel.RanBatch(r, plan, log, lives) && r.Success?
    requires Disciplined(plan.ps, tools) && |w.locals| == |plan.ps|
    requires Woven(tools, w, ms) && LogOf(ms) == log
    ensures Play(tools, w, StepsOf(ms)).Some?
    ensures SerialRun(tools, w, |plan.ps|, Play(tools, w, StepsOf(ms)).value)
  {
    WovenKeepsInv(plan.ps, tools, w, ms);
    CompletedIsSerial(plan.ps, tools, w, Config(BatchParallel.ProgressOf(log), Play(tools, w, StepsOf(ms)).value), StepsOf(ms));
  }
}
