/** Manual shell commands and their interruption: no interrupt that is accepted
    is lost, and nothing of an operation is left behind. */
module Shell {
  import opened Prelude

  datatype Response = Response(exitCode: int, timedOut: bool, interrupted: bool)

  datatype Controller = Controller(operations: set<string>, processes: set<string>, interrupted: set<string>)

  function Begun(c: Controller, id: string): Controller { c.(operations := c.operations + {id}) }

  function WithProcess(c: Controller, id: string): Controller { c.(processes := c.processes + {id}) }

  function Interrupted(c: Controller, id: string): Controller {
    if id in c.operations then c.(interrupted := c.interrupted + {id}) else c
  }

  function Dropped(c: Controller, id: string): Controller {
    Controller(c.operations - {id}, c.processes - {id}, c.interrupted - {id})
  }

  function Report(c: Controller, id: string, returnCode: int, timedOut: bool): Response {
    Response(if timedOut || id in c.interrupted then 1 else returnCode, timedOut, id in c.interrupted)
  }

  class ShellController {
    var operations: set<string>
    var processes: set<string>
    var interrupted: set<string>

    function Model(): Controller
      reads this
    {
      Controller(operations, processes, interrupted)
    }

    constructor ()
      ensures Model() == Controller({}, {}, {})
    {
      operations, processes, interrupted := {}, {}, {};
    }

    /** Up to the spawn; an id in use is refused. */
    method Begin(id: string) returns (ok: bool)
      modifies this
      ensures ok <==> id !in old(operations)
      ensures Model() == if ok then Begun(old(Model()), id) else old(Model())
    {
      if id in operations { return false; }
      operations := operations + {id};
      return true;
    }

    /** The process exists; it is killed at once if an interrupt came before it. */
    method Spawned(id: string) returns (kill: bool)
      modifies this
      ensures Model() == WithProcess(old(Model()), id) && (kill <==> id in interrupted)
    {
      processes := processes + {id};
      kill := id in interrupted;
    }

    /** Whether the operation is there to be interrupted, and has a process to kill. */
    method Interrupt(id: string) returns (accepted: bool, kill: bool)
      modifies this
      ensures accepted <==> id in old(operations)
      ensures kill <==> accepted && id in old(processes)
      ensures Model() == Interrupted(old(Model()), id)
    {
      if id !in operations { return false, false; }
      interrupted := interrupted + {id};
      return true, id in processes;
    }

    /** The end of the coroutine, whether it returns or raises. */
    method Finish(id: string, returnCode: int, timedOut: bool) returns (r: Response)
      modifies this
      ensures r == Report(old(Model()), id, returnCode, timedOut) && Model() == Dropped(old(Model()), id)
    {
      var wasInterrupted := id in interrupted;
      interrupted := interrupted - {id};
      processes := processes - {id};
      operations := operations - {id};
      return Response(if timedOut || wasInterrupted then 1 else returnCode, timedOut, wasInterrupted);
    }

    method Close()
      modifies this
      ensures Model() == old(Model()).(interrupted := old(interrupted) + operations)
    {
      var left := operations;
      while left != {}
        invariant operations == old(operations) && processes == old(processes)
        invariant left <= operations && interrupted == old(interrupted) + (operations - left)
        decreases |left|
      {
        var id :| id in left;
        var _, _ := Interrupt(id);
        left := left - {id};
      }
    }
  }

  // ---- over whole runs -----------------------------------------------------

  /** Where an operation's coroutine is: before its process exists, with it, or
      after it is over; `timedOut` if the wait ran out. */
  datatype Stage = Spawning | Waiting | Ended(returnCode: int, timedOut: bool)

  datatype World = World(controller: Controller, stages: map<string, Stage>)

  const IDLE := World(Controller({}, {}, {}), map[])

  datatype Step =
    | Run(id: string)
    | Spawn(id: string)                                     // the process exists
    | SpawnFails(id: string)                                // the run raises
    | Exit(id: string, returnCode: int, timedOut: bool)     // exited, or killed
    | Fail(id: string)                                      // the run is cancelled and raises
    | Return(id: string)
    | Interrupt(id: string)

  function Gone(w: World, id: string): World { World(Dropped(w.controller, id), w.stages - {id}) }

  /** None where the step is impossible; a run of a taken id and an interrupt of
      an absent one are possible and do nothing. */
  function Next(w: World, step: Step): Option<World> {
    var c := w.controller;
    match step
    case Run(id) => Some(if id in c.operations then w else World(Begun(c, id), w.stages[id := Spawning]))
    case Spawn(id) =>
      if id in w.stages && w.stages[id].Spawning? then Some(World(WithProcess(c, id), w.stages[id := Waiting]))
          else None
    case SpawnFails(id) => if id in w.stages && w.stages[id].Spawning? then Some(Gone(w, id)) else None
    case Exit(id, code, timedOut) =>
      if id in w.stages && w.stages[id].Waiting? then Some(w.(stages := w.stages[id := Ended(code, timedOut)]))
          else None
    case Fail(id) => if id in w.stages then Some(Gone(w, id)) else None
    case Return(id) => if id in w.stages && w.stages[id].Ended? then Some(Gone(w, id)) else None
    case Interrupt(id) => Some(w.(controller := Interrupted(c, id)))
  }

  /** What the run with this id reports if it returns now. */
  function Reported(w: World, id: string): Response
    requires id in w.stages && w.stages[id].Ended?
  {
    Report(w.controller, id, w.stages[id].returnCode, w.stages[id].timedOut)
  }

  function After(steps: seq<Step>): Option<World> {
    if steps == [] then Some(IDLE)
    else match After(steps[..|steps| - 1]) case None => None case Some(w) => Next(w, steps[|steps| - 1])
  }

  predicate Ends(step: Step, id: string) { step == SpawnFails(id) || step == Fail(id) || step == Return(id) }

  /** The step at j is an accepted interrupt, and the operation has not ended since. */
  predicate AcceptedAt(steps: seq<Step>, id: string, j: nat) {
    j < |steps| && steps[j] == Interrupt(id) && Live(steps[..j], id)
        && forall k :: j < k < |steps| ==> !Ends(steps[k], id)
  }

  /** An interrupt of this id was accepted since its operation last began. */
  predicate AcceptedSince(steps: seq<Step>, id: string) {
    exists j: nat :: j < |steps| && AcceptedAt(steps, id, j)
  }

  predicate Live(steps: seq<Step>, id: string) {
    After(steps).Some? && id in After(steps).value.controller.operations
  }

  lemma AcceptedAtSnoc(front: seq<Step>, last: Step, id: string, j: nat)
    requires j <= |front|
    ensures j < |front| ==> (AcceptedAt(front + [last], id, j) <==> AcceptedAt(front, id, j) && !Ends(last, id))
    ensures j == |front| ==> (AcceptedAt(front + [last], id, j) <==> last == Interrupt(id) && Live(front, id))
  {
    hide Live, Ends;
    var steps, n := front + [last], |front|;
    assert steps[..j] == front[..j] && front[..n] == front && steps[n] == last;
    if j < n {
      assert steps[j] == front[j];
      assert forall k :: j < k < n ==> steps[k] == front[k];
    }
  }

  lemma AcceptedSnoc(front: seq<Step>, last: Step, id: string)
    ensures AcceptedSince(front + [last], id)
       <==> (AcceptedSince(front, id) && !Ends(last, id)) || (last == Interrupt(id) && Live(front, id))
  {
    hide AcceptedAt, Live, Ends;
    forall j: nat | j <= |front|
      ensures j < |front| ==> (AcceptedAt(front + [last], id, j) <==> AcceptedAt(front, id, j) && !Ends(last, id))
      ensures j == |front| ==> (AcceptedAt(front + [last], id, j) <==> last == Interrupt(id) && Live(front, id))
    {
      AcceptedAtSnoc(front, last, id, j);
    }
    if AcceptedSince(front, id) && !Ends(last, id) {
      var j: nat :| j < |front| && AcceptedAt(front, id, j);
      assert AcceptedAt(front + [last], id, j);
    }
    if last == Interrupt(id) && Live(front, id) { assert AcceptedAt(front + [last], id, |front|); }
    if AcceptedSince(front + [last], id) {
      var j: nat :| j < |front + [last]| && AcceptedAt(front + [last], id, j);
      if j < |front| { assert AcceptedAt(front, id, j); }
    }
  }

  lemma {:induction false} FlagIsAccepted(steps: seq<Step>, id: string)
    requires After(steps).Some?
    ensures var c := After(steps).value.controller;
            && c.operations == After(steps).value.stages.Keys && c.processes <= c.operations
                && c.interrupted <= c.operations
            && (id in c.interrupted <==> AcceptedSince(steps, id))
    decreases |steps|
  {
    hide AcceptedSince;
    if steps == [] {
      assert !AcceptedSince([], id) by { NothingAccepted(id); }
    } else {
      var front, last := steps[..|steps| - 1], steps[|steps| - 1];
      assert steps == front + [last];
      FlagIsAccepted(front, id);
      AcceptedSnoc(front, last, id);
    }
  }

  lemma NothingAccepted(id: string)
    ensures !AcceptedSince([], id)
  {
  }

  /** Main result: for every interleaving of spawns, exits, time-outs, failures
      and interrupts, a run that returns reports that it was interrupted, and
      then exit code 1, exactly when an interrupt of it was accepted; and however
      it ends, nothing of it is left, so its id can be used afresh. */
  lemma NoInterruptLost(steps: seq<Step>, id: string, ending: Step)
    requires After(steps).Some? && Ends(ending, id) && Next(After(steps).value, ending).Some?
    ensures var w := After(steps).value;
            && (ending.Return? ==>
                  var r := Reported(w, id);
                  && (r.interrupted <==> AcceptedSince(steps, id))
                  && (r.interrupted || r.timedOut ==> r.exitCode == 1)
                  && (!r.interrupted && !r.timedOut ==> r.exitCode == w.stages[id].returnCode))
            && var d := Next(w, ending).value;
               id !in d.controller.operations && id !in d.controller.processes && id !in d.controller.interrupted
               && id !in d.stages && Next(d, Run(id)).value.stages == d.stages[id := Spawning]
  {
    FlagIsAccepted(steps, id);
  }
}
