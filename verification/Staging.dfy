/** Roots staged for a later connection: every one is claimed or closed, once. */
module Staging {
  import opened Prelude

  /** Roots are objects, named by numbers; `closings` are the roots closed, in
      order, and `claimed` those handed to a connection. */
  datatype Process = Process(staged: map<string, nat>, closed: bool, closings: seq<nat>, claimed: set<nat>)

  function Staged(p: Process, sessionId: string, root: nat): (Process, bool) {
    if p.closed then (p.(closings := p.closings + [root]), false)
    else
      var p' := p.(staged := p.staged[sessionId := root]);
      if sessionId in p.staged && p.staged[sessionId] != root then (p'.(closings := p.closings
          + [p.staged[sessionId]]), true)
      else (p', true)
  }

  datatype Refusal = ProcessClosed

  /** A closed process refuses; a root that is not staged is no root. */
  function Claimed(p: Process, sessionId: string): (Process, Result<Option<nat>, Refusal>) {
    if p.closed then (p, Err(ProcessClosed))
    else if sessionId !in p.staged then (p, Ok(None))
    else
      var root := p.staged[sessionId];
      (p.(staged := p.staged - {sessionId}, claimed := p.claimed + {root}), Ok(Some(root)))
  }

  class HarnessProcess {
    var stagedRoots: map<string, nat>
    var isClosed: bool
    ghost var closings: seq<nat>
    ghost var claimed: set<nat>

    ghost function Model(): Process
      reads this
    {
      Process(stagedRoots, isClosed, closings, claimed)
    }

    constructor ()
      ensures Model() == Process(map[], false, [], {})
    {
      stagedRoots, isClosed, closings, claimed := map[], false, [], {};
    }

    method CloseAgentLoop(root: nat)
      modifies this`closings
      ensures closings == old(closings) + [root]
    {
      closings := closings + [root];
    }

    /** False: the process is closed, and the root with it. */
    method StageRoot(sessionId: string, root: nat) returns (staged: bool)
      modifies this
      ensures (Model(), staged) == Staged(old(Model()), sessionId, root)
    {
      var superseded := None;
      if isClosed {
        superseded := Some(root);
      } else {
        if sessionId in stagedRoots { superseded := Some(stagedRoots[sessionId]); }
        stagedRoots := stagedRoots[sessionId := root];
      }
      if superseded.Some? && superseded.value != root { CloseAgentLoop(superseded.value); }
      if isClosed {
        if superseded == Some(root) { CloseAgentLoop(root); }
        return false;
      }
      return true;
    }

    method ClaimStagedRoot(sessionId: string) returns (r: Result<Option<nat>, Refusal>)
      modifies this
      ensures (Model(), r) == Claimed(old(Model()), sessionId)
    {
      if isClosed { return Err(ProcessClosed); }
      if sessionId !in stagedRoots { return Ok(None); }
      var root := stagedRoots[sessionId];
      claimed := claimed + {root};
      stagedRoots := stagedRoots - {sessionId};
      return Ok(Some(root));
    }

    /** Closes what is staged, in some order; a second time it does nothing. */
    method Close()
      requires forall s, t :: s in stagedRoots && t in stagedRoots && stagedRoots[s] == stagedRoots[t] ==> s == t
      modifies this
      ensures isClosed && claimed == old(claimed)
      ensures old(isClosed) ==> Model() == old(Model())
      ensures !old(isClosed) ==> ClosedAll(old(Model()), Model())
    {
      if isClosed { return; }
      isClosed := true;
      var left := stagedRoots.Values;
      stagedRoots := map[];
      ghost var closedNow: seq<nat> := [];
      while left != {}
        invariant isClosed && stagedRoots == map[] && claimed == old(claimed)
        invariant left <= old(stagedRoots).Values
        invariant closings == old(closings) + closedNow
        invariant forall n :: n in closedNow <==> n in old(stagedRoots).Values - left
        invariant forall i, j :: 0 <= i < j < |closedNow| ==> closedNow[i] != closedNow[j]
        decreases |left|
      {
        var root :| root in left;
        CloseAgentLoop(root);
        closedNow := closedNow + [root];
        left := left - {root};
      }
      assert AllOnce(closedNow, old(stagedRoots).Values);
    }
  }

  ghost predicate AllOnce(ns: seq<nat>, all: set<nat>) {
    && (forall n :: n in ns <==> n in all)
    && (forall i, j :: 0 <= i < j < |ns| ==> ns[i] != ns[j])
  }

  /** Closed: nothing staged, and each staged root closed, once. */
  ghost predicate ClosedAll(p: Process, q: Process) {
    && q.closed && q.staged == map[] && q.claimed == p.claimed
    && |p.closings| <= |q.closings| && q.closings[..|p.closings|] == p.closings
    && AllOnce(q.closings[|p.closings|..], p.staged.Values)
  }

  // ---- over whole runs -----------------------------------------------------

  datatype Step = Stage(sessionId: string, root: nat) | Claim(sessionId: string) | Close

  /** `offered` are the roots given to the process so far; every one is new. */
  datatype World = World(process: Process, offered: set<nat>)

  ghost predicate Next(w: World, step: Step, w': World) {
    match step
    case Stage(sessionId, root) =>
      root !in w.offered && w' == World(Staged(w.process, sessionId, root).0, w.offered + {root})
    case Claim(sessionId) => w' == w.(process := Claimed(w.process, sessionId).0)
    case Close => w'.offered == w.offered && (if w.process.closed then w' == w else ClosedAll(w.process, w'.process))
  }

  ghost predicate Runs(ws: seq<World>, steps: seq<Step>) {
    |ws| == |steps| + 1 && forall i :: 0 <= i < |steps| ==> Next(ws[i], steps[i], ws[i + 1])
  }

  ghost predicate Once(ns: seq<nat>) { forall i, j :: 0 <= i < j < |ns| ==> ns[i] != ns[j] }

  /** Every root offered is staged, claimed or closed, and only one of these. */
  ghost predicate Inv(w: World) {
    var p := w.process;
    && Once(p.closings)
    && (forall s, t :: s in p.staged && t in p.staged && p.staged[s] == p.staged[t] ==> s == t)
    && (forall n :: n in w.offered <==> n in p.staged.Values || n in p.claimed || n in p.closings)
    && (forall n :: n in p.claimed ==> n !in p.staged.Values && n !in p.closings)
    && (forall n :: n in p.staged.Values ==> n !in p.closings)
    && (p.closed ==> p.staged == map[])
  }

  lemma ValuesOf(m: map<string, nat>, k: string, v: nat)
    requires forall s, t :: s in m && t in m && m[s] == m[t] ==> s == t
    ensures forall n :: n in m[k := v].Values <==> n == v || (n in m.Values && !(k in m && m[k] == n))
    ensures forall n :: n in (m - {k}).Values <==> n in m.Values && !(k in m && m[k] == n)
  {
    forall n ensures n in m[k := v].Values <==> n == v || (n in m.Values && !(k in m && m[k] == n)) {
      if n in m.Values { var s :| s in m && m[s] == n; if s != k { assert m[k := v][s] == n; } }
      assert m[k := v][k] == v;
    }
    forall n ensures n in (m - {k}).Values <==> n in m.Values && !(k in m && m[k] == n) {
      if n in m.Values { var s :| s in m && m[s] == n; if s != k { assert (m - {k})[s] == n; } }
    }
  }

  lemma OnceMore(ns: seq<nat>, n: nat)
    requires Once(ns) && n !in ns
    ensures Once(ns + [n])
  {
  }

  lemma CloseKeeps(w: World, w': World)
    requires Inv(w) && !w.process.closed && w'.offered == w.offered && ClosedAll(w.process, w'.process)
    ensures Inv(w')
  {
    var p, q := w.process, w'.process;
    var later := q.closings[|p.closings|..];
    assert q.closings == p.closings + later;
    forall n ensures n in q.closings <==> n in p.closings || n in later { }
    forall i, j | 0 <= i < j < |q.closings| ensures q.closings[i] != q.closings[j] {
      if i < |p.closings| <= j {
        assert q.closings[j] == later[j - |p.closings|] && q.closings[j] in p.staged.Values;
        assert p.closings[i] in p.closings;
      } else if i >= |p.closings| {
        assert later[i - |p.closings|] != later[j - |p.closings|];
      }
    }
  }

  lemma StepKeeps(w: World, step: Step, w': World)
    requires Inv(w) && Next(w, step, w')
    ensures Inv(w')
  {
    var p := w.process;
    match step {
      case Stage(sessionId, root) =>
        ValuesOf(p.staged, sessionId, root);
        if p.closed { OnceMore(p.closings, root); }
        else if sessionId in p.staged {
          assert p.staged[sessionId] in p.staged.Values;
          OnceMore(p.closings, p.staged[sessionId]);
        }
      case Claim(sessionId) => ValuesOf(p.staged, sessionId, 0);
      case Close => if !p.closed { CloseKeeps(w, w'); }
    }
  }

  /** Main result: under any interleaving of staging, superseding, claiming and
      closing, every root is staged, claimed or closed, never two of these and
      never closed twice; and once the process is closed none is left staged. */
  lemma {:induction false} EveryRootOnce(ws: seq<World>, steps: seq<Step>, k: nat)
    requires Runs(ws, steps) && ws[0] == World(Process(map[], false, [], {}), {}) && k < |ws|
    ensures Inv(ws[k])
    decreases k
  {
    if k > 0 {
      EveryRootOnce(ws, steps, k - 1);
      StepKeeps(ws[k - 1], steps[k - 1], ws[k]);
    }
  }

  // ---- which root an id stands for -----------------------------------------

  predicate ClosedBy(steps: seq<Step>, k: nat)
    requires k <= |steps|
  {
    exists j :: 0 <= j < k && steps[j].Close?
  }

  /** The root staged last for an id before step k, unless it was claimed since or
      the process closed. */
  function Latest(steps: seq<Step>, k: nat, sessionId: string): Option<nat>
    requires k <= |steps|
  {
    if k == 0 then None
    else match steps[k - 1]
      case Close => None
      case Claim(id) => if id == sessionId then None else Latest(steps, k - 1, sessionId)
      case Stage(id, root) =>
        if id == sessionId && !ClosedBy(steps, k - 1) then Some(root) else Latest(steps, k - 1, sessionId)
  }

  /** Main result: over any run a claim gives the root staged last for its id, once,
      and none when there is none; staging closes the root it takes the place of,
      or on a closed process its own, and no other. */
  lemma {:induction false} StagedIsLatest(ws: seq<World>, steps: seq<Step>, k: nat, sessionId: string)
    requires Runs(ws, steps) && ws[0] == World(Process(map[], false, [], {}), {}) && k < |ws|
    ensures var p, latest := ws[k].process, Latest(steps, k, sessionId);
            && (p.closed <==> ClosedBy(steps, k))
            && (p.closed ==> p.staged == map[])
            && (sessionId in p.staged <==> latest.Some?)
            && (latest.Some? ==> p.staged[sessionId] == latest.value)
            && Claimed(p, sessionId).1 == (if ClosedBy(steps, k) then Err(ProcessClosed) else Ok(latest))
            && forall root :: root !in ws[k].offered ==>
                 && Staged(p, sessionId, root).1 == !ClosedBy(steps, k)
                 && Staged(p, sessionId, root).0.closings
                    == p.closings + if ClosedBy(steps, k) then [root]
                                    else if latest.Some? then [latest.value] else []
    decreases k
  {
    EveryRootOnce(ws, steps, k);
    if k > 0 {
      StagedIsLatest(ws, steps, k - 1, sessionId);
      assert Next(ws[k - 1], steps[k - 1], ws[k]);
      if ClosedBy(steps, k - 1) { var j :| 0 <= j < k - 1 && steps[j].Close?; assert ClosedBy(steps, k); }
      if steps[k - 1].Close? { assert ClosedBy(steps, k); }
      if ClosedBy(steps, k) && !steps[k - 1].Close? {
        var j :| 0 <= j < k && steps[j].Close?;
        assert ClosedBy(steps, k - 1);
      }
    }
    forall root | root !in ws[k].offered
      ensures sessionId in ws[k].process.staged ==> ws[k].process.staged[sessionId] != root
    {
      if sessionId in ws[k].process.staged {
        assert ws[k].process.staged[sessionId] in ws[k].process.staged.Values;
      }
    }
    assert ws[k].process.closings + [] == ws[k].process.closings;
  }
}
