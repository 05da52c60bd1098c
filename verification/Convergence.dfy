/** Nothing gets stuck: a client in step always can catch up, and a client that
    attaches always can get in step. */
module Convergence {
  import opened Prelude
  import opened Mirror
  import opened Session
  import opened Replication

  lemma {:induction false} RunConcat(s: System, a: seq<Transition>, b: seq<Transition>)
    requires Replication.Run(s, a).Some?
    ensures Replication.Run(s, a + b) == Replication.Run(Replication.Run(s, a).value, b)
    decreases |a|
  {
    hide Replication.Next;
    if a == [] {
      assert a + b == b;
    } else {
      assert (a + b)[0] == a[0] && (a + b)[1..] == a[1..] + b;
      RunConcat(Replication.Next(s, a[0]).value, a[1..], b);
    }
  }

  lemma RunFirst(s: System, step: Transition, rest: seq<Transition>)
    requires Replication.Next(s, step).Some?
    ensures Replication.Run(s, [step] + rest) == Replication.Run(Replication.Next(s, step).value, rest)
  {
    hide Replication.Next;
    assert ([step] + rest)[0] == step && ([step] + rest)[1..] == rest;
  }

  /** Some transitions lead from one state to the other, the server as it was. */
  ghost predicate Leads(s: System, steps: seq<Transition>, t: System) {
    Replication.Run(s, steps) == Some(t) && t.server == s.server && Inv(t)
  }

  lemma LeadsFirst(s: System, step: Transition, rest: seq<Transition>, t: System)
    requires Inv(s) && Replication.Next(s, step).Some? && Replication.Next(s, step).value.server == s.server
    requires Leads(Replication.Next(s, step).value, rest, t)
    ensures Leads(s, [step] + rest, t)
  {
    hide Replication.Next, Inv;
    RunFirst(s, step, rest);
  }

  lemma LeadsOn(s: System, a: seq<Transition>, t: System, b: seq<Transition>, u: System)
    requires Leads(s, a, t) && Leads(t, b, u)
    ensures Leads(s, a + b, u)
  {
    hide Inv, Replication.Run;
    RunConcat(s, a, b);
  }

  lemma LeadsNowhere(s: System)
    requires Inv(s)
    ensures Leads(s, [], s)
  {
  }

  // ---- numbering, flushing, delivering -------------------------------------

  lemma EmitOne(s: System)
    requires Inv(s) && s.unsent != []
    ensures var t := Replication.Next(s, Emit);
            && t.Some? && Inv(t.value) && t.value.server == s.server && t.value.stage == s.stage
            && t.value.unsent == s.unsent[1..] && t.value.view == s.view
            && t.value.router.attaching == s.router.attaching && t.value.router.attached == s.router.attached
            && (s.router.attaching || s.router.attached || t.value.channel == s.channel)
  {
    hide Replication.Next, InOrder, Reaches, Coming;
    NextEmit(s);
    EmitKeeps(s);
    EmitStreams(s);
  }

  lemma {:induction false} EmitAll(s: System) returns (steps: seq<Transition>, t: System)
    requires Inv(s)
    ensures Leads(s, steps, t) && t.unsent == [] && t.stage == s.stage && t.view == s.view
    ensures t.router.attaching == s.router.attaching && t.router.attached == s.router.attached
    decreases |s.unsent|
  {
    hide Inv, Leads, Replication.Next;
    if s.unsent == [] {
      steps, t := [], s;
      LeadsNowhere(s);
    } else {
      EmitOne(s);
      var rest;
      rest, t := EmitAll(Replication.Next(s, Emit).value);
      LeadsFirst(s, Emit, rest, t);
      steps := [Emit] + rest;
    }
  }

  function Unflushed(s: System): nat {
    (if s.stage.Flushing? then |s.stage.batch| + 1 else 0) + 2 * |s.router.pending|
  }

  /** The next step of a flush that is under way. */
  function FlushStep(s: System): Transition
    requires s.stage.Flushing?
  {
    if s.stage.batch != [] then FlushSend else if s.router.pending != [] then FlushTake else FlushDone
  }

  lemma FlushOne(s: System)
    requires Inv(s) && s.stage.Flushing?
    ensures var t := Replication.Next(s, FlushStep(s));
            && t.Some? && Inv(t.value) && t.value.server == s.server && t.value.unsent == s.unsent
                && t.value.view == s.view
            && Unflushed(t.value) < Unflushed(s)
            && (t.value.stage.Flushing? || (t.value.stage.Settled? && t.value.router.attached))
  {
    hide InOrder, Reaches;
    FlushKeeps(s, FlushStep(s));
  }

  lemma {:induction false} FlushAll(s: System) returns (steps: seq<Transition>, t: System)
    requires Inv(s) && s.unsent == [] && (s.stage.Flushing? || Attached(s))
    ensures Leads(s, steps, t) && t.unsent == [] && Attached(t) && t.view == s.view
    decreases Unflushed(s)
  {
    hide Inv, Leads, Replication.Next, Unflushed, FlushStep;
    if s.stage.Flushing? {
      FlushOne(s);
      var step, rest := FlushStep(s), [];
      rest, t := FlushAll(Replication.Next(s, step).value);
      LeadsFirst(s, step, rest, t);
      steps := [step] + rest;
    } else {
      steps, t := [], s;
      LeadsNowhere(s);
    }
  }

  lemma DeliverOne(s: System)
    requires Inv(s) && s.channel != []
    ensures var t := Replication.Next(s, Deliver);
            && t.Some? && Inv(t.value) && t.value.server == s.server && t.value.unsent == s.unsent
            && t.value.stage == s.stage && t.value.router == s.router && t.value.view == s.view
            && t.value.channel == s.channel[1..]
  {
    hide InOrder, Reaches;
    DeliverKeeps(s);
  }

  lemma {:induction false} DeliverAll(s: System) returns (steps: seq<Transition>, t: System)
    requires Inv(s) && s.unsent == [] && Attached(s)
    ensures Leads(s, steps, t) && t.unsent == [] && t.channel == [] && Attached(t) && t.view == s.view
    decreases |s.channel|
  {
    hide Inv, Leads, Replication.Next;
    if s.channel == [] {
      steps, t := [], s;
      LeadsNowhere(s);
    } else {
      DeliverOne(s);
      var rest;
      rest, t := DeliverAll(Replication.Next(s, Deliver).value);
      LeadsFirst(s, Deliver, rest, t);
      steps := [Deliver] + rest;
    }
  }

  // ---- the theorems --------------------------------------------------------

  /** The client shows the server's session, turn and history from its first
      loaded entry on, and the open callbacks when that part held those in
      progress; and it has taken the last number given. */
  ghost predicate Exact(t: System) {
    && t.client.state.sessionId == t.server.sessionId && t.client.state.turn == t.server.turn
    && t.client.lastEventId == Number(t)
    && t.view.first <= |Truth(t.server)| && t.client.state.history == Truth(t.server)[t.view.first..]
    && (t.view.covered ==> SameOpen(t.client.state.callbacks, Truth(t.server)))
  }

  lemma QuietIsExact(t: System)
    requires Inv(t) && t.unsent == [] && t.channel == [] && Attached(t)
    ensures Exact(t)
  {
    hide InOrder, Truth;
    NothingHeld(t);
    assert Sequenced(Number(t), []) == [] && t.channel + Coming(t) == [];
    if t.view.covered {
      TruthIsSound(t.server);
      CoveredOpens(t.client.state.callbacks, Truth(t.server), t.view.first);
    }
  }

  /** Main result: from every reachable state in which a client is attached or
      being flushed, numbering, flushing and delivering what there is ends, is
      never refused, and leaves the client showing the server exactly. */
  lemma {:induction false} CatchesUp(s0: System, steps: seq<Transition>) returns (more: seq<Transition>)
    requires Initial(s0) && Replication.Run(s0, steps).Some?
    requires var s := Replication.Run(s0, steps).value; s.stage.Flushing? || Attached(s)
    ensures var s := Replication.Run(s0, steps).value;
            var t := Replication.Run(s0, steps + more);
            t.Some? && t.value.server == s.server && t.value.view == s.view && Exact(t.value)
  {
    hide Replication.Next, InOrder, Exact, Reaches;
    RunKeeps(s0, steps) by { assert Inv(s0) by { InitialIsSound(s0); } }
    var s := Replication.Run(s0, steps).value;
    more := CatchUpFrom(s);
    RunConcat(s0, steps, more);
  }

  lemma InitialIsSound(s: System)
    requires Initial(s)
    ensures Inv(s)
  {
    hide InOrder;
  }

  lemma {:induction false} CatchUpFrom(s: System) returns (more: seq<Transition>)
    requires Inv(s) && (s.stage.Flushing? || Attached(s))
    ensures var t := Replication.Run(s, more);
            t.Some? && t.value.server == s.server && t.value.view == s.view && Exact(t.value)
  {
    hide Inv, Exact, Replication.Run;
    var a, t := EmitAll(s);
    var b, u := FlushAll(t);
    var c, v := DeliverAll(u);
    LeadsOn(s, a, t, b, u);
    LeadsOn(s, a + b, u, c, v);
    QuietIsExact(v);
    more := a + b + c;
  }

  /** Main result: whatever came before, a client that attaches when the public
      history is the whole truth can get in step: it then shows the last entries
      of the history, as many as it asked for. */
  lemma {:induction false} AttachingCatchesUp(s0: System, steps: seq<Transition>, limit: int)
    returns (more: seq<Transition>)
    requires Initial(s0) && Replication.Run(s0, steps).Some? && limit >= 1
    requires var s := Replication.Run(s0, steps).value; s.stage.Settled? && Public(s.server) == Truth(s.server)
    ensures var s := Replication.Run(s0, steps).value;
            var t := Replication.Run(s0, steps + more);
            && t.Some? && t.value.server == s.server && t.value.view == ViewOf(s.server, limit) && Exact(t.value)
  {
    hide Replication.Next, InOrder, Exact, Reaches, Public, Truth;
    RunKeeps(s0, steps) by { assert Inv(s0) by { InitialIsSound(s0); } }
    var s := Replication.Run(s0, steps).value;
    var a, t := EmitAll(s);
    var b, u := Attaches(t, limit);
    var c := CatchUpFrom(u);
    LeadsOn(s, a, t, b, u);
    RunConcat(s, a + b, c);
    more := a + b + c;
    RunConcat(s0, steps, more);
  }

  /** Begin, take the state, send the answer. */
  lemma Attaches(s: System, limit: int) returns (steps: seq<Transition>, t: System)
    requires Inv(s) && s.stage.Settled? && s.unsent == [] && limit >= 1 && Public(s.server) == Truth(s.server)
    ensures Leads(s, steps, t) && t.stage.Flushing? && t.view == ViewOf(s.server, limit)
  {
    hide InOrder, Reaches, Public, Truth, StateOf, ViewOf, Inv;
    var s1 := Replication.Next(s, AttachBegin).value;
    BeginKeeps(s);
    assert Tellable(s1) && Skipped(s1.router.pending, s1.server.sessionId, Number(s1));
    var s2 := Replication.Next(s1, AttachTake(limit)).value;
    TakeKeeps(s1, limit);
    t := Replication.Next(s2, AttachSend).value;
    SendKeeps(s2);
    LeadsNowhere(t);
    LeadsFirst(s2, AttachSend, [], t);
    LeadsFirst(s1, AttachTake(limit), [AttachSend] + [], t);
    steps := [AttachBegin] + ([AttachTake(limit)] + ([AttachSend] + []));
    LeadsFirst(s, AttachBegin, [AttachTake(limit)] + ([AttachSend] + []), t);
  }
}
