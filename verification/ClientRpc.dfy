/** The client's request table, its queue of incoming messages, and the promise
    that a request's waiter sees every earlier message handled. */
module ClientRpc {
  import opened Prelude

  datatype Future = Unset | Set(body: string, mark: nat) | Failed | Cancelled

  /** Futures live on after they have left the pending table. */
  datatype Rpc = Rpc(
    next: nat, futures: map<nat, Future>, pending: set<nat>, abandoned: set<nat>,
    received: nat, processed: nat, closed: bool)

  datatype Verdict = Fine | Mismatch

  function Opened(r: Rpc): Rpc {
    r.(next := r.next + 1, futures := r.futures[r.next := Unset], pending := r.pending + {r.next})
  }

  /** A response, as the reading task treats it. */
  function Dispatched(r: Rpc, id: nat, body: string): (Rpc, Verdict) {
    var r' := r.(pending := r.pending - {id});
    if id in r.pending && id in r.futures && r.futures[id].Cancelled? then (r'.(abandoned := r.abandoned - {id}), Fine)
    else if id !in r.pending && id in r.abandoned then (r'.(abandoned := r.abandoned - {id}), Fine)
    else if id !in r.pending || id !in r.futures || !r.futures[id].Unset? then (r', Mismatch)
    else (r'.(futures := r.futures[id := Set(body, r.received)]), Fine)
  }

  /** Cancelling a waiting task cancels the future it waits for. */
  function CancelledFuture(r: Rpc, id: nat): Rpc {
    if id in r.futures && r.futures[id].Unset? then r.(futures := r.futures[id := Cancelled]) else r
  }

  /** The end of a request's coroutine. */
  function Resumed(r: Rpc, id: nat, sent: bool): Rpc {
    r.(pending := r.pending - {id},
       abandoned := if sent && id in r.futures && r.futures[id].Cancelled? then r.abandoned + {id} else r.abandoned)
  }

  function AllFailed(r: Rpc): map<nat, Future> {
    map id | id in r.futures :: if id in r.pending && r.futures[id].Unset? then Failed else r.futures[id]
  }

  function Closed(r: Rpc): Rpc { r.(futures := AllFailed(r), pending := {}, abandoned := {}, closed := true) }

  // ---- the class -----------------------------------------------------------

  class AppServerClient {
    var nextRequestId: nat
    var futures: map<nat, Future>
    var pending: set<nat>
    var abandonedRequestIds: set<nat>
    var receivedSequence: nat
    var processedSequence: nat
    var incoming: seq<nat>     // sequence numbers of the messages not taken yet
    var isClosed: bool

    function Model(): Rpc
      reads this
    {
      Rpc(nextRequestId, futures, pending, abandonedRequestIds, receivedSequence, processedSequence, isClosed)
    }

    constructor ()
      ensures Model() == Rpc(1, map[], {}, {}, 0, 0, false) && incoming == []
    {
      nextRequestId, futures, pending, abandonedRequestIds := 1, map[], {}, {};
      receivedSequence, processedSequence, incoming, isClosed := 0, 0, [], false;
    }

    method OpenRequest() returns (id: nat)
      modifies this
      ensures id == old(nextRequestId) && Model() == Opened(old(Model())) && incoming == old(incoming)
    {
      id := nextRequestId;
      nextRequestId := nextRequestId + 1;
      futures := futures[id := Unset];
      pending := pending + {id};
    }

    method DispatchResponse(id: nat, body: string) returns (verdict: Verdict)
      modifies this
      ensures (Model(), verdict) == Dispatched(old(Model()), id, body) && incoming == old(incoming)
    {
      var found := id in pending;
      pending := pending - {id};
      if found && id in futures && futures[id].Cancelled? {
        abandonedRequestIds := abandonedRequestIds - {id};
        return Fine;
      }
      if !found && id in abandonedRequestIds {
        abandonedRequestIds := abandonedRequestIds - {id};
        return Fine;
      }
      if !found || id !in futures || !futures[id].Unset? { return Mismatch; }
      futures := futures[id := Set(body, receivedSequence)];
      return Fine;
    }

    method FinishRequest(id: nat, sent: bool)
      modifies this
      ensures Model() == Resumed(old(Model()), id, sent) && incoming == old(incoming)
    {
      if sent && id in futures && futures[id].Cancelled? { abandonedRequestIds := abandonedRequestIds + {id}; }
      pending := pending - {id};
    }

    /** Every pending future that is not done yet, in some order. */
    method FailPending()
      modifies this
      ensures Model() == old(Model()).(futures := AllFailed(old(Model())), pending := {}) && incoming == old(incoming)
    {
      ghost var before := Model();
      var left := pending;
      while left != {}
        invariant Model() == before.(futures := futures) && incoming == old(incoming)
        invariant left <= pending && futures.Keys == before.futures.Keys
        invariant forall id :: id in before.futures ==>
                    futures[id] == if id in pending - left
                        && before.futures[id].Unset? then Failed else before.futures[id]
        decreases |left|
      {
        var id :| id in left;
        if id in futures && futures[id].Unset? { futures := futures[id := Failed]; }
        left := left - {id};
      }
      assert futures == AllFailed(before);
      pending := {};
    }

    method Close()
      modifies this
      ensures Model() == Closed(old(Model()))
    {
      FailPending();
      abandonedRequestIds := {};
      isClosed := true;
    }

    method PutIncoming()
      modifies this
      ensures Model() == old(Model()).(received := old(receivedSequence) + 1)
      ensures incoming == old(incoming) + [receivedSequence]
    {
      receivedSequence := receivedSequence + 1;
      incoming := incoming + [receivedSequence];
    }

    /** The oldest message has been handled. */
    method ProcessOne()
      requires incoming != []
      modifies this
      ensures Model() == old(Model()).(processed := old(incoming)[0]) && incoming == old(incoming)[1..]
    {
      processedSequence := incoming[0];
      incoming := incoming[1..];
    }
  }

  // ---- whole runs against a peer -------------------------------------------

  /** `sent` and `ended` are the requests whose message went out and whose
      coroutine is over; `unanswered` are the peer's; `answers` what it said. */
  datatype World = World(
    rpc: Rpc, sent: set<nat>, ended: set<nat>, unanswered: set<nat>, answers: map<nat, string>)

  datatype Step =
    | Open
    | Send(id: nat)
    | Cancel(id: nat)               // of a request that has been sent and waits
    | GiveUp(id: nat)               // of a request whose message is not out yet
    | Resume(id: nat)               // the coroutine of a request whose future is done runs on
    | Respond(id: nat, body: string)
    | Receive                       // another message arrives
    | Process                       // the oldest such message has been handled

  /** None where the step is impossible: the peer answers each sent id at most
      once, a coroutine runs on only when its future is done. */
  function Next(w: World, step: Step): Option<World> {
    var r := w.rpc;
    match step
    case Open => Some(w.(rpc := Opened(r)))
    case Send(id) =>
      if id in r.futures && id in r.pending && id !in w.sent && id !in w.ended
      then Some(w.(sent := w.sent + {id}, unanswered := w.unanswered + {id})) else None
    case Cancel(id) =>
      if id in w.sent && id !in w.ended && id in r.futures
          && r.futures[id].Unset? then Some(w.(rpc := CancelledFuture(r, id))) else None
    case GiveUp(id) =>
      if id in r.futures && id !in w.sent
          && id !in w.ended then Some(w.(rpc := Resumed(r, id, false), ended := w.ended + {id})) else None
    case Resume(id) =>
      if id in w.sent && id !in w.ended && id in r.futures && !r.futures[id].Unset?
      then Some(w.(rpc := Resumed(r, id, true), ended := w.ended + {id})) else None
    case Respond(id, body) =>
      if id in w.unanswered
      then Some(w.(rpc := Dispatched(r, id, body).0, unanswered := w.unanswered - {id},
          answers := w.answers[id := body])) else None
    case Receive => Some(w.(rpc := r.(received := r.received + 1)))
    case Process => if r.processed < r.received then Some(w.(rpc := r.(processed := r.processed + 1))) else None
  }

  function Run(w: World, steps: seq<Step>): Option<World>
    decreases |steps|
  {
    if steps == [] then Some(w)
    else match Next(w, steps[0]) case None => None case Some(w') => Run(w', steps[1..])
  }

  const START := World(Rpc(1, map[], {}, {}, 0, 0, false), {}, {}, {}, map[])

  /** A sent id that the peer has not answered is waited for or abandoned; a
      future that is set has its own answer; only cancelled requests that ended
      are abandoned. */
  predicate Ok(w: World, id: nat) {
    var r := w.rpc;
    && (id in r.pending || id in r.abandoned || id in w.sent || id in w.ended || id in w.unanswered ==> id in r.futures)
    && (id in r.futures ==> id < r.next)
    && (id in w.unanswered ==> id in w.sent)
    && (id in r.abandoned ==> id in w.sent && id in w.ended && r.futures[id].Cancelled?)
    && (id in r.futures && id !in w.sent && id !in w.ended ==> id in r.pending && r.futures[id].Unset?)
    && (id in w.unanswered ==> r.futures[id].Unset? || r.futures[id].Cancelled?)
    && (id in w.unanswered ==> if id in w.ended then id in r.abandoned && id !in r.pending else id in r.pending)
    && (id in w.sent && id !in w.unanswered ==> id !in r.pending && !r.futures[id].Unset?)
    && (id in r.futures && r.futures[id].Set? ==>
          id in w.answers && w.answers[id] == r.futures[id].body && r.futures[id].mark <= r.received)
    && (id in w.ended ==> id !in r.pending)
    && (id in w.ended && id in w.sent ==> !r.futures[id].Unset?)
  }

  ghost predicate Inv(w: World) {
    (forall id: nat :: Ok(w, id)) && !w.rpc.closed && w.rpc.processed <= w.rpc.received
  }

  lemma StepOne(w: World, step: Step, id: nat)
    requires Ok(w, id) && Next(w, step).Some?
    ensures Ok(Next(w, step).value, id)
  {
    match step {
      case Open =>
      case Send(k) => if k == id { }
      case Cancel(k) => if k == id { }
      case GiveUp(k) => if k == id { }
      case Resume(k) => if k == id { }
      case Respond(k, body) => if k == id { }
      case Receive =>
      case Process =>
    }
  }

  lemma StepKeeps(w: World, step: Step)
    requires Inv(w) && Next(w, step).Some?
    ensures Inv(Next(w, step).value)
    ensures step.Respond? ==> Dispatched(w.rpc, step.id, step.body).1 == Fine
  {
    forall id: nat ensures Ok(Next(w, step).value, id) { StepOne(w, step, id); }
    if step.Respond? { assert Ok(w, step.id); }
  }

  lemma {:induction false} RunKeeps(w: World, steps: seq<Step>)
    requires Inv(w) && Run(w, steps).Some?
    ensures Inv(Run(w, steps).value)
    decreases |steps|
  {
    if steps != [] {
      StepKeeps(w, steps[0]);
      RunKeeps(Next(w, steps[0]).value, steps[1..]);
    }
  }

  /** Main result: against a peer that answers each request at most once, no
      response is ever taken for a mismatch, in any interleaving of requests,
      cancellations and responses, and every request that completes has its own
      response; closing leaves nobody waiting. */
  lemma Correlated(steps: seq<Step>, id: nat, body: string)
    requires Run(START, steps).Some?
    ensures var w := Run(START, steps).value;
            && (id in w.unanswered ==> Dispatched(w.rpc, id, body).1 == Fine)
            && (id in w.rpc.futures && w.rpc.futures[id].Set? ==>
                  id in w.answers && w.answers[id] == w.rpc.futures[id].body)
            && (id in w.rpc.futures && id !in w.ended ==> !Closed(w.rpc).futures[id].Unset?)
  {
    RunKeeps(START, steps);
    var w := Run(START, steps).value;
    assert Ok(w, id);
    if id in w.unanswered { StepKeeps(w, Respond(id, body)); }
  }

  /** An answered id can stay in the abandoned set, for good: exactly when its
      response came after its future was cancelled and before its coroutine ran
      on. */
  lemma {:induction false} AnsweredAndAbandoned(w: World, id: nat, steps: seq<Step>)
    requires Inv(w) && Next(w, Resume(id)).Some? && Run(Next(w, Resume(id)).value, steps).Some?
    ensures var v := Run(Next(w, Resume(id)).value, steps).value;
            id !in w.unanswered ==> (id in v.rpc.abandoned <==> w.rpc.futures[id].Cancelled?)
  {
    var w1 := Next(w, Resume(id)).value;
    assert Ok(w, id);
    StepKeeps(w, Resume(id));
    if id !in w.unanswered { AnsweredStays(w1, id, steps); }
  }

  lemma {:induction false} AnsweredStays(w: World, id: nat, steps: seq<Step>)
    requires Inv(w) && id in w.ended && id in w.sent && id !in w.unanswered && Run(w, steps).Some?
    ensures id in Run(w, steps).value.rpc.abandoned <==> id in w.rpc.abandoned
    decreases |steps|
  {
    if steps != [] {
      assert Ok(w, id);
      StepKeeps(w, steps[0]);
      AnsweredStays(Next(w, steps[0]).value, id, steps[1..]);
    }
  }

  /** Such a run exists. */
  lemma {:induction false} OvertakenResponse(body: string)
    ensures var w := Run(START, [Open, Send(1), Cancel(1), Respond(1, body)]);
            w.Some? && 1 !in w.value.unanswered && Next(w.value, Resume(1)).Some? && w.value.rpc.futures[1].Cancelled?
  {
    var w1 := World(Rpc(2, map[1 := Unset], {1}, {}, 0, 0, false), {}, {}, {}, map[]);
    var w2 := w1.(sent := {1}, unanswered := {1});
    var w3 := w2.(rpc := w2.rpc.(futures := map[1 := Cancelled]));
    var w4 := w3.(rpc := w3.rpc.(pending := {}), unanswered := {}, answers := map[1 := body]);
    var s1, s2, s3, s4 := Open, Send(1), Cancel(1), Respond(1, body);
    assert {} + {1} == {1} && map[][1 := Unset] == map[1 := Unset];
    assert Next(START, s1).value.rpc == w1.rpc;
    assert Next(w1, s2) == Some(w2);
    assert map[1 := Unset][1 := Cancelled] == map[1 := Cancelled];
    assert CancelledFuture(w2.rpc, 1).futures == map[1 := Cancelled];
    assert Next(w2, s3).value.rpc == w3.rpc;
    assert w3.rpc.pending - {1} == {} && w3.unanswered - {1} == {} && w3.rpc.abandoned - {1} == {};
    assert Dispatched(w3.rpc, 1, body).0 == w4.rpc;
    assert Next(w3, s4).value.answers == w4.answers;
    assert [s1, s2, s3, s4][1..] == [s2, s3, s4] && [s2, s3, s4][1..] == [s3, s4] && [s3, s4][1..] == [s4]
        && [s4][1..] == [];
    assert Run(w3, [s4]) == Some(w4);
    assert Run(w2, [s3, s4]) == Some(w4);
    assert Run(w1, [s2, s3, s4]) == Some(w4);
  }

  // ---- what came before a response -----------------------------------------

  function Received(steps: seq<Step>): nat {
    if steps == [] then 0 else Received(steps[..|steps| - 1]) + if steps[|steps| - 1].Receive? then 1 else 0
  }

  lemma {:induction false} RunSnoc(w: World, steps: seq<Step>, last: Step)
    ensures Run(w, steps + [last]) == match Run(w, steps) case None => None case Some(v) => Next(v, last)
    decreases |steps|
  {
    if steps == [] {
      assert [] + [last] == [last] && [last][1..] == [];
    } else {
      assert (steps + [last])[0] == steps[0] && (steps + [last])[1..] == steps[1..] + [last];
      if Next(w, steps[0]).Some? { RunSnoc(Next(w, steps[0]).value, steps[1..], last); }
    }
  }

  /** Step k is the response with this body, and the mark is the number of other
      messages received before it. */
  predicate MarkedAt(steps: seq<Step>, id: nat, body: string, mark: nat, k: nat) {
    k < |steps| && steps[k] == Respond(id, body) && mark == Received(steps[..k])
  }

  predicate Marked(steps: seq<Step>, id: nat, body: string, mark: nat) {
    exists k: nat :: k < |steps| && MarkedAt(steps, id, body, mark, k)
  }

  lemma MarkedSnoc(steps: seq<Step>, last: Step, id: nat, body: string, mark: nat)
    ensures Marked(steps, id, body, mark) ==> Marked(steps + [last], id, body, mark)
    ensures last == Respond(id, body) && mark == Received(steps) ==> Marked(steps + [last], id, body, mark)
  {
    var all := steps + [last];
    if Marked(steps, id, body, mark) {
      var k: nat :| k < |steps| && MarkedAt(steps, id, body, mark, k);
      assert all[..k] == steps[..k];
      assert MarkedAt(all, id, body, mark, k);
    }
    if last == Respond(id, body) && mark == Received(steps) {
      assert all[..|steps|] == steps;
      assert MarkedAt(all, id, body, mark, |steps|);
    }
  }

  lemma Starts(id: nat)
    ensures id !in START.rpc.futures && START.rpc.received == 0 == Received([])
  {
  }

  lemma NextMark(w: World, step: Step, id: nat)
    requires Next(w, step).Some?
    ensures var r, r' := w.rpc, Next(w, step).value.rpc;
            && r'.received == r.received + (if step.Receive? then 1 else 0)
            && (id in r'.futures && r'.futures[id].Set? ==>
                  || (id in r.futures && r.futures[id] == r'.futures[id])
                  || (step == Respond(id, r'.futures[id].body) && r'.futures[id].mark == r.received))
  {
  }

  /** Main result: in any run the mark on a completed request is the number of
      messages that came before its response, so that its waiter, who goes on when
      as many are processed, finds all of these handled and no more are needed. */
  lemma {:induction false} MarkIsReceived(steps: seq<Step>, id: nat)
    requires Run(START, steps).Some?
    ensures var r := Run(START, steps).value.rpc;
            && r.received == Received(steps)
            && (id in r.futures && r.futures[id].Set? ==> Marked(steps, id, r.futures[id].body, r.futures[id].mark))
    decreases |steps|
  {
    hide Marked, Next;
    if steps == [] {
      Starts(id);
    } else {
      var front, last := steps[..|steps| - 1], steps[|steps| - 1];
      assert steps == front + [last];
      RunSnoc(START, front, last);
      MarkIsReceived(front, id);
      NextMark(Run(START, front).value, last, id);
      var r' := Run(START, steps).value.rpc;
      if id in r'.futures && r'.futures[id].Set? {
        MarkedSnoc(front, last, id, r'.futures[id].body, r'.futures[id].mark);
      }
    }
  }

  /** A response is a mismatch if and only if nobody waits for its id and it was
      not given up either; then, and for every other request, nothing changes. */
  lemma MismatchIff(steps: seq<Step>, id: nat, body: string)
    requires Run(START, steps).Some?
    ensures var r := Run(START, steps).value.rpc;
            var (r', verdict) := Dispatched(r, id, body);
            && (verdict.Mismatch? <==> id !in r.pending && id !in r.abandoned)
            && (verdict.Mismatch? ==> r' == r)
            && (id !in r'.pending && id !in r'.abandoned)
            && (id in r.pending && r.futures[id].Unset? ==> r'.futures[id] == Set(body, r.received))
            && (forall k :: k in r.futures && k != id ==> k in r'.futures && r'.futures[k] == r.futures[k])
            && (forall k :: k != id ==> (k in r'.pending <==> k in r.pending))
            && (forall k :: k != id ==> (k in r'.abandoned <==> k in r.abandoned))
  {
    RunKeeps(START, steps);
    var w := Run(START, steps).value;
    assert Ok(w, id);
    if id !in w.rpc.pending { assert w.rpc.pending - {id} == w.rpc.pending; }
  }

  /** When the connection is lost every request that waits fails, and the tables
      are empty; requests that were answered keep their answers. */
  lemma ClosingFailsAll(steps: seq<Step>, id: nat)
    requires Run(START, steps).Some?
    ensures var w, r := Run(START, steps).value, Closed(Run(START, steps).value.rpc);
            && r.closed && r.pending == {} && r.abandoned == {}
            && (id in w.rpc.futures ==>
                  && id in r.futures
                  && (id in w.rpc.pending && w.rpc.futures[id].Unset? ==> r.futures[id].Failed?)
                  && (id !in w.rpc.pending || !w.rpc.futures[id].Unset? ==> r.futures[id] == w.rpc.futures[id]))
  {
    RunKeeps(START, steps);
    assert Ok(Run(START, steps).value, id);
  }
}
