/** The server's three tables of ids it has sent: requests somebody waits for,
    requests given up, and callback deliveries. */
module ServerRpc {
  import opened Prelude

  datatype Future = Unset | Set(body: string) | Failed | Cancelled

  datatype Delivery = Delivery(sessionId: string, callbackId: string, answered: bool)

  datatype Tables = Tables(
    next: nat, attached: bool, futures: map<nat, Future>, waiting: set<nat>, abandoned: set<nat>,
    deliveries: map<nat, Delivery>)

  /** What a response turned out to be. */
  datatype Route = Completes | Discarded | Acknowledges(delivery: Delivery) | Mismatch

  /** The id is drawn in any case; without a client the request is gone at once. */
  function Opened(t: Tables): Tables {
    t.(next := t.next + 1, futures := t.futures[t.next := if t.attached then Unset else Failed],
       waiting := if t.attached then t.waiting + {t.next} else t.waiting - {t.next})
  }

  function Delivered(t: Tables, sessionId: string, callbackId: string): Tables {
    if !t.attached then t
    else t.(next := t.next + 1, deliveries := t.deliveries[t.next := Delivery(sessionId, callbackId, false)])
  }

  function Handled(t: Tables, id: nat, body: string): (Tables, Route) {
    if id in t.waiting then
      var t' := t.(waiting := t.waiting - {id});
      if id in t.futures && t.futures[id].Cancelled? then (t'.(abandoned := t.abandoned - {id}), Discarded)
      else (t'.(futures := t.futures[id := Set(body)]), Completes)
    else if id in t.abandoned then (t.(abandoned := t.abandoned - {id}), Discarded)
    else if id in t.deliveries then (t.(deliveries := t.deliveries - {id}), Acknowledges(t.deliveries[id]))
    else (t, Mismatch)
  }

  /** The end of a cancelled request's coroutine. */
  function GivenUp(t: Tables, id: nat, sent: bool): Tables {
    t.(waiting := t.waiting - {id},
       abandoned := if sent && id in t.waiting then t.abandoned + {id} else t.abandoned)
  }

  function Answered(t: Tables, callbackId: string): Tables {
    t.(deliveries := map id | id in t.deliveries ::
         if t.deliveries[id].callbackId == callbackId then t.deliveries[id].(answered := true) else t.deliveries[id])
  }

  function Rejected(t: Tables): map<nat, Future> {
    map id | id in t.futures :: if id in t.waiting && t.futures[id].Unset? then Failed else t.futures[id]
  }

  function Detached(t: Tables): Tables {
    t.(futures := Rejected(t), waiting := {}, abandoned := {}, deliveries := map[], attached := false)
  }

  // ---- the class -----------------------------------------------------------

  class RequestTables {
    var nextRequestId: nat
    var attached: bool
    var futures: map<nat, Future>
    var clientRequests: set<nat>
    var abandonedRequestIds: set<nat>
    var callbackRequests: map<nat, Delivery>

    function Model(): Tables
      reads this
    {
      Tables(nextRequestId, attached, futures, clientRequests, abandonedRequestIds, callbackRequests)
    }

    constructor ()
      ensures Model() == Tables(1, false, map[], {}, {}, map[])
    {
      nextRequestId, attached, futures := 1, false, map[];
      clientRequests, abandonedRequestIds, callbackRequests := {}, {}, map[];
    }

    method OpenRequest() returns (id: nat, open: bool)
      modifies this
      ensures id == old(nextRequestId) && open == attached == old(attached) && Model() == Opened(old(Model()))
    {
      id := nextRequestId;
      nextRequestId := nextRequestId + 1;
      futures := futures[id := Unset];
      clientRequests := clientRequests + {id};
      open := attached;
      if !attached {
        futures := futures[id := Failed];
        clientRequests := clientRequests - {id};
      }
    }

    method DeliverCallback(sessionId: string, callbackId: string)
      modifies this
      ensures Model() == Delivered(old(Model()), sessionId, callbackId)
    {
      if !attached { return; }
      callbackRequests := callbackRequests[nextRequestId := Delivery(sessionId, callbackId, false)];
      nextRequestId := nextRequestId + 1;
    }

    method HandleResponse(id: nat, body: string) returns (route: Route)
      modifies this
      ensures (Model(), route) == Handled(old(Model()), id, body)
    {
      if id in clientRequests {
        clientRequests := clientRequests - {id};
        if id in futures && futures[id].Cancelled? {
          abandonedRequestIds := abandonedRequestIds - {id};
          return Discarded;
        }
        futures := futures[id := Set(body)];
        return Completes;
      }
      if id in abandonedRequestIds {
        abandonedRequestIds := abandonedRequestIds - {id};
        return Discarded;
      }
      if id !in callbackRequests { return Mismatch; }
      route := Acknowledges(callbackRequests[id]);
      callbackRequests := callbackRequests - {id};
    }

    method GiveUp(id: nat, sent: bool)
      modifies this
      ensures Model() == GivenUp(old(Model()), id, sent)
    {
      if sent && id in clientRequests { abandonedRequestIds := abandonedRequestIds + {id}; }
      clientRequests := clientRequests - {id};
    }

    method MarkCallbackAnswered(callbackId: string)
      modifies this
      ensures Model() == Answered(old(Model()), callbackId)
    {
      ghost var before := callbackRequests;
      var left := callbackRequests.Keys;
      while left != {}
        invariant Model() == old(Model()).(deliveries := callbackRequests)
        invariant callbackRequests.Keys == before.Keys && left <= before.Keys
        invariant forall id :: id in before ==>
                    callbackRequests[id] == if id !in left
                        && before[id].callbackId == callbackId then before[id].(answered := true) else before[id]
        decreases |left|
      {
        var id :| id in left;
        if callbackRequests[id].callbackId == callbackId {
          callbackRequests := callbackRequests[id := callbackRequests[id].(answered := true)];
        }
        left := left - {id};
      }
      assert callbackRequests == Answered(old(Model()), callbackId).deliveries;
    }

    method DetachConnection()
      modifies this
      ensures Model() == Detached(old(Model()))
    {
      ghost var before := Model();
      var left := clientRequests;
      while left != {}
        invariant Model() == before.(futures := futures)
        invariant left <= clientRequests && futures.Keys == before.futures.Keys
        invariant forall id :: id in before.futures ==>
                    futures[id] == if id in clientRequests - left
                        && before.futures[id].Unset? then Failed else before.futures[id]
        decreases |left|
      {
        var id :| id in left;
        if id in futures && futures[id].Unset? { futures := futures[id := Failed]; }
        left := left - {id};
      }
      assert futures == Rejected(before);
      clientRequests, abandonedRequestIds, callbackRequests, attached := {}, {}, map[], false;
    }
  }

  // ---- whole runs ----------------------------------------------------------

  /** `sent` are the requests and deliveries whose message went out on the
      current connection, `unanswered` those without a response yet; `cancelled`
      are the requests whose coroutine ended by a cancellation after sending. */
  datatype World = World(tables: Tables, sent: set<nat>, unanswered: set<nat>, ended: set<nat>, cancelled: set<nat>)

  datatype Step =
    | Attach
    | Open
    | Send(id: nat)
    | SendFails(id: nat)
    | Cancel(id: nat)      // the waiting task is cancelled, and with it the future
    | Unwind(id: nat)      // the cancelled coroutine runs to its end
    | Conclude(id: nat)    // a coroutine whose future is set or failed runs to its end
    | Deliver(sessionId: string, callbackId: string)
    | MarkAnswered(callbackId: string)
    | Respond(id: nat, body: string)
    | Detach

  function Next(w: World, step: Step): Option<World> {
    var t := w.tables;
    match step
    case Attach => Some(w.(tables := t.(attached := true)))
    case Open =>
      Some(w.(tables := Opened(t), ended := if t.attached then w.ended else w.ended + {t.next}))
    case Send(id) =>
      if id in t.waiting && id !in w.sent && id !in w.ended
      then Some(w.(sent := w.sent + {id}, unanswered := w.unanswered + {id})) else None
    case SendFails(id) =>
      if id in t.waiting && id !in w.sent && id !in w.ended
      then Some(w.(tables := GivenUp(t, id, false), ended := w.ended + {id})) else None
    case Cancel(id) =>
      if id in w.sent && id !in w.ended && id in t.futures && t.futures[id].Unset?
      then Some(w.(tables := t.(futures := t.futures[id := Cancelled]))) else None
    case Unwind(id) =>
      if id !in w.ended && id in t.futures && t.futures[id].Cancelled?
      then Some(w.(tables := GivenUp(t, id, true), ended := w.ended + {id},
                   cancelled := if id in w.sent then w.cancelled + {id} else w.cancelled)) else None
    case Conclude(id) =>
      if id !in w.ended && id in t.futures && (t.futures[id].Set? || t.futures[id].Failed?)
      then Some(w.(tables := t.(waiting := t.waiting - {id}), ended := w.ended + {id})) else None
    case Deliver(sessionId, callbackId) =>
      Some(w.(tables := Delivered(t, sessionId, callbackId),
              sent := if t.attached then w.sent + {t.next} else w.sent,
              unanswered := if t.attached then w.unanswered + {t.next} else w.unanswered))
    case MarkAnswered(callbackId) => Some(w.(tables := Answered(t, callbackId)))
    case Respond(id, body) =>
      if id in w.unanswered then Some(w.(tables := Handled(t, id, body).0, unanswered := w.unanswered - {id})) else None
    case Detach =>
      Some(World(Detached(t), {}, {}, w.ended, {}))
  }

  function Run(w: World, steps: seq<Step>): Option<World>
    decreases |steps|
  {
    if steps == [] then Some(w)
    else match Next(w, steps[0]) case None => None case Some(w') => Run(w', steps[1..])
  }

  const START := World(Tables(1, false, map[], {}, {}, map[]), {}, {}, {}, {})

  /** How many of the three tables hold an id. */
  function Places(t: Tables, id: nat): nat {
    (if id in t.waiting then 1 else 0) + (if id in t.abandoned then 1 else 0) + (if id in t.deliveries then 1 else 0)
  }

  predicate Ok(w: World, id: nat) {
    var t := w.tables;
    && Places(t, id) <= 1
    && (Places(t, id) == 1 || id in t.futures ==> id < t.next)
    && (id in w.sent || id in w.unanswered || id in w.ended || id in w.cancelled ==> id < t.next)
    && (id in w.unanswered ==> id in w.sent && Places(t, id) == 1)
    && (id in t.abandoned <==> id in w.cancelled && id in w.unanswered)
    && (id in t.deliveries ==> id in w.unanswered && id !in t.futures)
    && (id in t.waiting ==> id in t.futures && (t.futures[id].Unset? || t.futures[id].Cancelled?) && id !in w.ended)
    && (id in t.waiting && id in w.sent ==> id in w.unanswered)
    && (id in w.cancelled ==> id in w.ended && id in t.futures && t.futures[id].Cancelled?)
    && (id in w.sent && id !in w.ended && id in t.futures && id !in t.waiting ==> id !in w.unanswered)
    && (id in t.futures && t.futures[id].Unset? && id !in w.ended ==> id in t.waiting)
    && (id in t.futures && t.futures[id].Cancelled? ==> id in w.sent || id in w.ended || id !in t.waiting)
  }

  ghost predicate Inv(w: World) { forall id: nat :: Ok(w, id) }

  lemma StepOne(w: World, step: Step, id: nat)
    requires Ok(w, id) && Next(w, step).Some?
    ensures Ok(Next(w, step).value, id)
  {
    match step {
      case Attach =>
      case Open =>
      case Send(k) => if k == id { }
      case SendFails(k) => if k == id { }
      case Cancel(k) => if k == id { }
      case Unwind(k) => if k == id { }
      case Conclude(k) => if k == id { }
      case Deliver(_, _) =>
      case MarkAnswered(_) =>
      case Respond(k, body) => if k == id { }
      case Detach =>
    }
  }

  lemma {:induction false} RunKeeps(w: World, steps: seq<Step>)
    requires Inv(w) && Run(w, steps).Some?
    ensures Inv(Run(w, steps).value)
    decreases |steps|
  {
    if steps != [] {
      forall id: nat ensures Ok(Next(w, steps[0]).value, id) { StepOne(w, steps[0], id); }
      RunKeeps(Next(w, steps[0]).value, steps[1..]);
    }
  }

  /** Main result: over any run of requests, cancellations, deliveries, responses
      and lost connections, an id is in at most one table and below the counter;
      the given-up table holds exactly the requests sent on this connection,
      cancelled and unanswered; and a response to anything unanswered is never a
      mismatch: it resolves the one table that holds its id, and no other. */
  lemma Routed(steps: seq<Step>, id: nat, body: string)
    requires Run(START, steps).Some?
    ensures var w := Run(START, steps).value;
            && Places(w.tables, id) <= 1 && (Places(w.tables, id) == 1 ==> id < w.tables.next)
            && (id in w.tables.abandoned <==> id in w.sent && id in w.cancelled && id in w.unanswered)
            && (id in w.unanswered ==>
                  var (t, route) := Handled(w.tables, id, body);
                  && route != Mismatch && Places(t, id) == 0
                  && (route.Acknowledges? <==> id in w.tables.deliveries)
                  && (route.Completes? ==> t.futures[id] == Set(body))
                  && (forall k: nat :: k != id ==> Places(t, k) == Places(w.tables, k)))
  {
    RunKeeps(START, steps);
    var w := Run(START, steps).value;
    assert Ok(w, id);
  }

  // ---- deliveries, and requests without a client ---------------------------

  lemma {:induction false} RunSnoc(w: World, steps: seq<Step>, last: Step)
    ensures Run(w, steps + [last]) == match Run(w, steps) case None => None case Some(v) => Next(v, last)
    decreases |steps|
  {
    if steps == [] {
      assert [] + [last] == [last] && [last][1..] == [];
    } else {
      assert (steps + [last])[0] == steps[0] && (steps + [last])[1..] == steps[1..] + [last];
      if Next(w, steps[0]).Some? { RunSnoc(Next(w, steps[0]).value, steps[1..], last); }
    }
  }

  /** Step k delivered this callback under this id, and the callback was answered
      since if and only if the delivery says so. */
  ghost predicate DeliveredAt(steps: seq<Step>, id: nat, d: Delivery, k: nat) {
    && k < |steps| && steps[k] == Deliver(d.sessionId, d.callbackId)
    && Run(START, steps[..k]).Some? && Run(START, steps[..k]).value.tables.next == id
    && (d.answered <==> MarkAnswered(d.callbackId) in steps[k..])
  }

  ghost predicate WasDelivered(steps: seq<Step>, id: nat, d: Delivery) {
    exists k: nat :: k < |steps| && DeliveredAt(steps, id, d, k)
  }

  lemma DeliveredSnoc(steps: seq<Step>, last: Step, id: nat, d: Delivery, k: nat)
    requires DeliveredAt(steps, id, d, k)
    ensures DeliveredAt(steps + [last], id, d.(answered := d.answered || last == MarkAnswered(d.callbackId)), k)
  {
    var all := steps + [last];
    assert all[..k] == steps[..k] && all[k..] == steps[k..] + [last];
  }

  lemma NewlyDelivered(steps: seq<Step>, sessionId: string, callbackId: string)
    requires Run(START, steps).Some?
    ensures WasDelivered(steps + [Deliver(sessionId, callbackId)], Run(START, steps).value.tables.next,
                         Delivery(sessionId, callbackId, false))
  {
    var all := steps + [Deliver(sessionId, callbackId)];
    assert all[..|steps|] == steps && all[|steps|..] == [Deliver(sessionId, callbackId)];
    assert DeliveredAt(all, Run(START, steps).value.tables.next, Delivery(sessionId, callbackId, false), |steps|);
  }

  /** Main result: a delivery that waits for its acknowledgement is the callback that
      was sent under its id, and is marked as answered if and only if the callback
      was answered since. */
  lemma {:induction false} DeliveriesAre(steps: seq<Step>, id: nat)
    requires Run(START, steps).Some? && id in Run(START, steps).value.tables.deliveries
    ensures WasDelivered(steps, id, Run(START, steps).value.tables.deliveries[id])
    decreases |steps|
  {
    hide WasDelivered, DeliveredAt;
    if steps != [] {
      var front, last := steps[..|steps| - 1], steps[|steps| - 1];
      assert steps == front + [last];
      RunSnoc(START, front, last);
      var t, t' := Run(START, front).value.tables, Run(START, steps).value.tables;
      if id in t.deliveries {
        DeliveriesAre(front, id);
        var d := t.deliveries[id];
        if last.Deliver? && t.attached && t.next == id {
          NewlyDelivered(front, last.sessionId, last.callbackId);
        } else {
          Redelivered(front, last, id, d);
          assert t'.deliveries[id] == d.(answered := d.answered || last == MarkAnswered(d.callbackId));
        }
      } else {
        NewlyDelivered(front, last.sessionId, last.callbackId);
      }
    }
  }

  lemma Redelivered(steps: seq<Step>, last: Step, id: nat, d: Delivery)
    requires WasDelivered(steps, id, d)
    ensures WasDelivered(steps + [last], id, d.(answered := d.answered || last == MarkAnswered(d.callbackId)))
  {
    var k: nat :| k < |steps| && DeliveredAt(steps, id, d, k);
    DeliveredSnoc(steps, last, id, d, k);
  }

  /** A request opened without a client fails at once; one opened with a client waits
      under a new id.  A lost connection fails every request that waits, empties
      the tables and keeps the answers that have come. */
  lemma WaitsOnlyAttached(steps: seq<Step>, id: nat)
    requires Run(START, steps).Some?
    ensures var t := Run(START, steps).value.tables;
            var asked, lost := Opened(t), Detached(t);
            && t.next !in t.futures && asked.next == t.next + 1 && asked.futures.Keys == t.futures.Keys + {t.next}
            && asked.futures[t.next] == (if t.attached then Unset else Failed)
            && (t.next in asked.waiting <==> t.attached)
            && (id != t.next ==> (id in asked.waiting <==> id in t.waiting))
            && !lost.attached && lost.waiting == {} && lost.abandoned == {} && lost.deliveries == map[]
            && (id in t.futures ==>
                  && id in lost.futures
                  && (id in t.waiting && t.futures[id].Unset? ==> lost.futures[id] == Failed)
                  && (id !in t.waiting || !t.futures[id].Unset? ==> lost.futures[id] == t.futures[id]))
  {
    RunKeeps(START, steps);
    var w := Run(START, steps).value;
    assert Ok(w, id) && Ok(w, w.tables.next);
  }
}
