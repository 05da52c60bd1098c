/** The root session's identity over handoffs: old ids keep leading to it. */
module RootSession {
  import opened Prelude

  /** Follows handoffs from an id until there is none, or one comes round again. */
  function ResolveFrom(handoffs: map<string, string>, id: string, seen: set<string>): string
    decreases handoffs.Keys - seen
  {
    if id in handoffs && id !in seen then ResolveFrom(handoffs, handoffs[id], seen + {id}) else id
  }

  function Resolve(handoffs: map<string, string>, id: string): string { ResolveFrom(handoffs, id, {}) }

  datatype Coordinator = Coordinator(current: string, attached: Option<string>, handoffs: map<string, string>)

  /** The core's session has got a new id. */
  function HandedOff(c: Coordinator, new': string): Option<Coordinator> {
    if c.current == new' then None
    else
      var attached := if c.attached == Some(c.current) then Some(new') else c.attached;
      Some(Coordinator(new', attached, c.handoffs[c.current := new']))
  }

  predicate RoutesTurn(c: Coordinator, id: string, turnSession: string) {
    || (id == c.current && c.attached == Some(id))
    || (c.attached == Some(c.current) && Resolve(c.handoffs, id) == c.current && turnSession == c.current)
  }

  class RootSessionCoordinator {
    var currentSessionId: string      // the core's, read from the agent loop
    var attachedSessionId: Option<string>
    var handoffs: map<string, string>

    function Model(): Coordinator
      reads this
    {
      Coordinator(currentSessionId, attachedSessionId, handoffs)
    }

    constructor (sessionId: string)
      ensures Model() == Coordinator(sessionId, None, map[])
    {
      currentSessionId, attachedSessionId, handoffs := sessionId, None, map[];
    }

    method Attach(sessionId: string)
      modifies this
      ensures Model() == old(Model()).(attached := Some(sessionId))
    {
      attachedSessionId := Some(sessionId);
    }

    method BeginHandoff(new': string) returns (changed: bool)
      modifies this
      ensures changed <==> HandedOff(old(Model()), new').Some?
      ensures Model() == if changed then HandedOff(old(Model()), new').value else old(Model())
    {
      var old' := currentSessionId;
      if old' == new' { return false; }
      currentSessionId := new';
      if attachedSessionId == Some(old') { attachedSessionId := Some(new'); }
      handoffs := handoffs[old' := new'];
      return true;
    }

    method ReplaceFromCore()
      modifies this
      ensures Model() == old(Model()).(handoffs := map[])
    {
      handoffs := map[];
    }

    /** Ends on any table, cyclic ones included. */
    method ResolveHandoff(sessionId: string) returns (r: string)
      ensures r == Resolve(handoffs, sessionId)
    {
      var seen: set<string> := {};
      r := sessionId;
      while r in handoffs && r !in seen
        invariant ResolveFrom(handoffs, r, seen) == Resolve(handoffs, sessionId)
        decreases handoffs.Keys - seen
      {
        seen := seen + {r};
        r := handoffs[r];
      }
    }

    method RoutesActiveTurn(sessionId: string, turnSession: string) returns (r: bool)
      ensures r == RoutesTurn(Model(), sessionId, turnSession)
    {
      if sessionId == currentSessionId && attachedSessionId == Some(sessionId) { return true; }
      var resolved := ResolveHandoff(sessionId);
      return attachedSessionId == Some(currentSessionId) && resolved == currentSessionId
          && turnSession == currentSessionId;
    }
  }

  // ---- over whole runs -----------------------------------------------------

  function Chain(c: Coordinator, ids: seq<string>): Option<Coordinator>
    decreases |ids|
  {
    if ids == [] then Some(c)
    else match HandedOff(c, ids[0]) case None => None case Some(c') => Chain(c', ids[1..])
  }

  /** Every id the session has had leads to the one it has. */
  ghost predicate Leads(c: Coordinator, had: set<string>) {
    && c.current in had && c.current !in c.handoffs && c.handoffs.Keys <= had
    && forall id :: id in had ==> Resolve(c.handoffs, id) == c.current
  }

  lemma {:induction false} Extend(m: map<string, string>, id: string, seen: set<string>, current: string, new': string)
    requires ResolveFrom(m, id, seen) == current && current !in m && current !in seen
    requires new' !in m && new' != current
    ensures ResolveFrom(m[current := new'], id, seen) == new'
    decreases m.Keys - seen
  {
    var m' := m[current := new'];
    if id in m && id !in seen {
      assert m'[id] == m[id];
      Extend(m, m[id], seen + {id}, current, new');
    } else {
      assert ResolveFrom(m', new', seen + {current}) == new';
    }
  }

  lemma HandoffLeads(c: Coordinator, had: set<string>, new': string)
    requires Leads(c, had) && new' !in had
    ensures HandedOff(c, new').Some? && Leads(HandedOff(c, new').value, had + {new'})
  {
    var c' := HandedOff(c, new').value;
    forall id | id in had + {new'} ensures Resolve(c'.handoffs, id) == new' {
      if id in had { Extend(c.handoffs, id, {}, c.current, new'); }
    }
  }

  predicate AllNew(had: set<string>, ids: seq<string>) {
    && (forall i :: 0 <= i < |ids| ==> ids[i] !in had)
    && (forall i, j :: 0 <= i < j < |ids| ==> ids[i] != ids[j])
  }

  lemma {:induction false} ChainLeads(c: Coordinator, had: set<string>, ids: seq<string>)
    requires Leads(c, had) && AllNew(had, ids)
    ensures Chain(c, ids).Some?
    ensures var d := Chain(c, ids).value;
            && Leads(d, had + (set x | x in ids))
            && (c.attached == Some(c.current) ==> d.attached == Some(d.current))
    decreases |ids|
  {
    hide Leads, Resolve;
    if ids == [] {
      assert (set x | x in ids) == {} && had + {} == had;
    } else {
      var rest := ids[1..];
      HandoffLeads(c, had, ids[0]);
      forall i | 0 <= i < |rest| ensures rest[i] !in had + {ids[0]} { assert rest[i] == ids[i + 1]; }
      forall i, j | 0 <= i < j < |rest| ensures rest[i] != rest[j] { assert ids[i + 1] != ids[j + 1]; }
      ChainLeads(HandedOff(c, ids[0]).value, had + {ids[0]}, rest);
      var a, b := set x | x in rest, set x | x in ids;
      forall x ensures x in had + {ids[0]} + a <==> x in had + b {
        assert x in ids <==> x == ids[0] || x in rest;
      }
      assert had + {ids[0]} + a == had + b;
    }
  }

  /** Main result: after any sequence of handoffs through new ids, an attached
      session is still attached, and every id it has ever had routes its turn. */
  lemma OldIdsRoute(sessionId: string, ids: seq<string>, id: string)
    requires AllNew({sessionId}, ids) && (id == sessionId || id in ids)
    ensures var d := Chain(Coordinator(sessionId, Some(sessionId), map[]), ids);
            d.Some? && d.value.attached == Some(d.value.current) && RoutesTurn(d.value, id, d.value.current)
  {
    var c := Coordinator(sessionId, Some(sessionId), map[]);
    ChainLeads(c, {sessionId}, ids);
    assert id in {sessionId} + (set x | x in ids);
  }

  // ---- ids that come back --------------------------------------------------

  /** The ids a session has had, from its first on. */
  predicate Had(sessionId: string, ids: seq<string>, id: string) { id == sessionId || id in ids }

  /** When each id was last left: an id leads to the current one, or to one left
      later than itself. */
  ghost predicate Ordered(c: Coordinator, left: map<string, nat>, time: nat) {
    && left.Keys == c.handoffs.Keys
    && forall id :: id in left ==>
         && left[id] < time
         && c.handoffs[id] != id
         && (c.handoffs[id] == c.current || (c.handoffs[id] in left && left[id] < left[c.handoffs[id]]))
  }

  lemma HandoffOrders(c: Coordinator, left: map<string, nat>, time: nat, new': string)
    requires Ordered(c, left, time) && c.current != new'
    ensures Ordered(HandedOff(c, new').value, left[c.current := time], time + 1)
  {
  }

  lemma {:induction false} ChainOrders(c: Coordinator, left: map<string, nat>, time: nat, ids: seq<string>)
    returns (left': map<string, nat>, time': nat)
    requires Ordered(c, left, time) && Chain(c, ids).Some?
    ensures var d := Chain(c, ids).value;
            && Ordered(d, left', time')
            && (forall id :: id in left || id == c.current || id in ids <==> id in left' || id == d.current)
            && (c.attached == Some(c.current) ==> d.attached == Some(d.current))
    decreases |ids|
  {
    hide Ordered;
    if ids == [] {
      left', time' := left, time;
    } else {
      HandoffOrders(c, left, time, ids[0]);
      left', time' := ChainOrders(HandedOff(c, ids[0]).value, left[c.current := time], time + 1, ids[1..]);
      assert forall id :: id in ids <==> id == ids[0] || id in ids[1..];
    }
  }

  /** While the current id has not been left, every path ends there. */
  lemma {:induction false} PathEnds(c: Coordinator, left: map<string, nat>, time: nat, id: string, seen: set<string>)
    requires Ordered(c, left, time) && c.current !in c.handoffs && (id in left || id == c.current)
    requires forall x :: x in seen ==> x in left && (id in left ==> left[x] < left[id])
    ensures ResolveFrom(c.handoffs, id, seen) == c.current
    decreases c.handoffs.Keys - seen
  {
    if id in left {
      assert id !in seen;
      PathEnds(c, left, time, c.handoffs[id], seen + {id});
    }
  }

  /** Once it has been, the path from the id after it comes round to that id. */
  lemma {:induction false} PathReturns(c: Coordinator, left: map<string, nat>, time: nat, first: string, id: string,
                                       seen: set<string>)
    requires Ordered(c, left, time) && c.current in c.handoffs && first == c.handoffs[c.current]
    requires c.current !in seen && (first in seen || id == first)
    requires id == c.current || (id in left && forall x :: x in seen ==> x in left && left[x] < left[id])
    ensures ResolveFrom(c.handoffs, id, seen) == first
    decreases c.handoffs.Keys - seen
  {
    if id == c.current {
      assert ResolveFrom(c.handoffs, first, seen + {id}) == first;
    } else {
      assert id !in seen;
      PathReturns(c, left, time, first, c.handoffs[id], seen + {id});
    }
  }

  /** Main result, for any chain of handoffs, ids that come back included: every
      id the session has had routes its turn if and only if the id it has now is
      not one it had left. */
  lemma OldIdsRouteIff(sessionId: string, ids: seq<string>)
    requires Chain(Coordinator(sessionId, Some(sessionId), map[]), ids).Some?
    ensures var d := Chain(Coordinator(sessionId, Some(sessionId), map[]), ids).value;
            (forall id :: Had(sessionId, ids, id) ==> RoutesTurn(d, id, d.current)) <==> d.current !in d.handoffs
  {
    var c := Coordinator(sessionId, Some(sessionId), map[]);
    var left, time := ChainOrders(c, map[], 0, ids);
    var d := Chain(c, ids).value;
    if d.current in d.handoffs {
      var lost := d.handoffs[d.current];
      PathReturns(d, left, time, lost, lost, {});
      assert Had(sessionId, ids, lost) && !RoutesTurn(d, lost, d.current);
    } else {
      forall id | Had(sessionId, ids, id) ensures RoutesTurn(d, id, d.current) {
        PathEnds(d, left, time, id, {});
      }
    }
  }

  /** So the next handoff keeps them all exactly when its id is not one the
      session has left before. */
  lemma NextHandoffKeepsRoutes(sessionId: string, ids: seq<string>, new': string)
    requires Chain(Coordinator(sessionId, Some(sessionId), map[]), ids).Some?
    requires new' != Chain(Coordinator(sessionId, Some(sessionId), map[]), ids).value.current
    ensures var d := Chain(Coordinator(sessionId, Some(sessionId), map[]), ids).value;
            var e := HandedOff(d, new').value;
            (forall id :: Had(sessionId, ids + [new'], id) ==> RoutesTurn(e, id, e.current)) <==> new' !in d.handoffs
  {
    var c := Coordinator(sessionId, Some(sessionId), map[]);
    ChainAppend(c, ids, new');
    OldIdsRouteIff(sessionId, ids + [new']);
  }

  lemma {:induction false} ChainAppend(c: Coordinator, ids: seq<string>, new': string)
    requires Chain(c, ids).Some?
    ensures Chain(c, ids + [new']) == HandedOff(Chain(c, ids).value, new')
    decreases |ids|
  {
    if ids == [] {
      assert ([] + [new'])[1..] == [];
    } else {
      assert (ids + [new'])[0] == ids[0] && (ids + [new'])[1..] == ids[1..] + [new'];
      ChainAppend(HandedOff(c, ids[0]).value, ids[1..], new');
    }
  }

  /** The shortest chain that loses one: back to the first id. */
  lemma ReturningIdLosesTheOther(a: string, b: string)
    requires a != b
    ensures var d := Chain(Coordinator(a, Some(a), map[]), [b, a]);
            d.Some? && d.value.current == a && Resolve(d.value.handoffs, b) == b && !RoutesTurn(d.value, b, a)
  {
    var c := Coordinator(a, Some(a), map[]);
    var c1 := HandedOff(c, b).value;
    var c2 := HandedOff(c1, a).value;
    assert [b, a][1..] == [a] && [a][1..] == [];
    assert Chain(c2, []) == Some(c2);
    assert Chain(c1, [a]) == Some(c2);
    var m := c2.handoffs;
    assert m[b] == a && m[a] == b;
    assert ResolveFrom(m, b, {b, a}) == b;
    assert {b} + {a} == {b, a};
    assert ResolveFrom(m, a, {b}) == b;
    assert {} + {b} == {b};
    assert ResolveFrom(m, b, {}) == b;
  }

  // ---- which turns are routed ----------------------------------------------

  lemma {:induction false} ChainEnds(c: Coordinator, ids: seq<string>)
    requires Chain(c, ids).Some?
    ensures Chain(c, ids).value.current == if ids == [] then c.current else ids[|ids| - 1]
    ensures c.attached != Some(c.current) && (forall i :: 0 <= i < |ids| ==> c.attached != Some(ids[i])) ==>
              Chain(c, ids).value.attached == c.attached
    decreases |ids|
  {
    if ids != [] {
      ChainEnds(HandedOff(c, ids[0]).value, ids[1..]);
      assert forall i :: 0 <= i < |ids[1..]| ==> ids[1..][i] == ids[i + 1];
    }
  }

  lemma NotLed(c: Coordinator, had: set<string>, id: string)
    requires Leads(c, had) && id !in had
    ensures Resolve(c.handoffs, id) == id && id != c.current
  {
  }

  /** Main result: after any chain of handoffs through new ids, a turn is routed by
      an id if and only if the session is the attached one and the id is its
      current one, or one it had before and the turn is the current session's. */
  lemma RoutesExactly(sessionId: string, attached: Option<string>, ids: seq<string>, id: string, turnSession: string)
    requires AllNew({sessionId}, ids) && (attached.Some? ==> AllNew({attached.value}, ids))
    ensures var d := Chain(Coordinator(sessionId, attached, map[]), ids);
            && d.Some? && d.value.current == (if ids == [] then sessionId else ids[|ids| - 1])
            && (RoutesTurn(d.value, id, turnSession)
                <==> && attached == Some(sessionId)
                     && (id == d.value.current || (Had(sessionId, ids, id) && turnSession == d.value.current)))
  {
    hide Leads;
    var c, had := Coordinator(sessionId, attached, map[]), {sessionId};
    assert Leads(c, had) by { FirstLeads(sessionId, attached); }
    ChainLeads(c, had, ids);
    ChainEnds(c, ids);
    var d, all := Chain(c, ids).value, had + (set x | x in ids);
    assert id in all <==> Had(sessionId, ids, id);
    if Had(sessionId, ids, id) { LedTo(d, all, id); } else { NotLed(d, all, id); }
  }

  lemma FirstLeads(sessionId: string, attached: Option<string>)
    ensures Leads(Coordinator(sessionId, attached, map[]), {sessionId})
  {
  }

  lemma LedTo(c: Coordinator, had: set<string>, id: string)
    requires Leads(c, had) && id in had
    ensures Resolve(c.handoffs, id) == c.current
  {
  }

  /** With its earlier handoffs forgotten a session is found by its current id only. */
  lemma ForgottenIdsDoNotRoute(c: Coordinator, id: string, turnSession: string)
    ensures RoutesTurn(c.(handoffs := map[]), id, turnSession) <==> c.attached == Some(c.current) && id == c.current
  {
  }
}
