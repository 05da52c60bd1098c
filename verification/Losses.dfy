/** Entries that clients were told of and the server does not keep: a projector
    dropped before its entries are settled, one that goes on after that, and an
    end that is not told. */
module Losses {
  import opened Prelude
  import opened Entries
  import opened Projection
  import opened ProjectorFacts
  import opened ProjectorRuns
  import opened Client
  import opened Mirror
  import opened Telling
  import opened Session
  import opened Working

  /** The client shows a history from some entry on. */
  predicate ShowsEnd(c: Client, h: seq<Entry>) { exists k :: 0 <= k <= |h| && c.state.history == h[k..] }

  /** A client that shows more than the server keeps shows nothing of it right. */
  lemma ShowsEndIff(c: Client, kept: seq<Entry>, more: seq<Entry>, first: nat)
    requires UniqueIds(kept + more) && first <= |kept + more| && (0 < first ==> first < |kept + more|)
    requires c.state.history == (kept + more)[first..]
    ensures ShowsEnd(c, kept) <==> more == []
  {
    var all, t := kept + more, c.state.history;
    if more == [] {
      assert all == kept;
    } else {
      assert t[|t| - 1] == all[|all| - 1];
      forall k | 0 <= k <= |kept| ensures t != kept[k..] { NotLast(kept, all, k, t); }
    }
  }

  /** What ends with an entry that came later is no end of what was before. */
  lemma NotLast(kept: seq<Entry>, all: seq<Entry>, k: nat, t: seq<Entry>)
    requires UniqueIds(all) && |kept| < |all| && forall i :: 0 <= i < |kept| ==> kept[i].id == all[i].id
    requires k <= |kept| && t != [] && t[|t| - 1] == all[|all| - 1]
    ensures t != kept[k..]
  {
    if k < |kept| {
      assert kept[k..][|kept| - k - 1] == kept[|kept| - 1];
      assert all[|kept| - 1].id != all[|all| - 1].id;
    }
  }

  // ---- a projector dropped unsettled ---------------------------------------

  /** A turn whose end was cut short, or an injection cancelled on its way: the
      next turn starts with the entries settled before. */
  function Dropped(sv: Server): Server { Idled(sv, sv.settled) }

  /** Main result: a client in step with a session whose projector is then dropped
      shows what the server keeps if and only if the projector had no entry; the
      server's next turn does not bring it back. */
  lemma DroppedIff(sv: Server, c: Client, v: View, last: int, turnId: string, preview: string)
    requires InOrder(sv) && !sv.phase.Idle? && !sv.phase.Doubled?
    requires Agrees(c, sv.sessionId, Truth(sv), sv.turn, v, last)
    ensures Truth(Dropped(sv)) == sv.settled
    ensures var next := Perform(Dropped(sv), Work.Open(Turning, Some(turnId), preview));
            next.Some? && Truth(next.value.server) == sv.settled
    ensures ShowsEnd(c, Truth(Dropped(sv))) <==> sv.live.history == []
  {
    hide LiveOk, Closed;
    assert sv.settled + [] == sv.settled;
    ShowsEndIff(c, sv.settled, sv.live.history, v.first);
  }

  // ---- a projector that goes on after settling -----------------------------

  /** The notes of several actions. */
  function TellAll(s: State, calls: seq<Call>): seq<Note>
    decreases |calls|
  {
    if calls == [] then [] else Notes(Do(s, calls[0]).updates) + TellAll(Do(s, calls[0]).state, calls[1..])
  }

  /** None raises, and none ends a compaction that was not announced. */
  predicate Smooth(s: State, calls: seq<Call>)
    decreases |calls|
  {
    calls != [] ==>
      && Do(s, calls[0]).error.None? && !Unannounced(s, calls[0].action)
      && Smooth(Do(s, calls[0]).state, calls[1..])
  }

  lemma {:induction false} AllTold(before: seq<Entry>, s: State, calls: seq<Call>, c: Client, turn: Option<Turn>,
                                   v: View, last: int)
    requires LiveOk(s) && Closed(before) && Smooth(s, calls)
    requires UniqueIds(before + After(s, calls).history)
    requires last >= 0 && Agrees(c, s.sessionId, before + s.history, turn, v, last)
    ensures Carries(c, last, TellAll(s, calls), s.sessionId, before + After(s, calls).history, turn, v)
    ensures Grows(s.history, After(s, calls).history)
    decreases |calls|
  {
    hide LiveOk, Closed, Do, Agrees, Carries, UniqueIds, Grows, Unannounced;
    if calls == [] {
      CarriesNothing(c, last, s.sessionId, before + s.history, turn, v);
      GrowsRefl(s.history);
    } else {
      var x, rest := calls[0], calls[1..];
      var s1, notes := Do(s, x).state, Notes(Do(s, x).updates);
      OneKeeps(s, x);
      assert Valid(s1) by { LiveIsValid(s1); }
      RunGrows(s1, rest);
      UniqueGrows(before, s1.history, After(s1, rest).history);
      OneTold(before, s, x, c, turn, v, last);
      Arrives(c, last, notes, s.sessionId, before + s1.history, turn, v);
      AllTold(before, s1, rest, Drain(c, Sequenced(last, notes)).value, turn, v, last + |notes|);
      CarriesMore(c, last, notes, TellAll(s1, rest), s.sessionId, before + s1.history,
                  before + After(s1, rest).history, turn, v);
      GrowsTransitive(s.history, s1.history, After(s1, rest).history);
    }
  }

  lemma GrowsRefl(h: seq<Entry>)
    ensures Grows(h, h)
  {
  }

  lemma LiveIsValid(s: State)
    requires LiveOk(s)
    ensures Valid(s)
  {
  }

  lemma OneKeeps(s: State, x: Call)
    requires LiveOk(s) && Do(s, x).error.None? && !Unannounced(s, x.action)
    ensures LiveOk(Do(s, x).state) && Do(s, x).state.sessionId == s.sessionId
    ensures Grows(s.history, Do(s, x).state.history)
  {
    hide LiveOk, Unannounced, Grows, Project;
    ActionKeepsLive(s, x.action, x.newId, x.now);
  }

  lemma OneTold(before: seq<Entry>, s: State, x: Call, c: Client, turn: Option<Turn>, v: View, last: int)
    requires LiveOk(s) && Closed(before) && Do(s, x).error.None? && !Unannounced(s, x.action)
    requires UniqueIds(before + Do(s, x).state.history)
    requires last >= 0 && Agrees(c, s.sessionId, before + s.history, turn, v, last)
    ensures Carries(c, last, Notes(Do(s, x).updates), s.sessionId, before + Do(s, x).state.history, turn, v)
  {
    hide LiveOk, Unannounced, Closed, Agrees, Carries, UniqueIds, Project;
    ActionMirrored(before, s, x.action, x.newId, x.now, c, turn, v, last);
  }

  /** Main result: what other tasks project after a turn's entries have been settled
      is told, and taken without refusal, but not kept.  The client then shows what
      the server keeps if and only if no entry was added and none of the loaded
      ones changed. */
  lemma ActedAfterSettling(sv: Server, before: seq<Entry>, calls: seq<Call>, c: Client, v: View, last: int)
    requires InOrder(sv) && sv.phase.Doubled? && sv.settled == before + sv.live.history
    requires Smooth(sv.live, calls) && UniqueIds(before + After(sv.live, calls).history)
    requires last >= 0 && Agrees(c, sv.sessionId, Truth(sv), sv.turn, v, last)
    ensures var r, now := Drain(c, Sequenced(last, TellAll(sv.live, calls))), before + After(sv.live, calls).history;
            && r.Ok? && |sv.settled| <= |now|
            && (ShowsEnd(r.value, sv.settled)
                <==> && |now| == |sv.settled|
                     && forall i :: v.first <= i < |now| ==> now[i] == sv.settled[i])
  {
    hide LiveOk, Smooth, After, TellAll;
    assert Closed(before) by { ClosedFront(before, sv.live.history); }
    AllTold(before, sv.live, calls, c, sv.turn, v, last);
    var r, now := Drain(c, Sequenced(last, TellAll(sv.live, calls))).value, before + After(sv.live, calls).history;
    assert r.state.history == now[v.first..];
    GrowsJoined(before, sv.live.history, After(sv.live, calls).history);
    ShownIff(r, sv.settled, now, v.first);
  }

  lemma ClosedFront(a: seq<Entry>, b: seq<Entry>)
    requires Closed(a + b)
    ensures Closed(a)
  {
    forall i | 0 <= i < |a| ensures Named(a[i]) && Tidy(a[i]) && (a[i].body.Callback? ==> a[i].status.Complete?) {
      assert (a + b)[i] == a[i];
    }
  }

  lemma GrowsJoined(a: seq<Entry>, h: seq<Entry>, h': seq<Entry>)
    requires Grows(h, h')
    ensures Grows(a + h, a + h')
  {
    forall i | 0 <= i < |a + h| ensures Advances((a + h)[i], (a + h')[i]) {
      if i >= |a| { assert Advances(h[i - |a|], h'[i - |a|]); }
    }
  }

  lemma ShownIff(c: Client, kept: seq<Entry>, now: seq<Entry>, first: nat)
    requires Grows(kept, now) && UniqueIds(now) && first <= |now| && (0 < first ==> first < |now|)
    requires first <= |kept| && c.state.history == now[first..]
    ensures ShowsEnd(c, kept) <==> |now| == |kept| && forall i :: first <= i < |now| ==> now[i] == kept[i]
  {
    var t := c.state.history;
    forall i | 0 <= i < |kept| ensures kept[i].id == now[i].id { assert Advances(kept[i], now[i]); }
    if |now| > |kept| {
      assert t[|t| - 1] == now[|now| - 1];
      forall k | 0 <= k <= |kept| ensures t != kept[k..] { NotLast(kept, now, k, t); }
    } else if ShowsEnd(c, kept) {
      var k :| 0 <= k <= |kept| && t == kept[k..];
      assert k == first;
      forall i | first <= i < |now| ensures now[i] == kept[i] { assert t[i - first] == kept[i]; }
    }
    if |now| == |kept| && forall i :: first <= i < |now| ==> now[i] == kept[i] { assert t == kept[first..]; }
  }

  // ---- an end that is not told ---------------------------------------------

  /** A turn that is over without its end being told: the client shows another
      status, until the next turn is announced. */
  lemma EndUntold(sv: Server, c: Client, v: View, last: int, status: TurnStatus, next: Turn)
    requires InOrder(sv) && sv.phase.Doubled? && last >= 0
    requires Agrees(c, sv.sessionId, Truth(sv), sv.turn, v, last)
    ensures sv.turn.Some?
    ensures c.state.turn == Some(sv.turn.value.(status := status)) <==> status == sv.turn.value.status
    ensures Carries(c, last, [TurnStarted(sv.sessionId, next)], sv.sessionId, sv.settled, Some(next), v)
  {
    hide LiveOk, Closed, Mirrors;
    var notes := [TurnStarted(sv.sessionId, next)];
    QuietNotes(c, last, notes, sv.sessionId, sv.settled, sv.turn, v);
    assert notes[1..] == [];
    assert LastTurn(notes, sv.turn) == LastTurn([], Some(next));
  }
}
