/** How a turn is said to have ended, and how its entries are closed for that. */
module Verdicts {
  import opened Prelude
  import opened Entries
  import opened Projection
  import opened ProjectorFacts
  import opened Client
  import opened Execution
  import opened Turns
  import opened TurnEnds
  import opened Finalizing

  // ---- what stops a turn ---------------------------------------------------

  predicate EffectOf(s: State, related: Option<string>) {
    && related.Some? && (Effects, related.value) in s.ids
    && var id := s.ids[(Effects, related.value)];
    id in s.entries && s.entries[id].body.Effect?
  }

  /** An input that raises in the turn: an event whose projection raises, a
      callback that cannot be asked, or going on from one that was rejected. */
  predicate Stops(c: Control, input: Input) {
    match input
    case Core(a, newId, now) => c.projector.Some? && Project(c.projector.value, a, newId, now).error.Some?
    case Ask(id, approval, title, detail, related, newId, now) =>
      || c.projector.None? || c.active.None? || id in c.callbacks
      || (approval && !EffectOf(c.projector.value, related))
      || Project(c.projector.value, OpenCallback(id, title, detail, related), newId, now).error.Some?
    case Resume(id) => id in c.callbacks && c.callbacks[id].future.Rejected?
    case Move(_) => false
    case Elsewhere(_) => false
  }

  lemma GoesOnIff(c: Control, input: Input)
    ensures Take(c, input).1 <==> !Stops(c, input)
  {
    hide Project;
  }

  lemma {:induction false} AllTakenIff(c: Control, inputs: seq<Input>)
    ensures TakeAll(c, inputs).1 <==>
            forall k :: 0 <= k < |inputs| ==> !Stops(TakeAll(c, inputs[..k]).0, inputs[k])
    decreases |inputs|
  {
    hide Take, Stops;
    if inputs != [] {
      var c1, rest := Take(c, inputs[0]).0, inputs[1..];
      GoesOnIff(c, inputs[0]);
      assert TakeAll(c, inputs[..0]).0 == c;
      if Take(c, inputs[0]).1 {
        AllTakenIff(c1, rest);
        forall k | 0 <= k < |rest| ensures TakeAll(c, inputs[..k + 1]).0 == TakeAll(c1, rest[..k]).0 {
          assert inputs[..k + 1][0] == inputs[0] && inputs[..k + 1][1..] == rest[..k];
        }
        assert forall k :: 0 <= k < |rest| ==> rest[k] == inputs[k + 1];
        assert forall k :: 1 <= k < |inputs| ==> inputs[k] == rest[k - 1];
      }
    }
  }

  /** The control a turn's k-th input finds. */
  function Meeting(c: Control, f: Fate, k: nat): Control
    requires c.active.Some? && k <= |f.inputs|
  {
    TakeAll(Announced(c, f.before).0, f.inputs[..k]).0
  }

  predicate Stopped(c: Control, f: Fate)
    requires c.active.Some?
  {
    exists k :: 0 <= k < |f.inputs| && Stops(Meeting(c, f, k), f.inputs[k])
  }

  // ---- the turns that are told ---------------------------------------------

  /** The notes that say that a turn begins or is over. */
  function TurnsIn(notes: seq<Note>): seq<Note> {
    if notes == [] then []
    else (if notes[0].TurnStarted? || notes[0].TurnCompleted? then [notes[0]] else []) + TurnsIn(notes[1..])
  }

  lemma {:induction false} TurnsInConcat(a: seq<Note>, b: seq<Note>)
    ensures TurnsIn(a + b) == TurnsIn(a) + TurnsIn(b)
    decreases |a|
  {
    if a == [] {
      assert a + b == b;
    } else {
      assert (a + b)[0] == a[0] && (a + b)[1..] == a[1..] + b;
      TurnsInConcat(a[1..], b);
    }
  }

  lemma {:induction false} NoTurnsIn(notes: seq<Note>)
    requires forall i :: 0 <= i < |notes| ==> NoTurn(notes[i])
    ensures TurnsIn(notes) == []
    decreases |notes|
  {
    if notes != [] {
      forall i | 0 <= i < |notes[1..]| ensures NoTurn(notes[1..][i]) { assert NoTurn(notes[i + 1]); }
      NoTurnsIn(notes[1..]);
    }
  }

  /** More has been told, of turns this and nothing else. */
  predicate Tells(c: Control, d: Control, turns: seq<Note>) {
    |c.told| <= |d.told| && d.told[..|c.told|] == c.told && TurnsIn(d.told[|c.told|..]) == turns
  }

  lemma TellsOn(c: Control, d: Control, e: Control, x: seq<Note>, y: seq<Note>)
    requires Tells(c, d, x) && Tells(d, e, y)
    ensures Tells(c, e, x + y)
  {
    assert e.told[..|c.told|] == e.told[..|d.told|][..|c.told|];
    assert e.told[|c.told|..] == d.told[|c.told|..] + e.told[|d.told|..] by {
      assert e.told == e.told[..|d.told|] + e.told[|d.told|..];
    }
    TurnsInConcat(d.told[|c.told|..], e.told[|d.told|..]);
  }

  lemma TellsSame(c: Control, d: Control)
    requires d.told == c.told
    ensures Tells(c, d, [])
  {
  }

  lemma SteadyTells(c: Control, d: Control)
    requires Steady(c, d)
    ensures Tells(c, d, [])
  {
    var more := d.told[|c.told|..];
    forall i | 0 <= i < |more| ensures NoTurn(more[i]) { assert NoTurn(d.told[|c.told| + i]); }
    NoTurnsIn(more);
  }

  lemma TakeTells(c: Control, turnId: string, input: Input)
    requires Held(c, turnId)
    ensures Tells(c, Take(c, input).0, [])
  {
    hide Valid, Projected, Does, Steady, Tells, EffectKnown;
    TellsSame(c, c);
    match input {
      case Core(a, newId, now) =>
        ProjectedSteady(c, a, newId, now);
        SteadyTells(c, Projected(c, a, newId, now).0);
      case Ask(id, approval, title, detail, related, newId, now) =>
        if CannotAsk(c, id, approval, related) {
          TellsSame(c, RejectOne(c, id));
        } else {
          var c1 := c.(callbacks := c.callbacks[id := Record(approval, Waiting, None, false, None)]);
          assert Orderly(c1);
          var c2 := Projected(c1, OpenCallback(id, title, detail, related), newId, now).0;
          ProjectedSteady(c1, OpenCallback(id, title, detail, related), newId, now);
          TellsSame(c, c1);
          SteadyTells(c1, c2);
          TellsOn(c, c1, c2, [], []);
          TellsSame(c2, RejectOne(c2, id));
          TellsOn(c, c2, RejectOne(c2, id), [], []);
        }
      case Elsewhere(o) =>
        DoesSteady(c, o);
        SteadyTells(c, Does(c, o));
      case Move(_) => TellsSame(c, Take(c, input).0);
      case Resume(_) => TellsSame(c, Take(c, input).0);
    }
  }

  lemma {:induction false} TakeAllTells(c: Control, turnId: string, inputs: seq<Input>)
    requires Held(c, turnId)
    ensures Tells(c, TakeAll(c, inputs).0, [])
    decreases |inputs|
  {
    hide Held, Take, Tells;
    TellsSame(c, c);
    if inputs != [] {
      var c1 := Take(c, inputs[0]).0;
      TakeHeld(c, turnId, inputs[0]);
      TakeTells(c, turnId, inputs[0]);
      if Take(c, inputs[0]).1 {
        TakeAllTells(c1, turnId, inputs[1..]);
        TellsOn(c, c1, TakeAll(c, inputs).0, [], []);
      }
    }
  }

  lemma OneTells(c: Control, note: Note, d: Control)
    requires note.TurnStarted? || note.TurnCompleted?
    requires Steady(c.(told := c.told + [note]), d)
    ensures Tells(c, d, [note])
  {
    hide Steady;
    var c0 := c.(told := c.told + [note]);
    SteadyTells(c0, d);
    assert c0.told[|c.told|..] == [note] && [note][1..] == [];
    TellsOn(c, c0, d, [note], []);
    assert [note] + [] == [note];
  }

  /** What a task tells of turns before its guarded part. */
  function Begun(c: Control, ps: seq<Pause>): seq<Note>
    requires c.active.Some?
  {
    if At(ps, 0).cancelled then [] else [TurnStarted(c.active.value.sessionId, c.active.value)]
  }

  lemma AnnouncedTells(c: Control, turnId: string, ps: seq<Pause>)
    requires Held(c, turnId)
    ensures Tells(c, Announced(c, ps).0, Begun(c, ps))
  {
    hide Orderly, Steady, Tells, Sent;
    var turn, c1 := c.active.value, Meanwhile(c, At(ps, 0).others);
    MeanwhileSteady(c, At(ps, 0).others);
    SteadyTells(c, c1);
    SteadyIsOrderly(c, c1);
    if !At(ps, 0).cancelled {
      var first, rest := TurnStarted(turn.sessionId, turn), [Note.SessionUpdated(turn.sessionId),
        StatsUpdated(turn.sessionId)];
      FirstSent(c1, first, rest, From(ps, 1));
      assert [first] + rest == [first, rest[0], rest[1]];
      var d := Announced(c, ps).0;
      OneTells(c1, first, d);
      TellsOn(c, c1, d, [], [first]);
      assert [] + [first] == [first];
    }
  }

  /** A note about no turn, and one about its end. */
  lemma NoteTells(c: Control, note: Note, ps: seq<Pause>, i: nat)
    requires Orderly(c) && NoTurn(note)
    ensures Tells(c, Sent(c, [note], From(ps, i)).0, [])
  {
    NoteSteady(c, note, ps, i);
    SteadyTells(c, Sent(c, [note], From(ps, i)).0);
  }

  lemma EndTells(c: Control, end: Note, ps: seq<Pause>)
    requires Orderly(c) && end.TurnCompleted?
    ensures Tells(c, Sent(c, [end], ps).0, [end])
    ensures Sent(c, [end], ps).0.last == c.last
  {
    hide Steady, Tells, Sent;
    var c0, d := c.(told := c.told + [end]), Sent(c, [end], ps).0;
    assert [end] + [] == [end];
    FirstSent(c, end, [], ps);
    SteadyHistory(c0, d);
    OneTells(c, end, d);
  }

  /** The whole finalization: it tells the end if and only if it gets that far. */
  lemma FinalizedTells(b: Control, turnId: string, turn: Turn, status: TurnStatus, now: int, ps: seq<Pause>)
    requires Held(b, turnId) && b.active == Some(turn)
    ensures var n, over := |ClosedUp(b, status, now).1|, turn.(status := status);
            var d := Finalized(b, turn, Owning(turnId), status, now, ps).0;
            if StretchOf(n, ps).Through?
            then Tells(b, d, [TurnCompleted(turn.sessionId, over)]) && d.last == Some(over)
            else Tells(b, d, [])
  {
    hide Held, Orderly, Steady, CutIn, ClosedUp, Sent, Tells, Settled, Left, Leaves, ToldOn;
    var (c0, notes) := ClosedUp(b, status, now);
    var over, n := turn.(status := status), |notes|;
    HeldIs(b, turnId);
    ClosedHeld(b, turnId, status, now);
    HeldIs(c0, turnId);
    FirstStretch(b, turnId, status, now, ps);
    var c1 := Sent(c0, notes, ps).0;
    SteadyTells(b, c1);
    if !CutIn(ps, n) {
      SettlingStretch(b, c1, turnId, turn, status, ps, n);
      LaterTells(b, c1, turnId, turn, status, ps, n);
    }
  }

  lemma LaterTells(b: Control, c1: Control, turnId: string, turn: Turn, status: TurnStatus, ps: seq<Pause>, n: nat)
    requires Held(b, turnId) && Steady(b, c1) && ToldOn(b, c1) && b.active == Some(turn) && Tells(b, c1, [])
    ensures var over := turn.(status := status);
            var (c2, cut2) := Sent(Settled(c1, over), [StatsUpdated(turn.sessionId)], From(ps, n));
            var (d, cut) := Leaving(c2, turn.sessionId, over, Owning(turnId), ps, n + 1);
            && (cut2 <==> At(ps, n).cancelled) && Tells(b, c2, [])
            && (if At(ps, n + 1).cancelled then Tells(b, d, [])
                else Tells(b, d, [TurnCompleted(turn.sessionId, over)]) && d.last == Some(over))
  {
    hide Held, Orderly, Steady, Sent, Tells, Grows, ToldOn, Leaves, AllSettled;
    var over := turn.(status := status);
    var s1 := Settled(c1, over);
    var c2 := Sent(s1, [StatsUpdated(turn.sessionId)], From(ps, n)).0;
    SettlingStretch(b, c1, turnId, turn, status, ps, n);
    SettledIs(b, c1, turnId, over);
    TellsSame(c1, s1);
    TellsOn(b, c1, s1, [], []);
    NoteTells(s1, StatsUpdated(turn.sessionId), ps, n);
    TellsOn(b, s1, c2, [], []);
    var l := Left(c2);
    var c3 := Sent(l, [Note.SessionUpdated(turn.sessionId)], From(ps, n + 1)).0;
    LeftIs(c2);
    TellsSame(c2, l);
    TellsOn(b, c2, l, [], []);
    NoteSteady(l, Note.SessionUpdated(turn.sessionId), ps, n + 1);
    SteadyHistory(l, c3);
    NoteTells(l, Note.SessionUpdated(turn.sessionId), ps, n + 1);
    TellsOn(b, l, c3, [], []);
    var r := c3.(slot := Released(c3.slot, Owning(turnId)));
    SlotApart(c3, r.slot);
    TellsSame(c3, r);
    TellsOn(b, c3, r, [], []);
    EndTells(r, TurnCompleted(turn.sessionId, over), From(ps, n + 2));
    TellsOn(b, r, Sent(r, [TurnCompleted(turn.sessionId, over)], From(ps, n + 2)).0, [],
            [TurnCompleted(turn.sessionId, over)]);
    assert [] + [TurnCompleted(turn.sessionId, over)] == [TurnCompleted(turn.sessionId, over)];
  }

  // ---- how many sends closing takes ----------------------------------------

  /** The turn's entries when its guarded part is over. */
  function AtEnd(c: Control, f: Fate): seq<Entry>
    requires c.active.Some?
  {
    var b := GuardedEnd(c, f);
    if b.projector.None? then [] else b.projector.value.history
  }

  lemma ClosingsAre(c: Control, turnId: string, f: Fate)
    requires Held(c, turnId)
    ensures Closings(c, f) == |StillOpen(AtEnd(c, f))|
  {
    hide Held, Announced, TakeAll, Project, Valid;
    HeldIs(c, turnId);
    EndHeld(c, turnId, f);
    var b := GuardedEnd(c, f);
    HeldIs(b, turnId);
    FinalizeCloses(b.projector.value, FinalStatus(c, f).TurnInterrupted?, "", f.now);
    TouchedCounts(Project(b.projector.value, Finalize(FinalStatus(c, f).TurnInterrupted?), "", f.now).updates);
  }

  // ---- the theorems --------------------------------------------------------

  lemma StatusIff(c: Control, turnId: string, f: Fate)
    requires Held(c, turnId)
    ensures FinalStatus(c, f).TurnFailed? <==> Stopped(c, f) || f.ending.Raises?
    ensures FinalStatus(c, f).TurnInterrupted? <==> !Stopped(c, f) && f.ending.CancelledOnce?
    ensures FinalStatus(c, f).TurnDone? <==> !Stopped(c, f) && f.ending.Ends?
  {
    hide Held, Announced, TakeAll, Stops;
    HeldIs(c, turnId);
    AllTakenIff(Announced(c, f.before).0, f.inputs);
  }

  /** Main result: a task tells of one turn only, its own: that it begins, unless
      it is cancelled before that, and, if and only if it goes through, that it is
      over, under the session it has then.  The turn has failed if and only if an
      input stopped it or its core raised, was interrupted if and only if it was
      cancelled unstopped, and is done otherwise. */
  lemma EndIsTold(c: Control, turnId: string, f: Fate)
    requires Held(c, turnId)
    ensures var b, d := GuardedEnd(c, f), TaskDone(c, f);
            var begun := if At(f.before, 0).cancelled then []
                         else [TurnStarted(c.active.value.sessionId, c.active.value)];
            if CutIn(f.before, BEFORE) || CutIn(f.after, |StillOpen(AtEnd(c, f))| + 2) then Tells(c, d, begun)
            else
              && b.active.Some? && b.active.value.id == turnId
              && d.last.Some? && d.last.value == b.active.value.(status := d.last.value.status)
              && Tells(c, d, begun + [TurnCompleted(b.active.value.sessionId, d.last.value)])
              && (d.last.value.status.TurnFailed? <==> Stopped(c, f) || f.ending.Raises?)
              && (d.last.value.status.TurnInterrupted? <==> !Stopped(c, f) && f.ending.CancelledOnce?)
              && (d.last.value.status.TurnDone? <==> !Stopped(c, f) && f.ending.Ends?)
  {
    hide Held, Announced, TakeAll, Finalized, CutIn, ClosedUp, Tells, Stopped, Stops;
    HeldIs(c, turnId);
    var a, b, d := Announced(c, f.before).0, GuardedEnd(c, f), TaskDone(c, f);
    var begun := Begun(c, f.before);
    TaskEnds(c, turnId, f);
    EndHeld(c, turnId, f);
    HeldIs(a, turnId);
    HeldIs(b, turnId);
    ClosingsAre(c, turnId, f);
    AnnouncedTells(c, turnId, f.before);
    assert begun + [] == begun;
    if CutIn(f.before, BEFORE) {
      TellsSame(a, d);
      TellsOn(c, a, d, begun, []);
    } else {
      TakeAllTells(a, turnId, f.inputs);
      TellsOn(c, a, b, begun, []);
      var e := Finalized(b, b.active.value, Owning(turnId), FinalStatus(c, f), f.now, f.after).0;
      FinalizedTells(b, turnId, b.active.value, FinalStatus(c, f), f.now, f.after);
      ThroughIff(Closings(c, f), f.after);
      TellsSame(e, d);
      var ends := if StretchOf(Closings(c, f), f.after).Through?
                  then [TurnCompleted(b.active.value.sessionId, e.last.value)] else [];
      TellsOn(c, b, e, begun, ends);
      assert begun + ends + [] == begun + ends;
      TellsOn(c, e, d, begun + ends, []);
      StatusIff(c, turnId, f);
    }
  }

  lemma FrozenOnceClosed(h: seq<Entry>, closed: seq<Entry>, live: seq<Entry>, cancelled: bool, now: int)
    requires AllClosedAs(h, closed, cancelled, now) && Grows(closed, live)
    ensures |h| <= |live| && forall i :: 0 <= i < |h| ==> ClosedAs(h[i], live[i], cancelled, now)
  {
    forall i | 0 <= i < |h| ensures ClosedAs(h[i], live[i], cancelled, now) {
      assert ClosedAs(h[i], closed[i], cancelled, now) && Advances(closed[i], live[i]);
    }
  }

  lemma SettledAsClosed(b: Control, turnId: string, status: TurnStatus, now: int, ps: seq<Pause>)
    requires Held(b, turnId) && !CutIn(ps, |ClosedUp(b, status, now).1|)
    ensures var live, h := AtSettling(b, status, now, ps), b.projector.value.history;
            |h| <= |live| && forall i :: 0 <= i < |h| ==> ClosedAs(h[i], live[i], status.TurnInterrupted?, now)
  {
    hide Held, Sent, Grows, ClosedAs, CutIn, Project, Steady;
    HeldIs(b, turnId);
    ClosedHeld(b, turnId, status, now);
    var (c0, notes) := ClosedUp(b, status, now);
    HeldIs(c0, turnId);
    SentSteady(c0, notes, ps);
    var c1 := Sent(c0, notes, ps).0;
    SteadyGrows(c0, c1);
    FinalizeCloses(b.projector.value, status.TurnInterrupted?, "", now);
    FrozenOnceClosed(b.projector.value.history, c0.projector.value.history, c1.projector.value.history,
                     status.TurnInterrupted?, now);
  }

  /** Main result: once the closing of its entries has been told, the turn's
      entries are settled each as closed for the status that is its last, whatever
      other tasks do meanwhile; so an effect that was in progress ends cancelled
      if and only if the turn was interrupted, and failed otherwise. */
  lemma EntriesMatchStatus(c: Control, turnId: string, f: Fate)
    requires Held(c, turnId) && !CutIn(f.before, BEFORE) && !CutIn(f.after, |StillOpen(AtEnd(c, f))|)
    ensures var b, d, h := GuardedEnd(c, f), TaskDone(c, f), AtEnd(c, f);
            && d.last.Some? && b.history <= d.history && |h| <= |Gained(b, d)|
            && forall i :: 0 <= i < |h| ==>
                 && ClosedAs(h[i], Gained(b, d)[i], d.last.value.status.TurnInterrupted?, f.now)
                 && (h[i].status.InProgress? && h[i].body.Effect? ==>
                       && Gained(b, d)[i].body.Effect?
                       && (Gained(b, d)[i].body.state.Cancelled? <==> d.last.value.status.TurnInterrupted?)
                       && (Gained(b, d)[i].body.state.Failed? <==> !d.last.value.status.TurnInterrupted?))
  {
    hide Held, Announced, TakeAll, Finalized, CutIn, ClosedUp, AtSettling, Grows, AllSettled;
    HeldIs(c, turnId);
    var b, status := GuardedEnd(c, f), FinalStatus(c, f);
    TaskEnds(c, turnId, f);
    EndHeld(c, turnId, f);
    HeldIs(b, turnId);
    ClosingsAre(c, turnId, f);
    FinalizedLeaves(b, turnId, b.active.value, status, f.now, f.after);
    SettledAsClosed(b, turnId, status, f.now, f.after);
    assert Gained(b, TaskDone(c, f)) == AtSettling(b, status, f.now, f.after);
  }
}
