/** The end of a turn, wherever its task is cancelled: what it leaves behind, and
    when that is all it owes. */
module TurnEnds {
  import opened Prelude
  import opened Json
  import opened Entries
  import opened Projection
  import opened ProjectorFacts
  import opened ProjectorRuns
  import opened Finalizing
  import opened Client
  import opened Mirror
  import opened Session
  import opened Execution
  import opened Turns
  import opened Steering

  lemma NotesNoTurn(us: seq<Update>)
    ensures forall i :: 0 <= i < |Notes(us)| ==> NoTurn(Notes(us)[i])
  {
  }

  lemma GrowsSame(h: seq<Entry>)
    ensures Grows(h, h)
  {
  }

  lemma SteadySame(c: Control)
    requires Orderly(c)
    ensures Steady(c, c)
  {
    if c.projector.Some? { GrowsSame(c.projector.value.history); }
  }

  lemma SteadyOn(c: Control, d: Control, e: Control)
    requires Steady(c, d) && Steady(d, e)
    ensures Steady(c, e)
  {
    hide Grows, RecordOk, AllSettled, Valid;
    if c.projector.Some? {
      GrowsTransitive(c.projector.value.history, d.projector.value.history, e.projector.value.history);
    }
    forall i | |c.told| <= i < |e.told| ensures NoTurn(e.told[i]) {
      if i < |d.told| { assert e.told[i] == d.told[i]; }
    }
  }

  lemma ProjectedSteady(c: Control, a: Action, newId: string, now: int)
    requires Orderly(c)
    ensures Steady(c, Projected(c, a, newId, now).0)
  {
    hide Project, Grows, RecordOk, Valid;
    if c.projector.Some? {
      DoKeeps(c.projector.value, ProjectorRuns.Call(a, newId, now));
      NotesNoTurn(Project(c.projector.value, a, newId, now).updates);
    }
  }

  lemma ResolvingSteady(c: Control, id: string, output: Json, now: int)
    requires Orderly(c)
    ensures var (d, notes, ok) := Resolving(c, id, output, now);
            && Orderly(d) && Steady(c, d) && d == c.(projector := d.projector)
            && forall i :: 0 <= i < |notes| ==> NoTurn(notes[i])
  {
    hide Project, Grows, RecordOk, Valid;
    if c.projector.Some? {
      DoKeeps(c.projector.value, ProjectorRuns.Call(ResolveCallback(id, output), "", now));
      NotesNoTurn(Project(c.projector.value, ResolveCallback(id, output), "", now).updates);
    }
  }

  /** One record, and at most one note, at a time. */
  lemma RecordSteady(c: Control, id: string, r: Record, notes: seq<Note>)
    requires Orderly(c) && id in c.callbacks && RecordOk(r)
    requires r.coreResolved == c.callbacks[id].coreResolved || r.coreResolved
    requires !c.callbacks[id].future.Waiting? ==> !r.future.Waiting?
    requires forall i :: 0 <= i < |notes| ==> NoTurn(notes[i])
    ensures Steady(c, c.(callbacks := c.callbacks[id := r], told := c.told + notes))
  {
    hide RecordOk, Grows, Valid;
    if c.projector.Some? { GrowsSame(c.projector.value.history); }
  }

  lemma ProceedSteady(c: Control, id: string)
    requires Orderly(c)
    ensures Steady(c, Proceed(c, id))
  {
    hide Grows, Valid;
    if id !in c.callbacks || c.callbacks[id].answering.None? {
      SteadySame(c);
    } else {
      var r, a := c.callbacks[id], c.callbacks[id].answering.value;
      assert RecordOk(r);
      assert c.told + [] == c.told;
      var d := Proceed(c, id);
      var notes := if a.left != [] then [a.left[0]]
                   else if !a.statusSent && c.active.Some? then [Note.SessionUpdated(c.active.value.sessionId)]
                   else [];
      RecordSteady(c, id, d.callbacks[id], notes);
    }
  }

  lemma AnswerSteady(c: Control, id: string, reply: Reply, now: int)
    requires Orderly(c)
    ensures Steady(c, BeginAnswer(c, id, reply, now).0)
  {
    hide Resolving, Steady, Grows, Valid;
    SteadySame(c);
    var (c1, notes, ok) := Resolving(c, id, reply.output, now);
    ResolvingSteady(c, id, reply.output, now);
    if BeginAnswer(c, id, reply, now).1.Begun? {
      var r := c.callbacks[id];
      assert RecordOk(r) && c1.callbacks == c.callbacks;
      assert c1.told + [] == c1.told;
      RecordSteady(c1, id, r.(answering := Some(Answering(reply, notes, false))), []);
      SteadyOn(c, c1, BeginAnswer(c, id, reply, now).0);
    }
  }

  lemma SteadyIsOrderly(c: Control, d: Control)
    requires Steady(c, d)
    ensures Orderly(d)
  {
  }

  lemma DoesSteady(c: Control, o: Other)
    requires Orderly(c)
    ensures Steady(c, Does(c, o))
  {
    hide Projected, BeginAnswer, Proceed, Grows, Valid;
    match o {
      case Side(a, newId, now) => ProjectedSteady(c, a, newId, now);
      case Respond(id, reply, now) =>
        var c1 := BeginAnswer(c, id, reply, now).0;
        AnswerSteady(c, id, reply, now);
        SteadyIsOrderly(c, c1);
        ProceedSteady(c1, id);
        SteadyOn(c, c1, Proceed(c1, id));
      case GoOn(id) => ProceedSteady(c, id);
      case GiveUp(id) =>
        SteadySame(c);
        if id in c.callbacks {
          assert RecordOk(c.callbacks[id]) && c.told + [] == c.told;
          RecordSteady(c, id, c.callbacks[id].(answering := None), []);
        }
      case Refuse(id) =>
        SteadySame(c);
        if id in c.callbacks {
          assert RecordOk(c.callbacks[id]) && c.told + [] == c.told;
          RecordSteady(c, id, Reject(c.callbacks[id]), []);
        }
    }
  }

  lemma {:induction false} MeanwhileSteady(c: Control, others: seq<Other>)
    requires Orderly(c)
    ensures Steady(c, Meanwhile(c, others))
    decreases |others|
  {
    hide Steady, Orderly, Does;
    if others == [] {
      SteadySame(c);
    } else {
      var c1 := Does(c, others[0]);
      DoesSteady(c, others[0]);
      SteadyIsOrderly(c, c1);
      MeanwhileSteady(c1, others[1..]);
      SteadyOn(c, c1, Meanwhile(c, others));
    }
  }

  lemma TellSteady(c: Control, note: Note)
    requires Orderly(c) && NoTurn(note)
    ensures Steady(c, c.(told := c.told + [note]))
  {
    if c.projector.Some? { GrowsSame(c.projector.value.history); }
  }

  lemma CutFirst(ps: seq<Pause>, n: nat)
    requires n > 0
    ensures CutIn(ps, n) <==> At(ps, 0).cancelled || CutIn(From(ps, 1), n - 1)
  {
    if i :| 0 <= i < n && At(ps, i).cancelled { if i > 0 { assert At(From(ps, 1), i - 1).cancelled; } }
    if i :| 0 <= i < n - 1 && At(From(ps, 1), i).cancelled { assert At(ps, i + 1).cancelled; }
  }

  lemma {:induction false} SentSteady(c: Control, notes: seq<Note>, ps: seq<Pause>)
    requires Orderly(c) && forall i :: 0 <= i < |notes| ==> NoTurn(notes[i])
    ensures Steady(c, Sent(c, notes, ps).0)
    ensures Sent(c, notes, ps).1 <==> CutIn(ps, |notes|)
    decreases |notes|
  {
    hide Steady, Orderly, CutIn;
    if notes == [] {
      SteadySame(c);
      NoCut(ps);
    } else {
      var c0 := c.(told := c.told + [notes[0]]);
      var c1 := Meanwhile(c0, At(ps, 0).others);
      TellSteady(c, notes[0]);
      SteadyIsOrderly(c, c0);
      MeanwhileSteady(c0, At(ps, 0).others);
      SteadyIsOrderly(c0, c1);
      SteadyOn(c, c0, c1);
      CutFirst(ps, |notes|);
      if !At(ps, 0).cancelled {
        SentSteady(c1, notes[1..], From(ps, 1));
        SteadyOn(c, c1, Sent(c, notes, ps).0);
      }
    }
  }

  lemma NoCut(ps: seq<Pause>)
    ensures !CutIn(ps, 0)
  {
  }

  lemma CutSplit(ps: seq<Pause>, m: nat, n: nat)
    ensures CutIn(ps, m + n) <==> CutIn(ps, m) || CutIn(From(ps, m), n)
  {
    if i :| 0 <= i < m + n && At(ps, i).cancelled { if i >= m { assert At(From(ps, m), i - m).cancelled; } }
    if i :| 0 <= i < m && At(ps, i).cancelled { assert 0 <= i < m + n; }
    if i :| 0 <= i < n && At(From(ps, m), i).cancelled { assert At(ps, i + m).cancelled; }
  }

  // ---- the guarded part ----------------------------------------------------

  ghost predicate Held(c: Control, turnId: string) {
    && c.active.Some? && c.active.value.id == turnId
    && c.projector.Some? && Orderly(c)
    && c.slot == Some(Owning(turnId))
  }

  lemma SteadyHeld(c: Control, d: Control, turnId: string)
    requires Held(c, turnId) && Steady(c, d)
    ensures Held(d, turnId)
  {
    hide Orderly, Grows;
    SteadyIsOrderly(c, d);
  }

  lemma AskHeld(c: Control, turnId: string, input: Input)
    requires Held(c, turnId) && input.Ask?
    ensures Held(Take(c, input).0, turnId)
  {
    hide Valid, Project, Grows, EffectKnown;
    var id := input.id;
    if CannotAsk(c, id, input.approval, input.related) {
    } else {
      var r := Record(input.approval, Waiting, None, false, None);
      var c1 := c.(callbacks := c.callbacks[id := r]);
      assert Orderly(c1);
      var opening := OpenCallback(id, input.title, input.detail, input.related);
      ProjectedSteady(c1, opening, input.newId, input.now);
      SteadyHeld(c1, Projected(c1, opening, input.newId, input.now).0, turnId);
    }
  }

  lemma TakeHeld(c: Control, turnId: string, input: Input)
    requires Held(c, turnId)
    ensures Held(Take(c, input).0, turnId)
  {
    hide Valid, Projected, Does, Steady;
    match input {
      case Core(a, newId, now) =>
        ProjectedSteady(c, a, newId, now);
        SteadyHeld(c, Projected(c, a, newId, now).0, turnId);
      case Ask(_, _, _, _, _, _, _) => AskHeld(c, turnId, input);
      case Elsewhere(o) =>
        DoesSteady(c, o);
        SteadyHeld(c, Does(c, o), turnId);
      case Move(sessionId) => RebindKeepsValid(c.projector.value, sessionId);
      case Resume(_) =>
    }
  }

  lemma {:induction false} TakeAllHeld(c: Control, turnId: string, inputs: seq<Input>)
    requires Held(c, turnId)
    ensures Held(TakeAll(c, inputs).0, turnId)
    decreases |inputs|
  {
    hide Held, Take;
    if inputs != [] {
      TakeHeld(c, turnId, inputs[0]);
      if Take(c, inputs[0]).1 { TakeAllHeld(Take(c, inputs[0]).0, turnId, inputs[1..]); }
    }
  }

  /** Nothing in a turn's guarded part touches the entries settled before. */
  lemma {:induction false} EarlierStay(c: Control, inputs: seq<Input>)
    requires AllComplete(c.history)
    ensures AllComplete(TakeAll(c, inputs).0.history)
    decreases |inputs|
  {
    hide Take, AllComplete;
    if inputs != [] {
      EarlierStays(c, inputs[0]);
      if Take(c, inputs[0]).1 { EarlierStay(Take(c, inputs[0]).0, inputs[1..]); }
    }
  }

  lemma EarlierStays(c: Control, input: Input)
    requires AllComplete(c.history)
    ensures AllComplete(Take(c, input).0.history)
  {
    hide Project, Rebind, RebindLive, EffectKnown;
    if input.Move? { RebindIs(c.history, input.sessionId); }
  }

  lemma HeldIs(c: Control, turnId: string)
    requires Held(c, turnId)
    ensures c.active.Some? && c.active.value.id == turnId && c.projector.Some? && Orderly(c)
    ensures Valid(c.projector.value) && c.slot == Some(Owning(turnId))
  {
  }

  /** A note of any kind, then others that are about no turn. */
  lemma FirstSent(c: Control, note: Note, rest: seq<Note>, ps: seq<Pause>)
    requires Orderly(c) && forall i :: 0 <= i < |rest| ==> NoTurn(rest[i])
    ensures var c0, (d, cut) := c.(told := c.told + [note]), Sent(c, [note] + rest, ps);
            Orderly(c0) && Steady(c0, d) && (cut <==> CutIn(ps, 1 + |rest|))
  {
    hide Steady, CutIn, Valid, RecordOk;
    var c0 := c.(told := c.told + [note]);
    assert Orderly(c0);
    var c1 := Meanwhile(c0, At(ps, 0).others);
    assert ([note] + rest)[1..] == rest;
    MeanwhileSteady(c0, At(ps, 0).others);
    SteadyIsOrderly(c0, c1);
    CutFirst(ps, 1 + |rest|);
    if !At(ps, 0).cancelled {
      SentSteady(c1, rest, From(ps, 1));
      SteadyOn(c0, c1, Sent(c1, rest, From(ps, 1)).0);
    }
  }

  lemma AnnouncedHeld(c: Control, turnId: string, ps: seq<Pause>)
    requires Held(c, turnId)
    ensures Held(Announced(c, ps).0, turnId) && Announced(c, ps).0.history == c.history
    ensures Announced(c, ps).1 <==> CutIn(ps, BEFORE)
  {
    hide Held, Orderly, CutIn, Steady, Sent;
    HeldIs(c, turnId);
    var turn, c1 := c.active.value, Meanwhile(c, At(ps, 0).others);
    var first, rest := TurnStarted(turn.sessionId, turn), [Note.SessionUpdated(turn.sessionId),
      StatsUpdated(turn.sessionId)];
    MeanwhileSteady(c, At(ps, 0).others);
    SteadyHeld(c, c1, turnId);
    HeldIs(c1, turnId);
    SteadyHistory(c, c1);
    CutFirst(ps, BEFORE);
    if !At(ps, 0).cancelled {
      var c2, d := c1.(told := c1.told + [first]), Sent(c1, [first] + rest, From(ps, 1)).0;
      FirstSent(c1, first, rest, From(ps, 1));
      assert [first] + rest == [first, rest[0], rest[1]];
      assert Held(c2, turnId) by { ToldApart(c1, c2, turnId); }
      SteadyHeld(c2, d, turnId);
      SteadyHistory(c2, d);
    }
  }

  lemma ToldApart(c: Control, d: Control, turnId: string)
    requires Held(c, turnId) && d == c.(told := d.told)
    ensures Held(d, turnId)
  {
  }

  lemma SteadyHistory(c: Control, d: Control)
    requires Steady(c, d)
    ensures d.history == c.history && d.active == c.active && d.slot == c.slot && d.last == c.last
    ensures d.owned == c.owned && d.running == c.running && (d.projector.None? <==> c.projector.None?)
  {
  }

  // ---- the finalization, cut short or not ----------------------------------

  /** The control when the guarded part is over, and the turn's status then. */
  function GuardedEnd(c: Control, f: Fate): Control
    requires c.active.Some?
  {
    TakeAll(Announced(c, f.before).0, f.inputs).0
  }

  function FinalStatus(c: Control, f: Fate): TurnStatus
    requires c.active.Some?
  {
    StatusAt(TakeAll(Announced(c, f.before).0, f.inputs).1, f.ending)
  }

  /** How many notes closing the turn's entries gives. */
  function Closings(c: Control, f: Fate): nat
    requires c.active.Some?
  {
    |ClosedUp(GuardedEnd(c, f), FinalStatus(c, f), f.now).1|
  }

  /** What the history has gained. */
  function Gained(b: Control, d: Control): seq<Entry> {
    if |b.history| <= |d.history| then d.history[|b.history|..] else []
  }

  /** What an end owes: no turn, no projector, no owner, the turn's entries settled
      behind the others and complete, nobody waiting for a callback, and the end
      told. */
  ghost predicate Over(b: Control, d: Control, turnId: string, status: TurnStatus)
    requires b.projector.Some?
  {
    && d.active == None && d.projector == None && d.owned == None && d.slot == None && !d.running
    && b.history <= d.history && AllComplete(Gained(b, d)) && Grows(b.projector.value.history, Gained(b, d))
    && AllSettled(d.callbacks)
    && d.last.Some? && d.last.value.id == turnId && d.last.value.status == status
    && |b.told| <= |d.told| && TurnCompleted(d.last.value.sessionId, d.last.value) in d.told[|b.told|..]
  }

  lemma ClosedHeld(b: Control, turnId: string, status: TurnStatus, now: int)
    requires Held(b, turnId)
    ensures var (c0, notes) := ClosedUp(b, status, now);
            && Steady(b, c0) && Held(c0, turnId) && AllComplete(c0.projector.value.history) && c0.told == b.told
            && |c0.projector.value.history| == |b.projector.value.history|
            && forall i :: 0 <= i < |notes| ==> NoTurn(notes[i])
  {
    hide Valid, Project, Grows;
    var s := b.projector.value;
    FinalizeCompletes(s, status.TurnInterrupted?, "", now);
    DoKeeps(s, ProjectorRuns.Call(Finalize(status.TurnInterrupted?), "", now));
    NotesNoTurn(Project(s, Finalize(status.TurnInterrupted?), "", now).updates);
  }

  lemma SettledIs(b: Control, c: Control, turnId: string, over: Turn)
    requires Steady(b, c) && Held(b, turnId)
    ensures var d := Settled(c, over);
            && Orderly(d) && AllSettled(d.callbacks) && d.history == b.history + c.projector.value.history
  {
    hide Valid;
    var d := Settled(c, over);
    forall k | k in d.callbacks
      ensures RecordOk(d.callbacks[k]) && d.callbacks[k].coreResolved && !d.callbacks[k].future.Waiting?
    {
      assert RecordOk(c.callbacks[k]);
    }
  }

  lemma GrowsJoin(a: seq<Entry>, h: seq<Entry>, h': seq<Entry>)
    requires Grows(h, h')
    ensures Grows(a + h, a + h')
  {
    forall i | 0 <= i < |a + h| ensures Advances((a + h)[i], (a + h')[i]) {
      if i >= |a| { assert Advances(h[i - |a|], h'[i - |a|]); }
    }
  }

  lemma LeftIs(c: Control)
    requires Orderly(c)
    ensures Orderly(Left(c))
  {
  }

  /** The last note, and what other tasks tell after it. */
  lemma EndTold(c: Control, over: Note, ps: seq<Pause>)
    requires Orderly(c)
    ensures var d := Sent(c, [over], ps).0;
            && Orderly(d) && d == c.(projector := d.projector, callbacks := d.callbacks, told := d.told)
            && (c.projector.None? <==> d.projector.None?)
            && (AllSettled(c.callbacks) ==> AllSettled(d.callbacks))
            && |c.told| < |d.told| && d.told[..|c.told|] == c.told && d.told[|c.told|] == over
            && (At(ps, 0).others == [] ==> |d.told| == |c.told| + 1)
  {
    hide RecordOk, AllSettled, Valid, Does;
    var c0 := c.(told := c.told + [over]);
    assert Orderly(c0);
    MeanwhileSteady(c0, At(ps, 0).others);
    var d := Meanwhile(c0, At(ps, 0).others);
    assert [over][1..] == [];
    assert Sent(c, [over], ps).0 == d;
    assert d.told[..|c0.told|] == c0.told;
    assert d.told[..|c.told|] == c0.told[..|c.told|];
    assert d.told[|c.told|] == d.told[..|c0.told|][|c.told|];
  }

  /** One note between two stretches. */
  lemma NoteSteady(c: Control, note: Note, ps: seq<Pause>, i: nat)
    requires Orderly(c) && NoTurn(note)
    ensures Steady(c, Sent(c, [note], From(ps, i)).0) && Orderly(Sent(c, [note], From(ps, i)).0)
    ensures Sent(c, [note], From(ps, i)).1 <==> At(ps, i).cancelled
  {
    hide Steady, Orderly, Sent;
    SentSteady(c, [note], From(ps, i));
    SteadyIsOrderly(c, Sent(c, [note], From(ps, i)).0);
    assert At(From(ps, i), 0) == At(ps, i);
  }

  /** Where the finalization has come when it is cut short, if it is. */
  datatype Stretch = InClosing | InSettling | InLeaving | Through

  function StretchOf(n: nat, ps: seq<Pause>): Stretch {
    if CutIn(ps, n) then InClosing
    else if At(ps, n).cancelled then InSettling
    else if At(ps, n + 1).cancelled then InLeaving
    else Through
  }

  lemma ThroughIff(n: nat, ps: seq<Pause>)
    ensures StretchOf(n, ps).Through? <==> !CutIn(ps, n + 2)
  {
    CutSplit(ps, n, 2);
    CutFirst(From(ps, n), 2);
    CutFirst(From(From(ps, n), 1), 1);
    NoCut(From(From(From(ps, n), 1), 1));
    assert At(From(ps, n), 0) == At(ps, n) && At(From(From(ps, n), 1), 0) == At(ps, n + 1);
  }

  /** What the finalization leaves behind, wherever it is cut short; `live` are the
      turn's entries when they are settled. */
  ghost predicate Leaves(b: Control, d: Control, turnId: string, status: TurnStatus, stretch: Stretch,
                         live: seq<Entry>)
    requires b.projector.Some?
  {
    match stretch
    case InClosing =>   // the turn's entries are not in the history
      && d.active == b.active && d.projector.Some? && d.history == b.history && d.last == b.last
      && Grows(b.projector.value.history, d.projector.value.history) && |d.projector.value.history| > 0
    case InSettling =>  // they are, and its projector is still there
      && d.active == b.active && d.projector.Some? && d.last.Some? && d.last.value.status == status
      && Grows(live, d.projector.value.history)
      && d.history == b.history + live && Grows(b.projector.value.history, live)
      && AllSettled(d.callbacks)
    case InLeaving =>   // all is done, but nobody is told
      && d.active == None && d.projector == None && d.last.Some? && d.last.value.status == status
      && d.history == b.history + live && Grows(b.projector.value.history, live)
      && AllSettled(d.callbacks)
      && |b.told| <= |d.told| && forall i :: |b.told| <= i < |d.told| ==> NoTurn(d.told[i])
    case Through =>
      && d.active == None && d.projector == None && d.last.Some? && d.last.value.id == turnId
      && d.last.value.status == status
      && d.history == b.history + live && Grows(b.projector.value.history, live)
      && AllSettled(d.callbacks)
      && |b.told| <= |d.told| && TurnCompleted(d.last.value.sessionId, d.last.value) in d.told[|b.told|..]
  }

  lemma NothingToClose(b: Control, status: TurnStatus, now: int)
    requires b.projector.Some?
    ensures b.projector.value.history == [] ==> ClosedUp(b, status, now).1 == []
  {
  }

  /** Told on from there, no end among it. */
  ghost predicate ToldOn(b: Control, d: Control) {
    && |b.told| <= |d.told| && d.told[..|b.told|] == b.told
    && forall i :: |b.told| <= i < |d.told| ==> NoTurn(d.told[i])
  }

  lemma ToldOnSteady(b: Control, c: Control, d: Control)
    requires ToldOn(b, c) && Steady(c, d)
    ensures ToldOn(b, d)
  {
    hide Orderly, AllSettled, Grows;
    assert d.told[..|b.told|] == d.told[..|c.told|][..|b.told|];
    forall i | |b.told| <= i < |d.told| ensures NoTurn(d.told[i]) {
      if i < |c.told| { assert d.told[i] == d.told[..|c.told|][i]; }
    }
  }

  lemma ToldOnSettled(b: Control, c: Control, over: Turn)
    requires ToldOn(b, c)
    ensures ToldOn(b, Settled(c, over))
  {
  }

  lemma ToldOnLeft(b: Control, c: Control)
    requires ToldOn(b, c)
    ensures ToldOn(b, Left(c))
  {
  }

  lemma SteadySettled(c: Control, d: Control)
    requires Steady(c, d) && AllSettled(c.callbacks)
    ensures AllSettled(d.callbacks)
  {
  }

  lemma FirstStretch(b: Control, turnId: string, status: TurnStatus, now: int, ps: seq<Pause>)
    requires Held(b, turnId)
    ensures var (c0, notes) := ClosedUp(b, status, now);
            var (c1, cut) := Sent(c0, notes, ps);
            && (cut <==> CutIn(ps, |notes|)) && Steady(b, c1) && ToldOn(b, c1)
            && (cut ==> Leaves(b, c1, turnId, status, InClosing, []))
  {
    hide Held, Orderly, Steady, CutIn, ClosedUp, Sent, Grows;
    var (c0, notes) := ClosedUp(b, status, now);
    ClosedHeld(b, turnId, status, now);
    HeldIs(b, turnId);
    HeldIs(c0, turnId);
    SentSteady(c0, notes, ps);
    var (c1, cut) := Sent(c0, notes, ps);
    SteadyOn(b, c0, c1);
    assert ToldOn(b, b) && ToldOn(b, c1) by { ToldOnSteady(b, b, c1); }
    if cut {
      if notes == [] { NoCut(ps); }
      NothingToClose(b, status, now);
      SteadyGrows(b, c1);
    }
  }

  lemma SteadyGrows(c: Control, d: Control)
    requires Steady(c, d) && c.projector.Some?
    ensures d.projector.Some? && Grows(c.projector.value.history, d.projector.value.history)
    ensures |c.projector.value.history| <= |d.projector.value.history|
    ensures d.history == c.history && d.active == c.active && d.last == c.last
  {
  }

  lemma SettlingStretch(b: Control, c1: Control, turnId: string, turn: Turn, status: TurnStatus, ps: seq<Pause>, n: nat)
    requires Held(b, turnId) && Steady(b, c1) && ToldOn(b, c1) && b.active == Some(turn)
    ensures var over := turn.(status := status);
            var (c2, cut) := Sent(Settled(c1, over), [StatsUpdated(turn.sessionId)], From(ps, n));
            && (cut <==> At(ps, n).cancelled) && Orderly(c2) && ToldOn(b, c2)
            && c2.slot == Some(Owning(turnId)) && c2.last == Some(over)
            && c1.projector.Some? && Leaves(b, c2, turnId, status, InSettling, c1.projector.value.history)
  {
    hide Orderly, Steady, Sent, Grows, AllSettled, AllComplete, Valid, ToldOn;
    var over := turn.(status := status);
    var s1 := Settled(c1, over);
    SettledIs(b, c1, turnId, over);
    SteadyHistory(b, c1);
    ToldOnSettled(b, c1, over);
    NoteSteady(s1, StatsUpdated(turn.sessionId), ps, n);
    var c2 := Sent(s1, [StatsUpdated(turn.sessionId)], From(ps, n)).0;
    SteadyHistory(s1, c2);
    SteadySettled(s1, c2);
    ToldOnSteady(b, s1, c2);
    SteadyGrows(b, c1);
    SteadyGrows(s1, c2);
  }

  lemma LeavingStretch(b: Control, c2: Control, turnId: string, turn: Turn, status: TurnStatus, ps: seq<Pause>, i: nat,
                       live: seq<Entry>)
    requires b.projector.Some? && Leaves(b, c2, turnId, status, InSettling, live) && Orderly(c2) && ToldOn(b, c2)
    ensures var (c3, cut) := Sent(Left(c2), [Note.SessionUpdated(turn.sessionId)], From(ps, i));
            && (cut <==> At(ps, i).cancelled) && Orderly(c3)
            && c3.slot == c2.slot && c3.last == c2.last && c3.history == c2.history
            && Leaves(b, c3, turnId, status, InLeaving, live)
  {
    hide Orderly, Steady, Sent, Grows, AllSettled, AllComplete, Valid, ToldOn;
    LeftIs(c2);
    ToldOnLeft(b, c2);
    NoteSteady(Left(c2), Note.SessionUpdated(turn.sessionId), ps, i);
    var c3 := Sent(Left(c2), [Note.SessionUpdated(turn.sessionId)], From(ps, i)).0;
    SteadyHistory(Left(c2), c3);
    SteadySettled(Left(c2), c3);
    ToldOnSteady(b, Left(c2), c3);
    ToldOnIs(b, c3);
  }

  /** From the settling on. */
  lemma LaterStretches(b: Control, c1: Control, turnId: string, turn: Turn, status: TurnStatus, ps: seq<Pause>, n: nat)
    requires Held(b, turnId) && Steady(b, c1) && ToldOn(b, c1) && b.active == Some(turn)
    ensures var over := turn.(status := status);
            var (c2, cut2) := Sent(Settled(c1, over), [StatsUpdated(turn.sessionId)], From(ps, n));
            var (c3, cut3) := Sent(Left(c2), [Note.SessionUpdated(turn.sessionId)], From(ps, n + 1));
            var (c4, _) := Sent(c3.(slot := Released(c3.slot, Owning(turnId))), [TurnCompleted(turn.sessionId, over)],
                                From(ps, n + 2));
            && (cut2 <==> At(ps, n).cancelled) && (cut3 <==> At(ps, n + 1).cancelled)
            && c2.slot == Some(Owning(turnId)) && c3.slot == Some(Owning(turnId)) && c4.slot == None
            && c1.projector.Some?
            && var live := c1.projector.value.history;
            && Leaves(b, c2, turnId, status, InSettling, live)
            && Leaves(b, c3, turnId, status, InLeaving, live)
            && Leaves(b, c4, turnId, status, Through, live)
            && (At(ps, n + 2).others == [] ==> LastTold(c4, TurnCompleted(turn.sessionId, over)))
  {
    hide Orderly, Steady, Sent, Leaves, ToldOn, Settled, Left, Held;
    HeldIs(b, turnId);
    SteadyHistory(b, c1);
    var over := turn.(status := status);
    SettlingStretch(b, c1, turnId, turn, status, ps, n);
    var c2 := Sent(Settled(c1, over), [StatsUpdated(turn.sessionId)], From(ps, n)).0;
    LeavingStretch(b, c2, turnId, turn, status, ps, n + 1, c1.projector.value.history);
    var c3 := Sent(Left(c2), [Note.SessionUpdated(turn.sessionId)], From(ps, n + 1)).0;
    LastStretch(b, c3, turnId, turn, status, ps, n + 2, c1.projector.value.history);
  }

  predicate LastTold(c: Control, note: Note) { c.told != [] && c.told[|c.told| - 1] == note }

  lemma ToldOnIs(b: Control, d: Control)
    requires ToldOn(b, d)
    ensures |b.told| <= |d.told| && forall i :: |b.told| <= i < |d.told| ==> NoTurn(d.told[i])
  {
  }

  lemma LastStretch(b: Control, c3: Control, turnId: string, turn: Turn, status: TurnStatus, ps: seq<Pause>, i: nat,
                    live: seq<Entry>)
    requires b.projector.Some? && Leaves(b, c3, turnId, status, InLeaving, live) && Orderly(c3)
    requires c3.last == Some(turn.(status := status)) && turn.id == turnId && c3.slot == Some(Owning(turnId))
    ensures var over := TurnCompleted(turn.sessionId, turn.(status := status));
            var c4 := Sent(c3.(slot := Released(c3.slot, Owning(turnId))), [over], From(ps, i)).0;
            && Leaves(b, c4, turnId, status, Through, live) && c4.slot == None
            && (At(ps, i).others == [] ==> LastTold(c4, over))
  {
    hide Orderly, Sent, Grows, AllSettled, AllComplete, Valid;
    var over := TurnCompleted(turn.sessionId, turn.(status := status));
    var r := c3.(slot := Released(c3.slot, Owning(turnId)));
    assert Orderly(r) by { SlotApart(c3, r.slot); }
    EndTold(r, over, From(ps, i));
    assert At(From(ps, i), 0) == At(ps, i);
    var d := Sent(r, [over], From(ps, i)).0;
    assert d.told[|b.told|..][|c3.told| - |b.told|] == over;
  }

  lemma SlotApart(c: Control, slot: Option<Owner>)
    requires Orderly(c)
    ensures Orderly(c.(slot := slot))
  {
  }

  /** The turn's entries when they are settled. */
  function AtSettling(b: Control, status: TurnStatus, now: int, ps: seq<Pause>): seq<Entry> {
    var (c0, notes) := ClosedUp(b, status, now);
    var (c1, cut) := Sent(c0, notes, ps);
    if cut || c1.projector.None? then [] else c1.projector.value.history
  }

  /** No other task does anything at the first n sends. */
  predicate Alone(ps: seq<Pause>, n: nat) { forall i :: 0 <= i < n ==> At(ps, i).others == [] }

  /** The whole finalization: where it is cut short, and what that leaves. */
  lemma FinalizedLeaves(b: Control, turnId: string, turn: Turn, status: TurnStatus, now: int, ps: seq<Pause>)
    requires Held(b, turnId) && b.active == Some(turn)
    ensures var n := |ClosedUp(b, status, now).1|;
            var d := Finalized(b, turn, Owning(turnId), status, now, ps).0;
            && Leaves(b, d, turnId, status, StretchOf(n, ps), AtSettling(b, status, now, ps))
            && Released(d.slot, Owning(turnId)) == None
            && (StretchOf(n, ps).Through? && Alone(ps, n + 3) ==>
                  && LastTold(d, TurnCompleted(turn.sessionId, turn.(status := status)))
                  && |d.history| == |b.history| + |b.projector.value.history|)
  {
    hide Held, Orderly, Steady, CutIn, ClosedUp, Sent, Grows, Leaves, Settled, Left, ToldOn;
    var (c0, notes) := ClosedUp(b, status, now);
    var (c1, cut1) := Sent(c0, notes, ps);
    FirstStretch(b, turnId, status, now, ps);
    HeldIs(b, turnId);
    SteadyHistory(b, c1);
    LaterStretches(b, c1, turnId, turn, status, ps, |notes|);
    if Alone(ps, |notes| + 3) && StretchOf(|notes|, ps).Through? {
      AloneLength(b, turnId, status, now, ps);
      var d := Finalized(b, turn, Owning(turnId), status, now, ps).0;
      ThroughIs(b, d, turnId, status, AtSettling(b, status, now, ps));
    }
  }

  /** With no other task at work, the entries settled are those closed. */
  lemma AloneLength(b: Control, turnId: string, status: TurnStatus, now: int, ps: seq<Pause>)
    requires Held(b, turnId) && !CutIn(ps, |ClosedUp(b, status, now).1|)
    requires Alone(ps, |ClosedUp(b, status, now).1|)
    ensures b.projector.Some? && |AtSettling(b, status, now, ps)| == |b.projector.value.history|
  {
    hide Held, Orderly, Steady, CutIn, ClosedUp, Sent, Grows;
    var (c0, notes) := ClosedUp(b, status, now);
    HeldIs(b, turnId);
    ClosedHeld(b, turnId, status, now);
    HeldIs(c0, turnId);
    SentSteady(c0, notes, ps);
    SentAlone(c0, notes, ps);
  }

  lemma ThroughIs(b: Control, d: Control, turnId: string, status: TurnStatus, live: seq<Entry>)
    requires b.projector.Some? && Leaves(b, d, turnId, status, Through, live)
    ensures d.history == b.history + live
  {
  }

  lemma {:induction false} SentAlone(c: Control, notes: seq<Note>, ps: seq<Pause>)
    requires forall i :: 0 <= i < |notes| ==> At(ps, i).others == []
    ensures Sent(c, notes, ps).0.projector == c.projector && Sent(c, notes, ps).0.callbacks == c.callbacks
    decreases |notes|
  {
    if notes != [] && !At(ps, 0).cancelled {
      forall i | 0 <= i < |notes[1..]| ensures At(From(ps, 1), i).others == [] {
        assert At(From(ps, 1), i) == At(ps, i + 1);
      }
      SentAlone(Meanwhile(c.(told := c.told + [notes[0]]), At(ps, 0).others), notes[1..], From(ps, 1));
    }
  }

  // ---- the theorems --------------------------------------------------------

  lemma OverIff(b: Control, d: Control, e: Control, turnId: string, status: TurnStatus, stretch: Stretch,
                live: seq<Entry>)
    requires Held(b, turnId) && Leaves(b, d, turnId, status, stretch, live)
    requires e == Finally(d, Owning(turnId)) && Released(d.slot, Owning(turnId)) == None
    ensures Over(b, e, turnId, status) <==> stretch.Through? && AllComplete(live)
  {
    hide Orderly, Grows, AllSettled, AllComplete;
    if stretch.Through? { assert Gained(b, e) == live; }
  }

  lemma EndHeld(c: Control, turnId: string, f: Fate)
    requires Held(c, turnId)
    ensures Held(Announced(c, f.before).0, turnId) && Held(GuardedEnd(c, f), turnId)
  {
    hide Held, Announced, TakeAll;
    HeldIs(c, turnId);
    AnnouncedHeld(c, turnId, f.before);
    HeldIs(Announced(c, f.before).0, turnId);
    TakeAllHeld(Announced(c, f.before).0, turnId, f.inputs);
  }

  /** A turn's task that entered its guarded part, in terms of its end. */
  lemma TaskEnds(c: Control, turnId: string, f: Fate)
    requires Held(c, turnId)
    ensures var b, status := GuardedEnd(c, f), FinalStatus(c, f);
            b.active.Some? && TaskDone(c, f) ==
              if CutIn(f.before, BEFORE) then Announced(c, f.before).0.(running := false)
              else Finally(Finalized(b, b.active.value, Owning(turnId), status, f.now, f.after).0, Owning(turnId))
  {
    hide Held, Announced, TakeAll, Finalized, CutIn;
    HeldIs(c, turnId);
    AnnouncedHeld(c, turnId, f.before);
    EndHeld(c, turnId, f);
    HeldIs(Announced(c, f.before).0, turnId);
    HeldIs(GuardedEnd(c, f), turnId);
  }

  /** What other tasks do while the closing of the turn's entries is told, before
      these are settled. */
  function BeforeSettling(c: Control, f: Fate): seq<Other>
    requires c.active.Some?
  {
    During(f.after, Closings(c, f))
  }

  /** They project what other tasks project, calls with ids of their own. */
  predicate SteeredOnly(c: Control, f: Fate)
    requires c.active.Some?
  {
    Steered(ClosedUp(GuardedEnd(c, f), FinalStatus(c, f), f.now).0, BeforeSettling(c, f))
  }

  lemma SettledIff(b: Control, turnId: string, status: TurnStatus, now: int, ps: seq<Pause>)
    requires Held(b, turnId)
    requires var (c0, notes) := ClosedUp(b, status, now); !Sent(c0, notes, ps).1 && Steered(c0, During(ps, |notes|))
    ensures var others := During(ps, |ClosedUp(b, status, now).1|);
            var live := AtSettling(b, status, now, ps);
            && (AllComplete(live) <==> AllEnded(others))
            && forall i :: 0 <= i < |others| && Unanswered(others, i) ==>
                 exists k :: 0 <= k < |live| && live[k].id == CallOf(others[i]) && live[k].status.InProgress?
  {
    hide Held, ClosedUp, Sent, Valid, AllComplete, Steered, Unanswered, AllEnded, Steady;
    ClosedHeld(b, turnId, status, now);
    var (c0, notes) := ClosedUp(b, status, now);
    HeldIs(c0, turnId);
    CompleteIffEnded(c0, notes, ps);
  }

  /** Main result.  Whatever events, callbacks, answers, rejections and session
      changes a turn sees, and whether it ends, fails or is cancelled, its end
      gives all it owes if and only if its task is cancelled neither before its
      guarded part nor at a send of its finalization but the last, and every call
      that steering has projected before the entries are settled has its result
      there too.  When no other task acts at those sends, the last thing told is
      that the turn is over, and the history has got its entries and no others. */
  lemma TurnTerminates(c: Control, turnId: string, f: Fate)
    requires Held(c, turnId) && SteeredOnly(c, f)
    ensures var b, d, status := GuardedEnd(c, f), TaskDone(c, f), FinalStatus(c, f);
            && b.projector.Some?
            && (Over(b, d, turnId, status)
                <==> && !CutIn(f.before, BEFORE) && !CutIn(f.after, Closings(c, f) + 2)
                     && AllEnded(BeforeSettling(c, f)))
            && (Over(b, d, turnId, status) && AllComplete(c.history) ==> AllComplete(d.history))
            && (Over(b, d, turnId, status) && Alone(f.after, Closings(c, f) + 3) ==>
                  && LastTold(d, TurnCompleted(d.last.value.sessionId, d.last.value))
                  && |d.history| == |b.history| + |b.projector.value.history|)
  {
    hide Held, Announced, TakeAll, Finalized, CutIn, Leaves, Over, Alone, ClosedUp, AllEnded, Steered, AllComplete;
    HeldIs(c, turnId);
    var b, status, n := GuardedEnd(c, f), FinalStatus(c, f), Closings(c, f);
    TaskEnds(c, turnId, f);
    EndHeld(c, turnId, f);
    AnnouncedHeld(c, turnId, f.before);
    HeldIs(b, turnId);
    HeldIs(Announced(c, f.before).0, turnId);
    if CutIn(f.before, BEFORE) {
      NotOver(b, TaskDone(c, f), turnId, status);
    } else {
      var turn := b.active.value;
      FinalizedLeaves(b, turnId, turn, status, f.now, f.after);
      ThroughIff(n, f.after);
      var d := Finalized(b, turn, Owning(turnId), status, f.now, f.after).0;
      OverIff(b, d, TaskDone(c, f), turnId, status, StretchOf(n, f.after), AtSettling(b, status, f.now, f.after));
      if StretchOf(n, f.after).Through? {
        LastIs(b, d, turn, turnId, status, f.now, f.after);
        FirstStretch(b, turnId, status, f.now, f.after);
        CutSplit(f.after, n, 2);
        SettledIff(b, turnId, status, f.now, f.after);
        ThroughIs(b, d, turnId, status, AtSettling(b, status, f.now, f.after));
        if AllComplete(c.history) && AllComplete(AtSettling(b, status, f.now, f.after)) {
          EarlierStay(Announced(c, f.before).0, f.inputs);
          JoinComplete(b.history, AtSettling(b, status, f.now, f.after));
        }
      }
    }
  }

  lemma JoinComplete(a: seq<Entry>, b: seq<Entry>)
    requires AllComplete(a) && AllComplete(b)
    ensures AllComplete(a + b)
  {
  }

  lemma NotOver(b: Control, d: Control, turnId: string, status: TurnStatus)
    requires b.projector.Some? && d.active.Some?
    ensures !Over(b, d, turnId, status)
  {
  }

  /** The turn whose end is told is the one finalized. */
  lemma LastIs(b: Control, d: Control, turn: Turn, turnId: string, status: TurnStatus, now: int, ps: seq<Pause>)
    requires Held(b, turnId) && b.active == Some(turn)
    requires d == Finalized(b, turn, Owning(turnId), status, now, ps).0
    requires StretchOf(|ClosedUp(b, status, now).1|, ps).Through?
    ensures d.last == Some(turn.(status := status))
  {
    hide Held, Orderly, Steady, CutIn, ClosedUp, Sent, Grows, Leaves, Settled, Left, ToldOn;
    var (c0, notes) := ClosedUp(b, status, now);
    var c1, n, over := Sent(c0, notes, ps).0, |notes|, turn.(status := status);
    FirstStretch(b, turnId, status, now, ps);
    SettlingStretch(b, c1, turnId, turn, status, ps, n);
    HeldIs(b, turnId);
    var c2 := Sent(Settled(c1, over), [StatsUpdated(turn.sessionId)], From(ps, n)).0;
    LeavingStretch(b, c2, turnId, turn, status, ps, n + 1, c1.projector.value.history);
    var c3 := Sent(Left(c2), [Note.SessionUpdated(turn.sessionId)], From(ps, n + 1)).0;
    var r := c3.(slot := Released(c3.slot, Owning(turnId)));
    assert Orderly(r) by { SlotApart(c3, r.slot); }
    EndTold(r, TurnCompleted(turn.sessionId, over), From(ps, n + 2));
  }

  /** Main result: wherever the finalization of a task that entered its guarded
      part is cut short, the slot is free and the next turn may begin, and what is
      left is as its stretch says: in the first, the turn's entries are lost to
      the history and, when no other task acts, its callbacks not withdrawn; in
      the second, public states show them twice. */
  lemma EndCutShort(c: Control, turnId: string, f: Fate)
    requires Held(c, turnId) && !CutIn(f.before, BEFORE)
    ensures var b, d := GuardedEnd(c, f), TaskDone(c, f);
            var stretch := StretchOf(Closings(c, f), f.after);
            && b.projector.Some? && d.slot == None && d.owned == None && !d.running
            && Leaves(b, d, turnId, FinalStatus(c, f), stretch, AtSettling(b, FinalStatus(c, f), f.now, f.after))
            && (stretch.InClosing? && Alone(f.after, Closings(c, f)) ==> d.callbacks == b.callbacks)
            && (stretch.InSettling? && b.projector.value.history != [] ==>
                  !UniqueIds(d.history + d.projector.value.history))
  {
    hide Held, Announced, TakeAll, Finalized, CutIn, Alone, ClosedUp, AllSettled, AllComplete, Grows, UniqueIds,
         AtSettling;
    HeldIs(c, turnId);
    var b, status, n := GuardedEnd(c, f), FinalStatus(c, f), Closings(c, f);
    TaskEnds(c, turnId, f);
    EndHeld(c, turnId, f);
    HeldIs(b, turnId);
    FinalizedLeaves(b, turnId, b.active.value, status, f.now, f.after);
    var stretch := StretchOf(n, f.after);
    var d, live := TaskDone(c, f), AtSettling(b, status, f.now, f.after);
    if stretch.InClosing? && Alone(f.after, n) { ClosingLeavesCallbacks(b, b.active.value, turnId, status, f); }
    if stretch.InSettling? && b.projector.value.history != [] {
      Longer(b.projector.value.history, live);
      Twice(b.history, live, d.history, d.projector.value.history);
    }
  }

  lemma Longer(a: seq<Entry>, b: seq<Entry>)
    requires Grows(a, b) && a != []
    ensures b != []
  {
  }

  lemma ClosingLeavesCallbacks(b: Control, turn: Turn, turnId: string, status: TurnStatus, f: Fate)
    requires Held(b, turnId)
    requires CutIn(f.after, |ClosedUp(b, status, f.now).1|) && Alone(f.after, |ClosedUp(b, status, f.now).1|)
    ensures Finalized(b, turn, Owning(turnId), status, f.now, f.after).0.callbacks == b.callbacks
  {
    hide Held, Sent, CutIn, Steady, Project;
    var (c0, notes) := ClosedUp(b, status, f.now);
    HeldIs(b, turnId);
    ClosedHeld(b, turnId, status, f.now);
    HeldIs(c0, turnId);
    SentSteady(c0, notes, f.after);
    SentAlone(c0, notes, f.after);
  }

  lemma Twice(a: seq<Entry>, h: seq<Entry>, settled: seq<Entry>, live: seq<Entry>)
    requires h != [] && settled == a + h && Grows(h, live)
    ensures !UniqueIds(settled + live)
  {
    assert Advances(h[0], live[0]);
    assert (settled + live)[|a|].id == (settled + live)[|settled|].id;
  }

  /** The failing input: a call steered in before the turn's entries are settled,
      with no result before that.  Its effect is settled in progress, and whatever
      other tasks project later, its result included, the history keeps it so. */
  lemma OpenedTooLate(c: Control, turnId: string, f: Fate, i: nat)
    requires Held(c, turnId) && SteeredOnly(c, f)
    requires !CutIn(f.before, BEFORE) && !CutIn(f.after, Closings(c, f))
    requires Unanswered(BeforeSettling(c, f), i)
    ensures var b, d := GuardedEnd(c, f), TaskDone(c, f);
            && b.history <= d.history
            && exists k :: |b.history| <= k < |d.history| && d.history[k].status.InProgress?
                           && d.history[k].id == CallOf(BeforeSettling(c, f)[i])
  {
    hide Held, Announced, TakeAll, Finalized, CutIn, ClosedUp, AllSettled, AllComplete, Grows, AllEnded, Steered,
         Unanswered, AtSettling;
    HeldIs(c, turnId);
    var b, status, n := GuardedEnd(c, f), FinalStatus(c, f), Closings(c, f);
    TaskEnds(c, turnId, f);
    EndHeld(c, turnId, f);
    HeldIs(b, turnId);
    FinalizedLeaves(b, turnId, b.active.value, status, f.now, f.after);
    FirstStretch(b, turnId, status, f.now, f.after);
    SettledIff(b, turnId, status, f.now, f.after);
    UnansweredIn(BeforeSettling(c, f), i);
    var live, d := AtSettling(b, status, f.now, f.after), TaskDone(c, f);
    var k :| 0 <= k < |live| && live[k].id == CallOf(BeforeSettling(c, f)[i]) && live[k].status.InProgress?;
    assert d.history == b.history + live;
    assert d.history[|b.history| + k] == live[k];
  }

  lemma UnansweredIn(others: seq<Other>, i: nat)
    requires Unanswered(others, i)
    ensures i < |others|
  {
  }

  /** Started on a free slot, a turn holds what its end will release. */
  lemma StartHolds(c: Control, sessionId: string, turnId: string, preview: string)
    requires Started(c, sessionId, turnId, preview).Ok?
    requires forall k :: k in c.callbacks ==> RecordOk(c.callbacks[k])
    ensures Held(Started(c, sessionId, turnId, preview).value, turnId)
  {
    FreshIsValid(sessionId, Some(turnId), preview);
  }

  /** Main result: the next turn can start if and only if the last was not
      cancelled before its guarded part.  Of a task that did enter it, the next
      turn finds the entries settled if and only if it was not cancelled while
      the closing of its entries was told; otherwise they are gone. */
  lemma NextTurnStartsIffEntered(c: Control, turnId: string, f: Fate, sessionId: string, nextId: string,
                                 preview: string)
    requires Held(c, turnId)
    ensures var b, next := GuardedEnd(c, f), Started(TaskDone(c, f), sessionId, nextId, preview);
            && (next.Ok? <==> !CutIn(f.before, BEFORE))
            && b.projector.Some?
            && (next.Ok? ==> next.value.projector == Some(Fresh(sessionId, Some(nextId), preview)))
            && (next.Ok? ==>
                  (Grows(b.history + b.projector.value.history, next.value.history)
                   <==> !CutIn(f.after, Closings(c, f))))
            && (next.Ok? && CutIn(f.after, Closings(c, f)) ==> next.value.history == b.history)
  {
    hide Held, Announced, TakeAll, Finalized, CutIn, ClosedUp, Fresh, AllSettled, AllComplete, Grows, AtSettling;
    HeldIs(c, turnId);
    var b, status, n := GuardedEnd(c, f), FinalStatus(c, f), Closings(c, f);
    TaskEnds(c, turnId, f);
    EndHeld(c, turnId, f);
    AnnouncedHeld(c, turnId, f.before);
    HeldIs(b, turnId);
    HeldIs(Announced(c, f.before).0, turnId);
    if !CutIn(f.before, BEFORE) {
      var turn := b.active.value;
      FinalizedLeaves(b, turnId, turn, status, f.now, f.after);
      if CutIn(f.after, n) {
        NothingToClose(b, status, f.now);
        if n == 0 { NoCut(f.after); }
        NotGrown(b.history, b.projector.value.history);
      } else {
        GrowsJoin(b.history, b.projector.value.history, AtSettling(b, status, f.now, f.after));
      }
    }
  }

  lemma NotGrown(a: seq<Entry>, h: seq<Entry>)
    requires h != []
    ensures !Grows(a + h, a)
  {
  }
}
