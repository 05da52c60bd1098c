/** A turn of the controller as work of its session: what it does and tells is what
    the session's pieces of work do and tell, so that whoever mirrors the session
    before the turn mirrors it after. */
module Refining {
  import opened Prelude
  import opened Entries
  import opened Projection
  import opened ProjectorFacts
  import opened Client
  import opened Mirror
  import opened Session
  import opened Working
  import opened Execution
  import opened Turns
  import opened TurnEnds
  import opened Finalizing
  import opened Consulting

  // ---- pieces of work in a row ---------------------------------------------

  function PerformAll(sv: Server, ws: seq<Work>): Option<Worked>
    decreases |ws|
  {
    if ws == [] then Some(Worked(sv, []))
    else match Perform(sv, ws[0])
      case None => None
      case Some(done) =>
        match PerformAll(done.server, ws[1..])
        case None => None
        case Some(rest) => Some(Worked(rest.server, done.notes + rest.notes))
  }

  /** By this work one session comes of another, and these are its notes. */
  ghost predicate Comes(sv: Server, ws: seq<Work>, sv': Server, notes: seq<Note>) {
    PerformAll(sv, ws) == Some(Worked(sv', notes))
  }

  lemma {:induction false} ComesOn(a: Server, v: seq<Work>, b: Server, w: seq<Work>, c: Server, m: seq<Note>,
                                   n: seq<Note>)
    requires Comes(a, v, b, m) && Comes(b, w, c, n)
    ensures Comes(a, v + w, c, m + n)
    decreases |v|
  {
    hide Perform;
    if v == [] {
      assert v + w == w && m + n == n;
    } else {
      assert (v + w)[0] == v[0] && (v + w)[1..] == v[1..] + w;
      var done := Perform(a, v[0]).value;
      var rest := PerformAll(done.server, v[1..]).value.notes;
      ComesOn(done.server, v[1..], b, w, c, rest, n);
      assert done.notes + (rest + n) == done.notes + rest + n;
    }
  }

  lemma ComesOne(sv: Server, w: Work, sv': Server, notes: seq<Note>)
    requires Perform(sv, w) == Some(Worked(sv', notes))
    ensures Comes(sv, [w], sv', notes)
  {
    hide Perform;
    assert [w][1..] == [] && notes + [] == notes;
    assert PerformAll(sv', []) == Some(Worked(sv', []));
  }

  // ---- the controller as a session -----------------------------------------

  function Of(c: Control, sessionId: string): Server {
    Server(sessionId, c.history, if c.projector.None? then Idle else Turning,
           if c.projector.None? then Fresh(sessionId, None, "") else c.projector.value,
           if c.active.Some? then c.active else c.last)
  }

  /** The actions of an input of the turn itself. */
  function WorkOf(input: Input): seq<Work> {
    match input
    case Core(a, newId, now) => [Act(a, newId, now)]
    case Ask(id, _, title, detail, related, newId, now) => [Act(OpenCallback(id, title, detail, related), newId, now)]
    case _ => []
  }

  function WorksOf(inputs: seq<Input>): seq<Work> {
    if inputs == [] then [] else WorkOf(inputs[0]) + WorksOf(inputs[1..])
  }

  /** An input that the turn takes, of its own, with no compaction that was not
      announced and no id used twice. */
  predicate Smooth(c: Control, input: Input) {
    && (input.Core? || input.Ask? || input.Resume?) && Take(c, input).1 && c.projector.Some?
    && forall k :: 0 <= k < |WorkOf(input)| ==>
         var w := WorkOf(input)[k];
         w.Act? && !Unannounced(c.projector.value, w.action)
         && UniqueIds(c.history + Project(c.projector.value, w.action, w.newId, w.now).state.history)
  }

  predicate AllSmooth(c: Control, inputs: seq<Input>)
    decreases |inputs|
  {
    inputs != [] ==> Smooth(c, inputs[0]) && AllSmooth(Take(c, inputs[0]).0, inputs[1..])
  }

  /** A turn's stretch: it stays in its session, its ids unique, and does this work. */
  ghost predicate Stretches(c: Control, d: Control, sessionId: string, ws: seq<Work>) {
    && UniqueIds(d.history + (if d.projector.Some? then d.projector.value.history else []))
    && |c.told| <= |d.told| && d.told[..|c.told|] == c.told
    && Comes(Of(c, sessionId), ws, Of(d, sessionId), d.told[|c.told|..])
  }

  lemma StretchesOn(c: Control, d: Control, e: Control, sessionId: string, v: seq<Work>, w: seq<Work>)
    requires Stretches(c, d, sessionId, v) && Stretches(d, e, sessionId, w)
    ensures Stretches(c, e, sessionId, v + w)
  {
    hide Comes, UniqueIds;
    ComesOn(Of(c, sessionId), v, Of(d, sessionId), w, Of(e, sessionId), d.told[|c.told|..], e.told[|d.told|..]);
    assert e.told[..|c.told|] == e.told[..|d.told|][..|c.told|];
    assert e.told == e.told[..|d.told|] + e.told[|d.told|..];
    assert e.told[|c.told|..] == d.told[|c.told|..] + e.told[|d.told|..];
  }

  lemma ActStretches(c: Control, sessionId: string, a: Action, newId: string, now: int)
    requires c.projector.Some? && Projected(c, a, newId, now).1 && !Unannounced(c.projector.value, a)
    requires UniqueIds(c.history + Project(c.projector.value, a, newId, now).state.history)
    ensures Stretches(c, Projected(c, a, newId, now).0, sessionId, [Act(a, newId, now)])
  {
    hide Project, UniqueIds, Unannounced;
    var d, o := Projected(c, a, newId, now).0, Project(c.projector.value, a, newId, now);
    assert d.told[|c.told|..] == Notes(o.updates);
    ComesOne(Of(c, sessionId), Act(a, newId, now), Of(d, sessionId), Notes(o.updates));
  }

  lemma SameStretches(c: Control, d: Control, sessionId: string)
    requires d == c.(callbacks := d.callbacks)
    requires UniqueIds(c.history + (if c.projector.Some? then c.projector.value.history else []))
    ensures Stretches(c, d, sessionId, [])
  {
    assert d.told[|c.told|..] == [];
    assert PerformAll(Of(c, sessionId), []) == Some(Worked(Of(c, sessionId), []));
  }

  lemma InputStretches(c: Control, sessionId: string, input: Input)
    requires Smooth(c, input)
    requires c.projector.Some? ==> UniqueIds(c.history + c.projector.value.history)
    ensures Stretches(c, Take(c, input).0, sessionId, WorkOf(input))
  {
    hide Projected, UniqueIds, Unannounced, Comes;
    assert forall k :: 0 <= k < |WorkOf(input)| ==> WorkOf(input)[k] == WorkOf(input)[0];
    match input {
      case Core(a, newId, now) =>
        assert WorkOf(input)[0] == Act(a, newId, now);
        ActStretches(c, sessionId, a, newId, now);
      case Ask(id, approval, title, detail, related, newId, now) =>
        var a := OpenCallback(id, title, detail, related);
        assert WorkOf(input)[0] == Act(a, newId, now);
        var c1 := c.(callbacks := c.callbacks[id := Record(approval, Waiting, None, false, None)]);
        ActStretches(c1, sessionId, a, newId, now);
      case Resume(_) => SameStretches(c, Take(c, input).0, sessionId);
    }
  }

  lemma {:induction false} InputsStretch(c: Control, turnId: string, sessionId: string, inputs: seq<Input>)
    requires Held(c, turnId) && AllSmooth(c, inputs)
    requires c.projector.Some? ==> UniqueIds(c.history + c.projector.value.history)
    ensures TakeAll(c, inputs).1 && Stretches(c, TakeAll(c, inputs).0, sessionId, WorksOf(inputs))
    decreases |inputs|
  {
    hide Take, Held, Stretches, UniqueIds, Smooth;
    HeldIs(c, turnId);
    if inputs == [] {
      SameStretches(c, c, sessionId);
    } else {
      var d := Take(c, inputs[0]).0;
      SmoothGoesOn(c, inputs[0]);
      InputStretches(c, sessionId, inputs[0]);
      TakeHeld(c, turnId, inputs[0]);
      HeldIs(d, turnId);
      StretchesUnique(c, d, sessionId, WorkOf(inputs[0]));
      InputsStretch(d, turnId, sessionId, inputs[1..]);
      StretchesOn(c, d, TakeAll(c, inputs).0, sessionId, WorkOf(inputs[0]), WorksOf(inputs[1..]));
    }
  }

  lemma SmoothGoesOn(c: Control, input: Input)
    requires Smooth(c, input)
    ensures Take(c, input).1
  {
  }

  lemma StretchesUnique(c: Control, d: Control, sessionId: string, ws: seq<Work>)
    requires Stretches(c, d, sessionId, ws)
    ensures d.projector.Some? ==> UniqueIds(d.history + d.projector.value.history)
  {
  }

  // ---- beginning and end, undisturbed --------------------------------------

  lemma {:induction false} SentQuietly(c: Control, notes: seq<Note>)
    ensures Sent(c, notes, []) == (c.(told := c.told + notes), false)
    decreases |notes|
  {
    if notes == [] {
      assert c.told + notes == c.told;
    } else {
      SentQuietly(c.(told := c.told + [notes[0]]), notes[1..]);
      assert c.told + [notes[0]] + notes[1..] == c.told + notes;
    }
  }

  const BEGINNING: seq<Work> := [Tick(false), Tick(true)]

  /** Started and announced. */
  lemma BeginningStretches(c: Control, sessionId: string, turnId: string, preview: string)
    requires c.active.None? && c.projector.None? && UniqueIds(c.history)
    requires Started(c, sessionId, turnId, preview).Ok?
    ensures var d := Announced(Started(c, sessionId, turnId, preview).value, []).0;
            !Announced(Started(c, sessionId, turnId, preview).value, []).1 &&
            Stretches(c, d, sessionId, [Work.Open(Turning, Some(turnId), preview)] + BEGINNING)
  {
    hide UniqueIds;
    var s, turn := Started(c, sessionId, turnId, preview).value, Turn(turnId, sessionId, TurnActive);
    var first, status, stats := TurnStarted(sessionId, turn), Note.SessionUpdated(sessionId), StatsUpdated(sessionId);
    SentQuietly(s, [first, status, stats]);
    var d := Announced(s, []).0;
    assert d == s.(told := c.told + [first, status, stats]);
    var sv := Of(d, sessionId);
    ComesOne(Of(c, sessionId), Work.Open(Turning, Some(turnId), preview), sv, [first]);
    ComesOne(sv, Tick(false), sv, [status]);
    ComesOne(sv, Tick(true), sv, [stats]);
    ComesOn(sv, [Tick(false)], sv, [Tick(true)], sv, [status], [stats]);
    assert [Tick(false)] + [Tick(true)] == BEGINNING && [status] + [stats] == [status, stats];
    ComesOn(Of(c, sessionId), [Work.Open(Turning, Some(turnId), preview)], sv, BEGINNING, sv, [first], [status, stats]);
    assert [first] + [status, stats] == [first, status, stats] && d.told[|c.told|..] == [first, status, stats];
    assert d.history + [] == d.history;
  }

  function EndingWork(status: TurnStatus, now: int): seq<Work> {
    [Act(Finalize(status.TurnInterrupted?), "", now), Settle, Tick(true), Release(status)]
  }

  lemma ClosedIds(h: seq<Entry>, closed: seq<Entry>, front: seq<Entry>, cancelled: bool, now: int)
    requires AllClosedAs(h, closed, cancelled, now) && UniqueIds(front + h)
    ensures UniqueIds(front + closed) && CallbacksDone(closed)
  {
    forall i | 0 <= i < |front + h| ensures (front + closed)[i].id == (front + h)[i].id {
      if i >= |front| { assert ClosedAs(h[i - |front|], closed[i - |front|], cancelled, now); }
    }
    forall i | 0 <= i < |closed| && closed[i].body.Callback? ensures closed[i].status.Complete? {
      assert ClosedAs(h[i], closed[i], cancelled, now);
    }
  }

  /** A finalization that nothing cuts into, in one. */
  lemma FinalizedQuietly(b: Control, turn: Turn, owner: Owner, status: TurnStatus, now: int)
    requires b.projector.Some?
    ensures var o, over := Project(b.projector.value, Finalize(status.TurnInterrupted?), "", now),
                           turn.(status := status);
            Finalized(b, turn, owner, status, now, []).0
            == b.(active := None, last := Some(over), projector := None, history := b.history + o.state.history,
                  callbacks := CancelAll(b.callbacks), owned := None, slot := Released(b.slot, owner),
                  told := b.told + (Notes(o.updates) + [StatsUpdated(turn.sessionId)]
                                    + [Note.SessionUpdated(turn.sessionId), TurnCompleted(turn.sessionId, over)]))
  {
    hide Project, CancelAll, Sent;
    var stats, idle := StatsUpdated(turn.sessionId), Note.SessionUpdated(turn.sessionId);
    var over := turn.(status := status);
    var end := TurnCompleted(turn.sessionId, over);
    var (c0, notes) := ClosedUp(b, status, now);
    SentQuietly(c0, notes);
    var s1 := Settled(c0.(told := c0.told + notes), over);
    SentQuietly(s1, [stats]);
    EmptyFrom(|notes|);
    var c2 := s1.(told := s1.told + [stats]);
    SentQuietly(Left(c2), [idle]);
    var c3 := Left(c2).(told := c2.told + [idle]);
    var r := c3.(slot := Released(c3.slot, owner));
    SentQuietly(r, [end]);
    assert b.told + notes + [stats] + [idle] + [end] == b.told + (notes + [stats] + [idle, end]);
  }

  /** Closed, settled, left and released. */
  lemma EndingStretches(b: Control, turnId: string, sessionId: string, status: TurnStatus, now: int)
    requires Held(b, turnId) && InSession(b, turnId, sessionId)
    requires UniqueIds(b.history + b.projector.value.history)
    ensures var d := Finally(Finalized(b, b.active.value, Owning(turnId), status, now, []).0, Owning(turnId));
            Stretches(b, d, sessionId, EndingWork(status, now))
  {
    hide Held, Project, UniqueIds, AllClosedAs, CallbacksDone, CancelAll, Valid, Finalized, Comes;
    HeldIs(b, turnId);
    var s, turn := b.projector.value, b.active.value;
    var o, over := Project(s, Finalize(status.TurnInterrupted?), "", now), turn.(status := status);
    FinalizeCloses(s, status.TurnInterrupted?, "", now);
    ClosedIds(s.history, o.state.history, b.history, status.TurnInterrupted?, now);
    FinalizedQuietly(b, turn, Owning(turnId), status, now);
    var d := Finally(Finalized(b, turn, Owning(turnId), status, now, []).0, Owning(turnId));
    EndingComes(b, sessionId, o, Notes(o.updates), status, now, d, over);
    assert d.history + [] == d.history;
    assert d.told[|b.told|..] == Notes(o.updates) + [StatsUpdated(sessionId)]
                                 + [Note.SessionUpdated(sessionId), TurnCompleted(sessionId, over)];
  }

  /** No pause anywhere. */
  predicate Empty(n: nat) { Turns.From([], n) == [] && Turns.From([], n + 1) == [] && Turns.From([], n + 2) == [] }

  lemma EmptyFrom(n: nat)
    ensures Empty(n)
  {
  }

  lemma EndingComes(b: Control, sessionId: string, o: Outcome, notes: seq<Note>, status: TurnStatus, now: int,
                    d: Control, over: Turn)
    requires b.projector.Some? && b.active.Some? && over == b.active.value.(status := status)
    requires o == Project(b.projector.value, Finalize(status.TurnInterrupted?), "", now) && o.error.None?
    requires notes == Notes(o.updates) && UniqueIds(b.history + o.state.history) && CallbacksDone(o.state.history)
    requires d.history == b.history + o.state.history && d.projector == None && d.active == None
    requires d.last == Some(over)
    ensures Comes(Of(b, sessionId), EndingWork(status, now), Of(d, sessionId),
                  notes + [StatsUpdated(sessionId)] + [Note.SessionUpdated(sessionId), TurnCompleted(sessionId, over)])
  {
    hide Project, UniqueIds, CallbacksDone;
    var sv := Of(b, sessionId);
    var close := Act(Finalize(status.TurnInterrupted?), "", now);
    var sv1 := sv.(live := o.state);
    var sv2 := sv1.(settled := d.history, phase := Doubled);
    var stats, ends := [StatsUpdated(sessionId)], [Note.SessionUpdated(sessionId), TurnCompleted(sessionId, over)];
    ComesOne(sv, close, sv1, notes);
    ComesOne(sv1, Settle, sv2, []);
    ComesOne(sv2, Tick(true), sv2, stats);
    ComesOne(sv2, Release(status), Of(d, sessionId), ends);
    ComesOn(sv, [close], sv1, [Settle], sv2, notes, []);
    ComesOn(sv, [close] + [Settle], sv2, [Tick(true)], sv2, notes + [], stats);
    ComesOn(sv, [close] + [Settle] + [Tick(true)], sv2, [Release(status)], Of(d, sessionId), notes + [] + stats, ends);
    assert [close] + [Settle] + [Tick(true)] + [Release(status)] == EndingWork(status, now);
    assert notes + [] + stats + ends == notes + stats + ends;
  }

  // ---- the whole turn ------------------------------------------------------

  function StatusOf(ending: Ending): TurnStatus {
    match ending case Ends => TurnDone case Raises => TurnFailed case CancelledOnce => TurnInterrupted
  }

  function TurnWork(turnId: string, preview: string, inputs: seq<Input>, ending: Ending, now: int): seq<Work> {
    [Work.Open(Turning, Some(turnId), preview)] + BEGINNING + WorksOf(inputs) + EndingWork(StatusOf(ending), now)
  }

  lemma NoneCut(n: nat)
    ensures !CutIn([], n)
  {
  }

  lemma {:induction false} StaysPut(c: Control, inputs: seq<Input>, sessionId: string)
    requires AllSmooth(c, inputs)
    ensures SessionAfter(c, inputs, sessionId) == sessionId
    decreases |inputs|
  {
    hide Take, Unannounced, UniqueIds, Project;
    if inputs != [] { StaysPut(Take(c, inputs[0]).0, inputs[1..], sessionId); }
  }

  /** Main result: a turn that no other task disturbs, from its start to its end, is
      its work: opening, what its events and callbacks project, the closing of its
      entries, settling and release; and it tells exactly the notes of that. */
  lemma TurnIsWork(c: Control, sessionId: string, turnId: string, preview: string, inputs: seq<Input>, ending: Ending,
                   now: int)
    requires c.active.None? && c.projector.None? && UniqueIds(c.history)
    requires forall k :: k in c.callbacks ==> RecordOk(c.callbacks[k])
    requires Started(c, sessionId, turnId, preview).Ok?
    requires AllSmooth(Announced(Started(c, sessionId, turnId, preview).value, []).0, inputs)
    ensures var d := TaskDone(Started(c, sessionId, turnId, preview).value, Fate([], inputs, ending, [], now));
            Stretches(c, d, sessionId, TurnWork(turnId, preview, inputs, ending, now))
  {
    hide Held, Announced, TakeAll, Finalized, Stretches, UniqueIds, AllSmooth, InSession, CutIn;
    var s, f := Started(c, sessionId, turnId, preview).value, Fate([], inputs, ending, [], now);
    StartHolds(c, sessionId, turnId, preview);
    HeldIs(s, turnId);
    BeginningStretches(c, sessionId, turnId, preview);
    var a := Announced(s, []).0;
    AnnouncedHeld(s, turnId, []);
    HeldIs(a, turnId);
    StretchesUnique(c, a, sessionId, [Work.Open(Turning, Some(turnId), preview)] + BEGINNING);
    InputsStretch(a, turnId, sessionId, inputs);
    var b := TakeAll(a, inputs).0;
    assert InSession(a, turnId, sessionId) by { AnnouncedAt(s, turnId, sessionId); }
    TakeAllAt(a, turnId, sessionId, inputs);
    StaysPut(a, inputs, sessionId);
    TakeAllHeld(a, turnId, inputs);
    HeldIs(b, turnId);
    StretchesUnique(a, b, sessionId, WorksOf(inputs));
    EndingStretches(b, turnId, sessionId, StatusOf(ending), now);
    TaskEnds(s, turnId, f);
    NoneCut(BEFORE);
    var d := TaskDone(s, f);
    StretchesOn(c, a, b, sessionId, [Work.Open(Turning, Some(turnId), preview)] + BEGINNING, WorksOf(inputs));
    StretchesOn(c, b, d, sessionId, [Work.Open(Turning, Some(turnId), preview)] + BEGINNING + WorksOf(inputs),
                EndingWork(StatusOf(ending), now));
  }

  lemma AnnouncedAt(s: Control, turnId: string, sessionId: string)
    requires InSession(s, turnId, sessionId)
    ensures InSession(Announced(s, []).0, turnId, sessionId)
  {
    var turn := s.active.value;
    SentQuietly(s, [TurnStarted(turn.sessionId, turn), Note.SessionUpdated(turn.sessionId),
                    StatsUpdated(turn.sessionId)]);
  }

  // ---- for a mirror --------------------------------------------------------

  lemma CarriesOn(c: Client, last: int, a: seq<Note>, b: seq<Note>, sessionId: string, h1: seq<Entry>,
                  t1: Option<Turn>, h2: seq<Entry>, t2: Option<Turn>, v: View)
    requires Carries(c, last, a, sessionId, h1, t1, v)
    requires Carries(Drain(c, Sequenced(last, a)).value, last + |a|, b, sessionId, h2, t2, v)
    ensures Carries(c, last, a + b, sessionId, h2, t2, v)
  {
    hide Agrees, Sequenced;
    SequencedConcat(last, a, b);
    DrainConcat(c, Sequenced(last, a), Sequenced(last + |a|, b));
  }

  lemma {:induction false} WorksAreTold(sv: Server, ws: seq<Work>, c: Client, v: View, last: int)
    requires InOrder(sv) && PerformAll(sv, ws).Some?
    requires last >= 0 && Agrees(c, sv.sessionId, Truth(sv), sv.turn, v, last)
    ensures var done := PerformAll(sv, ws).value;
            && InOrder(done.server) && done.server.sessionId == sv.sessionId
            && Carries(c, last, done.notes, sv.sessionId, Truth(done.server), done.server.turn, v)
    decreases |ws|
  {
    hide InOrder, Perform, Truth, Mirrors, Sequenced, Drain;
    if ws == [] {
      CarriesNothing(c, last, sv.sessionId, Truth(sv), sv.turn, v);
    } else {
      var first := Perform(sv, ws[0]).value;
      WorkKeepsOrder(sv, ws[0]);
      WorkIsTold(sv, ws[0], c, v, last);
      var c1, n := Drain(c, Sequenced(last, first.notes)).value, |first.notes|;
      WorksAreTold(first.server, ws[1..], c1, v, last + n);
      var rest := PerformAll(first.server, ws[1..]).value;
      CarriesOn(c, last, first.notes, rest.notes, sv.sessionId, Truth(first.server), first.server.turn,
                Truth(rest.server), rest.server.turn, v);
    }
  }

  /** Main result: whoever mirrors the session before an undisturbed turn takes all
      that the turn tells, in order and refusing nothing, and then mirrors the
      session as the turn has left it: its entries, settled, and how it ended. */
  lemma MirrorFollowsTurn(c: Control, sessionId: string, turnId: string, preview: string, inputs: seq<Input>,
                          ending: Ending, now: int, client: Client, v: View, last: int)
    requires c.active.None? && c.projector.None? && InOrder(Of(c, sessionId)) && UniqueIds(c.history)
    requires forall k :: k in c.callbacks ==> RecordOk(c.callbacks[k])
    requires Started(c, sessionId, turnId, preview).Ok?
    requires AllSmooth(Announced(Started(c, sessionId, turnId, preview).value, []).0, inputs)
    requires last >= 0 && Agrees(client, sessionId, c.history, c.last, v, last)
    ensures var d := TaskDone(Started(c, sessionId, turnId, preview).value, Fate([], inputs, ending, [], now));
            && |c.told| <= |d.told| && d.last.Some? && d.last.value.status == StatusOf(ending)
            && Carries(client, last, d.told[|c.told|..], sessionId, d.history, d.last, v)
  {
    hide InOrder, Perform, Mirrors, TaskDone, Started, Stretches, TurnWork, AllSmooth, UniqueIds, Held, Announced;
    var s, f := Started(c, sessionId, turnId, preview).value, Fate([], inputs, ending, [], now);
    StartHolds(c, sessionId, turnId, preview);
    HeldIs(s, turnId);
    var d, ws := TaskDone(s, f), TurnWork(turnId, preview, inputs, ending, now);
    TurnIsWork(c, sessionId, turnId, preview, inputs, ending, now);
    assert Stretches(c, d, sessionId, ws);
    StretchIs(c, d, sessionId, ws);
    WorksAreTold(Of(c, sessionId), ws, client, v, last);
    AnnouncedHeld(s, turnId, []);
    TakesAll(c, sessionId, turnId, preview, inputs);
    EndIsLeft(s, turnId, f);
  }

  lemma TakesAll(c: Control, sessionId: string, turnId: string, preview: string, inputs: seq<Input>)
    requires c.active.None? && c.projector.None? && UniqueIds(c.history)
    requires forall k :: k in c.callbacks ==> RecordOk(c.callbacks[k])
    requires Started(c, sessionId, turnId, preview).Ok?
    requires AllSmooth(Announced(Started(c, sessionId, turnId, preview).value, []).0, inputs)
    ensures TakeAll(Announced(Started(c, sessionId, turnId, preview).value, []).0, inputs).1
  {
    hide Held, Announced, TakeAll, Stretches, UniqueIds, AllSmooth;
    var s := Started(c, sessionId, turnId, preview).value;
    StartHolds(c, sessionId, turnId, preview);
    HeldIs(s, turnId);
    BeginningStretches(c, sessionId, turnId, preview);
    AnnouncedHeld(s, turnId, []);
    HeldIs(Announced(s, []).0, turnId);
    StretchesUnique(c, Announced(s, []).0, sessionId, [Work.Open(Turning, Some(turnId), preview)] + BEGINNING);
    InputsStretch(Announced(s, []).0, turnId, sessionId, inputs);
  }

  lemma EndIsLeft(c: Control, turnId: string, f: Fate)
    requires Held(c, turnId) && f.before == [] && f.after == [] && TakeAll(Announced(c, []).0, f.inputs).1
    ensures var d := TaskDone(c, f);
            d.active == None && d.projector == None && d.last.Some? && d.last.value.status == StatusOf(f.ending)
  {
    hide Held, Announced, TakeAll, TaskDone, CutIn, AtSettling, Closings, Grows, AllSettled;
    HeldIs(c, turnId);
    NoneCut(BEFORE);
    NoneCut(Closings(c, f) + 2);
    EndCutShort(c, turnId, f);
    ThroughIff(Closings(c, f), []);
  }

  lemma StretchIs(c: Control, d: Control, sessionId: string, ws: seq<Work>)
    requires Stretches(c, d, sessionId, ws)
    ensures |c.told| <= |d.told|
    ensures PerformAll(Of(c, sessionId), ws) == Some(Worked(Of(d, sessionId), d.told[|c.told|..]))
  {
  }
}
