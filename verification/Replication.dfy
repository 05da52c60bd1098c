/** A server, its connection and a client together: whatever is projected,
    numbered, held back, sent, delivered and answered, in any order the two
    sides allow, the client never refuses an event and ends up showing what the
    server holds. */
module Replication {
  import opened Prelude
  import opened Entries
  import opened Projection
  import opened ProjectorFacts
  import opened Client
  import opened Mirror
  import opened Telling
  import opened Paging
  import opened Session
  import opened Working
  import R = Router

  const HANDOFF_LIMIT := 200

  // ---- the whole system ----------------------------------------------------

  /** How far the current attach request has come: state not taken yet, state
      taken but answer not sent, flushing a batch. */
  datatype Stage =
    | Settled
    | Begun(was: bool)
    | Taken(was: bool, answer: PublicState, taken: View)
    | Flushing(batch: seq<Packet>)

  /** `unsent` are the notes raised but not yet numbered, in order; `view` is
      the part of the history the client was last given. */
  datatype System = System(
    server: Server, unsent: seq<Note>, router: R.Router, stage: Stage,
    channel: seq<Packet>, client: Client, view: View)

  datatype Transition =
    | Labour(work: Work)
    | Emit                          // the oldest raised note is numbered and routed
    | Handing(sessionId: string)    // the core changed the session id in mid-turn
    | AttachBegin
    | AttachTake(limit: int)
    | AttachSend
    | AttachFail
    | FlushSend
    | FlushTake
    | FlushDone
    | Read(limit: int)              // answer to a request for the state
    | Replacing(cut: nat, sessionId: string, checkpoint: Entry)  // clear, compact, rewind
    | List(limit: int)              // answer with the page before the client's first entry
    | Redeliver(callback: Entry)
    | Starting(turnId: string, preview: string)  // a turn starts on the client's request
    | Detach
    | Deliver                       // the client takes the next packet
    | AdoptEarly(k: nat)            // an answer overtakes events the client has not taken yet

  function MethodOf(n: Note): string {
    match n
    case EntryAdded(_, _) => "history/entryAdded"
    case EntryUpdated(_, _, _) => "history/entryUpdated"
    case SessionUpdated(_) => "session/updated"
    case StatsUpdated(_) => "session/statsUpdated"
    case TurnStarted(_, _) => "turn/started"
    case TurnCompleted(_, _) => "turn/completed"
    case Snapshot(_, _) => "session/snapshot"
    case Handoff(_, _, _) => "session/compacted"
  }

  function Number(s: System): nat { R.Watermark(s.router, s.server.sessionId) }

  function Route(s: System, n: Note): System {
    var o := R.Notify(s.router, R.Raised(MethodOf(n), Some(n)));
    s.(router := o.router, channel := s.channel + o.sent)
  }

  /** The public state is what clients have been told, up to notes that leave the
      history alone. */
  predicate Tellable(s: System) {
    && Public(s.server) == Truth(s.server)
    && forall i :: 0 <= i < |s.unsent| ==> !TellsHistory(s.unsent[i])
  }

  /** Events a client in this session's state would skip. */
  predicate Skipped(ps: seq<Packet>, sessionId: string, last: int) {
    forall i :: 0 <= i < |ps| ==>
      ps[i].Event? && Plain(ps[i].note, sessionId) && 0 < ps[i].id <= last
  }

  predicate Attached(s: System) { s.stage.Settled? && s.router.attached }

  function Replaced(sv: Server, cut: nat, sessionId: string, checkpoint: Entry): Server
    requires cut <= |sv.settled|
  {
    Server(sessionId, Rebind(sv.settled[..cut], sessionId) + [checkpoint], Idle, Fresh(sessionId, None, ""), None)
  }

  predicate IsCheckpoint(h: seq<Entry>, sessionId: string, e: Entry) {
    e.body.Checkpoint? && e.status.Complete? && e.sessionId == sessionId && !Has(h, e.id)
  }

  /** None where the step is not possible in this state. */
  function Next(s: System, step: Transition): Option<System> {
    match step
    case Labour(w) =>
      (match Perform(s.server, w)
       case None => None
       case Some(done) => Some(s.(server := done.server, unsent := s.unsent + done.notes)))
    case Emit =>
      if s.unsent == [] then None else Some(Route(s, s.unsent[0]).(unsent := s.unsent[1..]))
    case Handing(sessionId) =>
      if !s.server.phase.Turning? || s.unsent != [] || sessionId == s.server.sessionId then None
      else
        var sv := HandOver(s.server, sessionId);
        var state := StateOf(sv, Opens(sv.live.history), R.Watermark(s.router, sessionId), HANDOFF_LIMIT);
        var view := ViewOf(sv, HANDOFF_LIMIT);
        var s' := Route(s, Handoff(sessionId, s.server.sessionId, state));
        Some(s'.(server := sv, view := view,
                 stage := if s.stage.Taken? then s.stage.(taken := view) else s.stage))
    case AttachBegin =>
      if !s.stage.Settled? then None
      else Some(s.(stage := Begun(s.router.attached), router := R.Begin(s.router)))
    case AttachTake(limit) =>
      if !s.stage.Begun? || limit < 1 || !Tellable(s)
          || !Skipped(s.router.pending, s.server.sessionId, Number(s)) then None
      else Some(s.(stage := Taken(s.stage.was, StateOf(s.server, Opens(Public(s.server)), Number(s), limit),
          ViewOf(s.server, limit))))
    case AttachSend =>
      if !s.stage.Taken? then None
      else Some(s.(stage := Flushing([]), channel := s.channel + [Answer(s.stage.answer)], view := s.stage.taken))
    case AttachFail =>
      if !s.stage.Begun? && !s.stage.Taken? then None
      else if s.stage.was then Some(s.(stage := Flushing([])))
      else Some(s.(stage := Stage.Settled, router := R.Abandon(s.router)))
    case FlushSend =>
      if !s.stage.Flushing? || s.stage.batch == [] then None
      else Some(s.(stage := Flushing(s.stage.batch[1..]), channel := s.channel + [s.stage.batch[0]]))
    case FlushTake =>
      if s.stage != Flushing([]) || s.router.pending == [] then None
      else Some(s.(stage := Flushing(s.router.pending), router := s.router.(pending := [])))
    case FlushDone =>
      if s.stage != Flushing([]) || s.router.pending != [] then None
      else Some(s.(stage := Stage.Settled, router := s.router.(attaching := false, attached := true)))
    case Read(limit) =>
      if !Attached(s) || limit < 1 || !Tellable(s) then None
      else
        Some(s.(channel := s.channel + [Answer(StateOf(s.server, Opens(Public(s.server)), Number(s), limit))],
                view := ViewOf(s.server, limit)))
    case Replacing(cut, sessionId, checkpoint) =>
      if !Attached(s) || !s.server.phase.Idle? || s.unsent != [] || cut > |s.server.settled|
         || !IsCheckpoint(s.server.settled[..cut], sessionId, checkpoint) then None
      else
        var sv := Replaced(s.server, cut, sessionId, checkpoint);
        Some(s.(server := sv, view := ViewOf(sv, HANDOFF_LIMIT),
                channel := s.channel + [Answer(StateOf(sv, [], R.Watermark(s.router, sessionId), HANDOFF_LIMIT))]))
    case List(limit) =>
      if !Attached(s) || limit < 1 || !Tellable(s)
         || !(0 < s.view.first < |Truth(s.server)|) then None
      else
        var h := Truth(s.server);
        Some(s.(channel := s.channel + [Older(HistoryPage(h, None, Some(h[s.view.first].id), None, limit))],
                view := View(Back(s.view.first, limit), s.view.covered)))
    case Redeliver(callback) =>
      if !Attached(s) || !Tellable(s) || s.view.first > |Truth(s.server)|
         || !Has(Truth(s.server)[s.view.first..], callback.id) then None
      else Some(s.(channel := s.channel + [Ask(callback)]))
    case Starting(turnId, preview) =>
      if !Attached(s) then None
      else (match Perform(s.server, Work.Open(Turning, Some(turnId), preview))
            case None => None
            case Some(done) =>
              Some(s.(server := done.server, unsent := s.unsent + done.notes,
                      channel := s.channel + [Began(Turn(turnId, s.server.sessionId, TurnActive))])))
    case Detach => Some(s.(stage := Stage.Settled, router := R.Abandon(s.router), channel := []))
    case Deliver =>
      if s.channel == [] then None
      else (match Receive(s.client, s.channel[0])
            case Err(_) => None
            case Ok(c) => Some(s.(client := c, channel := s.channel[1..])))
    case AdoptEarly(k) =>
      if k >= |s.channel| || !s.channel[k].Answer?
         || !Skipped(s.channel[..k], s.channel[k].state.sessionId, s.channel[k].state.eventId) then None
      else Some(s.(client := MirrorOf(s.channel[k].state), channel := s.channel[..k] + s.channel[k + 1..]))
  }

  function Run(s: System, steps: seq<Transition>): Option<System>
    decreases |steps|
  {
    if steps == [] then Some(s)
    else match Next(s, steps[0]) case None => None case Some(s') => Run(s', steps[1..])
  }

  // ---- the invariant -------------------------------------------------------

  /** Numbered, but not sent yet. */
  function Held(s: System): seq<Packet> { (if s.stage.Flushing? then s.stage.batch else []) + s.router.pending }

  /** All that is still to come for a client in step. */
  function Coming(s: System): seq<Packet> { Held(s) + Sequenced(Number(s), s.unsent) }

  ghost predicate Reaches(c: Client, ps: seq<Packet>, sv: Server, v: View, last: int) {
    var r := Drain(c, ps);
    r.Ok? && Agrees(r.value, sv.sessionId, Truth(sv), sv.turn, v, last)
  }

  /** The client is, or after a failed attach would be, in step. */
  predicate Linked(s: System) {
    match s.stage
    case Settled => s.router.attached
    case Begun(was) => was
    case Taken(was, _, _) => was
    case Flushing(_) => true
  }

  ghost predicate Queued(s: System) {
    && (s.router.attaching <==> !s.stage.Settled?)
    && (s.router.attached ==> s.stage.Settled?)
    && (s.stage.Settled? ==> s.router.pending == [])
    && (forall i :: 0 <= i < |Held(s)| ==> HeldOk(s.router, Held(s)[i]))
  }

  predicate HeldOk(r: R.Router, p: Packet) {
    p.Event? && 0 < p.id <= R.Watermark(r, p.note.sessionId)
  }

  ghost predicate UnsentOk(s: System) {
    && (forall i :: 0 <= i < |s.unsent| ==> Plain(s.unsent[i], s.server.sessionId))
    && LastTurn(s.unsent, s.server.turn) == s.server.turn
  }

  ghost predicate Inv(s: System) {
    && InOrder(s.server) && UnsentOk(s) && Queued(s)
    && (Linked(s) ==> Reaches(s.client, s.channel + Coming(s), s.server, s.view, Number(s) + |s.unsent|))
    && (!Linked(s) ==> s.channel == [])
    && (s.stage.Taken? ==>
          Reaches(s.client, s.channel + [Answer(s.stage.answer)] + Coming(s), s.server, s.stage.taken,
              Number(s) + |s.unsent|))
  }

  // ---- streams -------------------------------------------------------------

  /** More notes at the end of a stream. */
  lemma ReachesWork(c: Client, ps: seq<Packet>, sv: Server, w: Work, v: View, last: int)
    requires InOrder(sv) && Perform(sv, w).Some? && last >= 0 && Reaches(c, ps, sv, v, last)
    ensures var done := Perform(sv, w).value;
            Reaches(c, ps + Sequenced(last, done.notes), done.server, v, last + |done.notes|)
  {
    hide Perform, InOrder, Agrees, Truth;
    var done, c1 := Perform(sv, w).value, Drain(c, ps).value;
    WorkIsTold(sv, w, c1, v, last);
    Arrives(c1, last, done.notes, done.server.sessionId, Truth(done.server), done.server.turn, v);
    DrainConcat(c, ps, Sequenced(last, done.notes));
  }

  lemma {:induction false} SkippedIsSkipped(c: Client, ps: seq<Packet>)
    requires Skipped(ps, c.state.sessionId, c.lastEventId)
    ensures Drain(c, ps) == Ok(c)
    decreases |ps|
  {
    if ps != [] {
      assert ps[0].Event? && Plain(ps[0].note, c.state.sessionId);
      forall i | 0 <= i < |ps[1..]| ensures ps[1..][i].Event? && Plain(ps[1..][i].note, c.state.sessionId)
          && 0 < ps[1..][i].id <= c.lastEventId {
        assert ps[1..][i] == ps[i + 1];
      }
      SkippedIsSkipped(c, ps[1..]);
    }
  }

  /** From a state taken at this point on: held events are skipped, unnumbered
      notes leave the history alone. */
  lemma ReachesFromState(s: System, callbacks: seq<Entry>, limit: int)
    requires InOrder(s.server) && UnsentOk(s) && Tellable(s) && limit >= 1
    requires SameOpen(callbacks, Public(s.server)) && Skipped(Held(s), s.server.sessionId, Number(s))
    ensures var state := StateOf(s.server, callbacks, Number(s), limit);
            Reaches(MirrorOf(state), Coming(s), s.server, ViewOf(s.server, limit), Number(s) + |s.unsent|)
  {
    hide InOrder, Agrees, Truth, Public, StateOf;
    var state, v := StateOf(s.server, callbacks, Number(s), limit), ViewOf(s.server, limit);
    var c := MirrorOf(state);
    StateMirrors(s.server, callbacks, Number(s), limit);
    assert c.state.sessionId == s.server.sessionId
        && c.lastEventId == Number(s) by { StateHas(s.server, callbacks, Number(s), limit); }
    SkippedIsSkipped(c, Held(s));
    QuietNotes(c, Number(s), s.unsent, s.server.sessionId, Truth(s.server), s.server.turn, v);
    Arrives(c, Number(s), s.unsent, s.server.sessionId, Truth(s.server), s.server.turn, v);
    DrainConcat(c, Held(s), Sequenced(Number(s), s.unsent));
  }

  lemma StateHas(sv: Server, callbacks: seq<Entry>, eventId: int, limit: int)
    requires limit >= 1
    ensures StateOf(sv, callbacks, eventId, limit).sessionId == sv.sessionId
    ensures StateOf(sv, callbacks, eventId, limit).eventId == eventId
  {
  }

  lemma ReachesAnswer(c: Client, ps: seq<Packet>, state: PublicState, rest: seq<Packet>, sv: Server, v: View, last: int)
    requires Drain(c, ps).Ok? && Reaches(MirrorOf(state), rest, sv, v, last)
    ensures Reaches(c, ps + [Answer(state)] + rest, sv, v, last)
  {
    hide Agrees, Truth;
    DrainOne(Drain(c, ps).value, Answer(state));
    DrainConcat(c, ps, [Answer(state)]);
    DrainConcat(c, ps + [Answer(state)], rest);
  }

  lemma PrefixDrains(c: Client, a: seq<Packet>, b: seq<Packet>)
    requires Drain(c, a + b).Ok?
    ensures Drain(c, a).Ok?
  {
    DrainConcat(c, a, b);
  }

  // ---- every transition keeps the invariant --------------------------------

  lemma ComingGrows(s: System, done: Worked)
    requires done.server.sessionId == s.server.sessionId
    ensures Coming(s.(server := done.server, unsent := s.unsent + done.notes))
         == Coming(s) + Sequenced(Number(s) + |s.unsent|, done.notes)
  {
    SequencedConcat(Number(s), s.unsent, done.notes);
  }

  lemma LabourKeeps(s: System, w: Work)
    requires Inv(s) && Perform(s.server, w).Some?
    ensures Inv(Next(s, Labour(w)).value)
  {
    hide InOrder, Truth, Perform, Reaches, Closed;
    var done, s' := Perform(s.server, w).value, Next(s, Labour(w)).value;
    WorkKeepsOrder(s.server, w);
    WorkIsPlain(s.server, w);
    LastTurnConcat(s.unsent, done.notes, s.server.turn);
    LastTurnEither(done.notes, s.server.turn, done.server.turn);
    UnsentGrows(s, w);
    ComingGrows(s, done);
    var last := Number(s) + |s.unsent|;
    if Linked(s) {
      ReachesWork(s.client, s.channel + Coming(s), s.server, w, s.view, last);
      assert s.channel + Coming(s) + Sequenced(last, done.notes) == s'.channel + Coming(s');
    }
    if s.stage.Taken? {
      var to := s.channel + [Answer(s.stage.answer)];
      ReachesWork(s.client, to + Coming(s), s.server, w, s.stage.taken, last);
      assert to + Coming(s) + Sequenced(last, done.notes) == to + Coming(s');
    }
  }

  lemma UnsentGrows(s: System, w: Work)
    requires InOrder(s.server) && UnsentOk(s) && Perform(s.server, w).Some?
    ensures var done := Perform(s.server, w).value;
            UnsentOk(s.(server := done.server, unsent := s.unsent + done.notes))
  {
    hide InOrder, Perform;
    var done := Perform(s.server, w).value;
    WorkKeepsOrder(s.server, w);
    WorkIsPlain(s.server, w);
    LastTurnConcat(s.unsent, done.notes, s.server.turn);
    LastTurnConcat(s.unsent, done.notes, done.server.turn);
    LastTurnEither(s.unsent, s.server.turn, done.server.turn);
    LastTurnEither(done.notes, s.server.turn, done.server.turn);
  }

  /** Where a plain note of this session goes. */
  lemma RouteOf(s: System, n: Note)
    requires Plain(n, s.server.sessionId)
    ensures var p, s' := Event(Number(s) + 1, n), Route(s, n);
            && s' == s.(router := s'.router, channel := s'.channel) && Number(s') == Number(s) + 1
            && s'.router == s.router.(watermarks := s'.router.watermarks,
                                      pending := if s.router.attaching then s.router.pending + [p]
                                          else s.router.pending)
            && s'.channel == if s.router.attached && !s.router.attaching then s.channel + [p] else s.channel
  {
    var x := R.Raised(MethodOf(n), Some(n));
    assert R.Numbered(s.router, x).1 == Event(Number(s) + 1, n);
    assert s.channel + [] == s.channel;
  }

  lemma NumbersShift(w: int, notes: seq<Note>)
    requires notes != []
    ensures Sequenced(w, notes) == [Event(w + 1, notes[0])] + Sequenced(w + 1, notes[1..])
  {
  }

  /** Numbering a note moves it from one end of the stream's middle to the other. */
  lemma EmitStreams(s: System)
    requires Queued(s) && UnsentOk(s) && s.unsent != []
    ensures var s' := Next(s, Emit).value;
            && s'.server == s.server && s'.stage == s.stage && s'.client == s.client && s'.view == s.view
            && s'.router.attaching == s.router.attaching && s'.router.attached == s.router.attached
            && Number(s') == Number(s) + 1 && |s'.unsent| == |s.unsent| - 1
            && (s.router.attaching ==> s'.channel == s.channel && Coming(s') == Coming(s))
            && (s.router.attached ==> s'.channel + Coming(s') == s.channel + Coming(s))
            && (!s.router.attaching && !s.router.attached ==> s'.channel == s.channel)
  {
    hide Route, Sequenced, Next;
    var n := s.unsent[0];
    assert Plain(n, s.server.sessionId);
    NextEmit(s);
    AttachingIs(s);
    var s', p := Route(s, n).(unsent := s.unsent[1..]), Event(Number(s) + 1, n);
    RouteOf(s, n);
    NumbersShift(Number(s), s.unsent);
    var rest := Sequenced(Number(s'), s'.unsent);
    assert Coming(s) == Held(s) + ([p] + rest) && Coming(s') == Held(s') + rest;
    if s.router.attaching {
      assert Held(s') == Held(s) + [p];
      Reassociate(Held(s), p, rest);
    } else if s.router.attached {
      HeldIsPending(s);
      HeldIsPending(s');
      assert [] + ([p] + rest) == [p] + rest && [] + rest == rest;
      Reassociate(s.channel, p, rest);
    }
  }

  lemma NextEmit(s: System)
    requires s.unsent != []
    ensures Next(s, Emit) == Some(Route(s, s.unsent[0]).(unsent := s.unsent[1..]))
  {
  }

  lemma Reassociate(a: seq<Packet>, p: Packet, rest: seq<Packet>)
    ensures a + [p] + rest == a + ([p] + rest)
  {
  }

  lemma EmitUnsent(s: System)
    requires UnsentOk(s) && s.unsent != []
    ensures UnsentOk(Next(s, Emit).value)
  {
    var n, rest := s.unsent[0], s.unsent[1..];
    LastTurnEither(rest, s.server.turn, if TellsTurn(n) then Some(n.turn) else s.server.turn);
    forall i | 0 <= i < |rest| ensures Plain(rest[i], s.server.sessionId) { assert rest[i] == s.unsent[i + 1]; }
  }

  lemma EmitKeeps(s: System)
    requires Inv(s) && s.unsent != []
    ensures Inv(Next(s, Emit).value)
  {
    hide InOrder, Reaches, Next, UnsentOk, Queued, Coming, Number;
    EmitStreams(s);
    EmitUnsent(s);
    EmitQueued(s);
    AttachingIs(s);
  }

  lemma EmitQueued(s: System)
    requires Queued(s) && UnsentOk(s) && s.unsent != []
    ensures Queued(Next(s, Emit).value)
  {
    var n, s' := s.unsent[0], Next(s, Emit).value;
    assert Plain(n, s.server.sessionId);
    RouteQueued(s, n);
    QueuedApart(Route(s, n), s');
  }

  lemma RouteQueued(s: System, n: Note)
    requires Queued(s)
    ensures Queued(Route(s, n))
  {
    var s' := Route(s, n);
    forall i | 0 <= i < |Held(s')| ensures HeldOk(s'.router, Held(s')[i]) {
      if i < |Held(s)| { assert Held(s')[i] == Held(s)[i] && HeldOk(s.router, Held(s)[i]); }
    }
  }

  lemma HandoffDelivered(c: Client, ps: seq<Packet>, sv: Server, sessionId: string, v: View, last: int, id: int)
    requires InOrder(sv) && sv.phase.Turning? && sessionId != sv.sessionId && id > 0
    requires Reaches(c, ps, sv, v, last)
    ensures var sv' := HandOver(sv, sessionId);
            var state := StateOf(sv', Opens(sv'.live.history), id, HANDOFF_LIMIT);
            Reaches(c, ps + [Event(id, Handoff(sessionId, sv.sessionId, state))], sv', ViewOf(sv', HANDOFF_LIMIT), id)
  {
    hide InOrder, Truth, Public, Mirrors, MirrorOf;
    var sv' := HandOver(sv, sessionId);
    var state := StateOf(sv', Opens(sv'.live.history), id, HANDOFF_LIMIT);
    HandOverKeepsOrder(sv, sessionId);
    LiveOpens(sv');
    assert Public(sv') == Truth(sv') by { PublicIsTruth(sv'); }
    StateMirrors(sv', Opens(sv'.live.history), id, HANDOFF_LIMIT);
    DrainOne(Drain(c, ps).value, Event(id, Handoff(sessionId, sv.sessionId, state)));
    DrainConcat(c, ps, [Event(id, Handoff(sessionId, sv.sessionId, state))]);
  }

  lemma HandingKeeps(s: System, sessionId: string)
    requires Inv(s) && Next(s, Handing(sessionId)).Some?
    ensures Inv(Next(s, Handing(sessionId)).value)
  {
    hide InOrder, Truth, Reaches, Public, HandOver, Opens, StateOf, ViewOf, Queued;
    var s' := Next(s, Handing(sessionId)).value;
    var sv, id, last := HandOver(s.server, sessionId), R.Watermark(s.router, sessionId) + 1, Number(s);
    HandOverKeepsOrder(s.server, sessionId);
    var state := StateOf(sv, Opens(sv.live.history), id - 1, HANDOFF_LIMIT);
    var note := Handoff(sessionId, s.server.sessionId, state);
    var p := R.Numbered(s.router, R.Raised(MethodOf(note), Some(note))).1;
    StateHas(sv, Opens(sv.live.history), id - 1, HANDOFF_LIMIT);
    StateStamped(sv, Opens(sv.live.history), id - 1, id);
    var stamped := StateOf(sv, Opens(sv.live.history), id, HANDOFF_LIMIT);
    assert p == Event(id, Handoff(sessionId, s.server.sessionId, stamped));
    HandedOver(s.server, sessionId);
    assert Number(s') == id;
    RouteQueued(s, note);
    QueuedApart(Route(s, note), s');
    assert Sequenced(Number(s), []) == [] && Sequenced(Number(s'), []) == [];
    AttachingIs(s);
    if Linked(s) {
      HandoffDelivered(s.client, s.channel + Coming(s), s.server, sessionId, s.view, last, id);
      assert s'.channel + Coming(s') == s.channel + Coming(s) + [p];
    }
    if s.stage.Taken? {
      var to := s.channel + [Answer(s.stage.answer)];
      HandoffDelivered(s.client, to + Coming(s), s.server, sessionId, s.stage.taken, last, id);
      assert s'.channel == s.channel;
      assert to + Coming(s') == to + Coming(s) + [p];
    }
  }

  lemma StateStamped(sv: Server, callbacks: seq<Entry>, a: int, b: int)
    ensures StateOf(sv, callbacks, a, HANDOFF_LIMIT).(eventId := b) == StateOf(sv, callbacks, b, HANDOFF_LIMIT)
  {
  }

  lemma HandedOver(sv: Server, sessionId: string)
    ensures HandOver(sv, sessionId).sessionId == sessionId
  {
  }

  lemma AttachingIs(s: System)
    requires Queued(s)
    ensures s.router.attaching <==> !s.stage.Settled?
    ensures s.router.attached ==> s.stage.Settled?
    ensures s.stage.Settled? ==> s.router.pending == []
  {
  }

  lemma UnsentApart(s: System, s': System)
    requires UnsentOk(s) && s'.server == s.server && s'.unsent == s.unsent
    ensures UnsentOk(s')
  {
  }

  lemma QueuedApart(s: System, s': System)
    requires Queued(s) && s'.router == s.router
    requires s'.stage == s.stage || (s.stage.Taken? && s'.stage.Taken?)
    ensures Queued(s')
  {
    assert Held(s') == Held(s);
  }

  // ---- attaching -----------------------------------------------------------

  lemma BeginKeeps(s: System)
    requires Inv(s) && s.stage.Settled?
    ensures Inv(Next(s, AttachBegin).value)
  {
    hide InOrder, Reaches, Sequenced;
    var s' := Next(s, AttachBegin).value;
    assert Held(s') == [] && Held(s) == [];
    assert Coming(s') == Coming(s);
  }

  lemma HeldIsPending(s: System)
    requires !s.stage.Flushing?
    ensures Held(s) == s.router.pending
  {
    assert [] + s.router.pending == s.router.pending;
  }

  lemma TakeKeeps(s: System, limit: int)
    requires Inv(s) && Next(s, AttachTake(limit)).Some?
    ensures Inv(Next(s, AttachTake(limit)).value)
  {
    hide InOrder, Reaches, Public, Truth, Opens, StateOf, ViewOf, Skipped, UnsentOk;
    var s' := Next(s, AttachTake(limit)).value;
    HeldIsPending(s);
    HeldIsPending(s');
    assert Coming(s') == Coming(s);
    OpensAre(Public(s.server));
    ReachesFromState(s, Opens(Public(s.server)), limit);
    ChannelDrains(s);
    ReachesAnswer(s.client, s.channel, s'.stage.answer, Coming(s), s.server, s'.stage.taken, Number(s) + |s.unsent|);
    UnsentApart(s, s');
  }

  lemma ChannelDrains(s: System)
    requires Inv(s)
    ensures Drain(s.client, s.channel).Ok?
  {
    if Linked(s) { PrefixDrains(s.client, s.channel, Coming(s)); }
  }

  lemma SendKeeps(s: System)
    requires Inv(s) && s.stage.Taken?
    ensures Inv(Next(s, AttachSend).value)
  {
    hide InOrder, Reaches, Sequenced;
    var s' := Next(s, AttachSend).value;
    assert Held(s') == Held(s) && Coming(s') == Coming(s);
  }

  lemma FailKeeps(s: System)
    requires Inv(s) && (s.stage.Begun? || s.stage.Taken?)
    ensures Inv(Next(s, AttachFail).value)
  {
    hide InOrder, Reaches, Sequenced;
    var s' := Next(s, AttachFail).value;
    if s.stage.was { assert Held(s') == Held(s) && Coming(s') == Coming(s); }
  }

  lemma FlushKeeps(s: System, step: Transition)
    requires Inv(s) && Next(s, step).Some? && (step.FlushSend? || step.FlushTake? || step.FlushDone?)
    ensures Inv(Next(s, step).value)
  {
    hide InOrder, Reaches, Sequenced;
    var s' := Next(s, step).value;
    if step.FlushSend? {
      var p := s.stage.batch[0];
      assert Held(s) == [p] + Held(s');
      assert s.channel + Coming(s) == s'.channel + Coming(s');
      forall i | 0 <= i < |Held(s')| ensures HeldOk(s'.router, Held(s')[i]) { assert Held(s')[i] == Held(s)[i + 1]; }
    } else {
      assert Held(s') == Held(s) && Coming(s') == Coming(s);
    }
  }

  // ---- answers -------------------------------------------------------------

  lemma NothingHeld(s: System)
    requires Queued(s) && s.stage.Settled?
    ensures Held(s) == [] && Coming(s) == Sequenced(Number(s), s.unsent)
  {
    assert [] + Sequenced(Number(s), s.unsent) == Sequenced(Number(s), s.unsent);
  }

  lemma ReadKeeps(s: System, limit: int)
    requires Inv(s) && Next(s, Read(limit)).Some?
    ensures Inv(Next(s, Read(limit)).value)
  {
    hide InOrder, Reaches, Public, Truth, Opens, StateOf, ViewOf, UnsentOk;
    var s' := Next(s, Read(limit)).value;
    NothingHeld(s);
    assert Held(s') == Held(s) && Coming(s') == Coming(s);
    OpensAre(Public(s.server));
    ReachesFromState(s, Opens(Public(s.server)), limit);
    ChannelDrains(s);
    ReachesAnswer(s.client, s.channel, StateOf(s.server, Opens(Public(s.server)), Number(s), limit), Coming(s),
                  s.server, s'.view, Number(s) + |s.unsent|);
    UnsentApart(s, s');
  }

  lemma ReplacedInOrder(sv: Server, cut: nat, sessionId: string, checkpoint: Entry)
    requires InOrder(sv) && sv.phase.Idle? && cut <= |sv.settled|
        && IsCheckpoint(sv.settled[..cut], sessionId, checkpoint)
    ensures InOrder(Replaced(sv, cut, sessionId, checkpoint))
    ensures SameOpen([], Public(Replaced(sv, cut, sessionId, checkpoint)))
  {
    hide LiveOk;
    var kept := sv.settled[..cut];
    var h := Rebind(kept, sessionId);
    RebindIs(kept, sessionId);
    assert UniqueIds(kept);
    forall i | 0 <= i < |h| ensures h[i].id != checkpoint.id { assert h[i].id == kept[i].id; }
    UniqueAppend(h, checkpoint);
    FreshIsLive(sessionId, None, "");
    forall i | 0 <= i < |h| ensures Named(h[i]) && Tidy(h[i]) && (h[i].body.Callback? ==> h[i].status.Complete?) {
      assert kept[i] == sv.settled[i] && Named(sv.settled[i]) && Tidy(sv.settled[i]);
    }
    var all := h + [checkpoint];
    forall e | e in all ensures !IsOpen(e) {
      var i :| 0 <= i < |all| && all[i] == e;
      if i < |h| { assert Tidy(h[i]); }
    }
  }

  lemma ReplacingKeeps(s: System, cut: nat, sessionId: string, checkpoint: Entry)
    requires Inv(s) && Next(s, Replacing(cut, sessionId, checkpoint)).Some?
    ensures Inv(Next(s, Replacing(cut, sessionId, checkpoint)).value)
  {
    hide InOrder, Reaches, Public, Truth, StateOf, ViewOf, IsCheckpoint;
    var s' := Next(s, Replacing(cut, sessionId, checkpoint)).value;
    ReplacedInOrder(s.server, cut, sessionId, checkpoint);
    NothingHeld(s);
    NothingHeld(s');
    assert Tellable(s') by { PublicIsTruth(s'.server); }
    assert Held(s') == [];
    ReachesFromState(s', [], HANDOFF_LIMIT);
    ChannelDrains(s);
    ReachesAnswer(s.client, s.channel, StateOf(s'.server, [], R.Watermark(s.router, sessionId), HANDOFF_LIMIT),
        Coming(s'),
                  s'.server, s'.view, Number(s'));
  }

  /** The same but for what a page or a history update changes. */
  predicate SameButHistory(c: Client, d: Client) {
    d == Client(d.state.(eventId := c.state.eventId, sessionId := c.state.sessionId, turn := c.state.turn), d.entries,
                c.lastEventId)
  }

  /** One client with the part another has loaded. */
  function WithPart(c: Client, d: Client): Client {
    c.(entries := d.entries,
       state := c.state.(history := d.state.history, before := d.state.before, callbacks := d.state.callbacks))
  }

  /** Notes that leave the history alone do so whatever part is loaded. */
  lemma {:induction false} QuietApart(c: Client, d: Client, last: int, notes: seq<Note>)
    requires SameButHistory(c, d)
    requires forall i :: 0 <= i < |notes| ==> Plain(notes[i], notes[i].sessionId) && !TellsHistory(notes[i])
    requires Drain(c, Sequenced(last, notes)).Ok?
    ensures var x := Drain(c, Sequenced(last, notes)).value;
            WithPart(x, c) == x && Drain(d, Sequenced(last, notes)) == Ok(WithPart(x, d))
    decreases |notes|
  {
    if notes != [] {
      var n, rest := notes[0], notes[1..];
      NumbersShift(last, notes);
      var ps := [Event(last + 1, n)] + Sequenced(last + 1, rest);
      assert ps[0] == Event(last + 1, n) && ps[1..] == Sequenced(last + 1, rest);
      assert Plain(notes[0], n.sessionId) && !TellsHistory(notes[0]);
      forall i | 0 <= i < |rest| ensures Plain(rest[i], rest[i].sessionId) && !TellsHistory(rest[i]) {
        assert rest[i] == notes[i + 1];
      }
      QuietApart(Receive(c, ps[0]).value, Receive(d, ps[0]).value, last + 1, rest);
    }
  }

  lemma PartMirrors(c: Client, d: Client, h: seq<Entry>, v: View)
    requires Mirrors(c, h, v) && WithPart(d, c) == d
    ensures Mirrors(d, h, v)
  {
  }

  /** A page before notes that leave the history alone. */
  lemma ReachesPage(c0: Client, ps: seq<Packet>, last: int, notes: seq<Note>, sv: Server, v: View, now: int, limit: int)
    requires Reaches(c0, ps + Sequenced(last, notes), sv, v, now) && Sound(Truth(sv))
    requires forall i :: 0 <= i < |notes| ==> Plain(notes[i], notes[i].sessionId) && !TellsHistory(notes[i])
    requires limit >= 1 && 0 < v.first < |Truth(sv)|
    ensures var page := HistoryPage(Truth(sv), None, Some(Truth(sv)[v.first].id), None, limit);
            Reaches(c0, ps + [Older(page)] + Sequenced(last, notes), sv, View(Back(v.first, limit), v.covered), now)
  {
    hide Mirrors, HistoryPage, Merge, Truth, Sound;
    var h, w := Truth(sv), View(Back(v.first, limit), v.covered);
    var page := HistoryPage(h, None, Some(h[v.first].id), None, limit);
    DrainConcat(c0, ps, Sequenced(last, notes));
    var c := Drain(c0, ps).value;
    var x := Drain(c, Sequenced(last, notes)).value;
    QuietApart(c, c, last, notes);
    PartMirrors(x, c, h, v);
    PageMirrored(c, h, v, limit);
    var c' := Prepend(c, page).0;
    QuietApart(c, c', last, notes);
    PartMirrors(c', WithPart(x, c'), h, w);
    DrainOne(c, Older(page));
    DrainConcat(c0, ps, [Older(page)]);
    DrainConcat(c0, ps + [Older(page)], Sequenced(last, notes));
  }

  lemma ListKeeps(s: System, limit: int)
    requires Inv(s) && Next(s, List(limit)).Some?
    ensures Inv(Next(s, List(limit)).value)
  {
    hide InOrder, Public, Truth, HistoryPage, Reaches, Queued, UnsentOk;
    var s' := Next(s, List(limit)).value;
    var h := Truth(s.server);
    NothingHeld(s);
    NothingHeld(s') by { QueuedApart(s, s'); }
    UnsentApart(s, s');
    QueuedApart(s, s');
    TruthIsSound(s.server);
    QuietUnsent(s);
    ReachesPage(s.client, s.channel, Number(s), s.unsent, s.server, s.view, Number(s) + |s.unsent|, limit);
  }

  lemma QuietUnsent(s: System)
    requires UnsentOk(s) && Tellable(s)
    ensures forall i :: 0 <= i < |s.unsent| ==>
              Plain(s.unsent[i], s.unsent[i].sessionId) && !TellsHistory(s.unsent[i])
  {
    forall i | 0 <= i < |s.unsent| ensures Plain(s.unsent[i], s.unsent[i].sessionId) {
      assert Plain(s.unsent[i], s.server.sessionId);
    }
  }

  lemma AskedAgain(c0: Client, ps: seq<Packet>, last: int, notes: seq<Note>, sv: Server, v: View, now: int,
                   callback: Entry)
    requires Reaches(c0, ps + Sequenced(last, notes), sv, v, now)
    requires forall i :: 0 <= i < |notes| ==> Plain(notes[i], notes[i].sessionId) && !TellsHistory(notes[i])
    requires v.first <= |Truth(sv)| && Has(Truth(sv)[v.first..], callback.id)
    ensures Reaches(c0, ps + [Ask(callback)] + Sequenced(last, notes), sv, v, now)
  {
    hide Truth, ById, SameOpen;
    DrainConcat(c0, ps, Sequenced(last, notes));
    var c := Drain(c0, ps).value;
    QuietApart(c, c, last, notes);
    ByIdIs(c.state.history);
    assert Ensure(c, callback) == c;
    DrainOne(c, Ask(callback));
    DrainConcat(c0, ps, [Ask(callback)]);
    DrainConcat(c0, ps + [Ask(callback)], Sequenced(last, notes));
  }

  lemma RedeliverKeeps(s: System, callback: Entry)
    requires Inv(s) && Next(s, Redeliver(callback)).Some?
    ensures Inv(Next(s, Redeliver(callback)).value)
  {
    hide InOrder, Public, Truth, Reaches, UnsentOk, Queued;
    var s' := Next(s, Redeliver(callback)).value;
    UnsentApart(s, s');
    QueuedApart(s, s');
    NothingHeld(s);
    NothingHeld(s');
    QuietUnsent(s);
    AskedAgain(s.client, s.channel, Number(s), s.unsent, s.server, s.view, Number(s) + |s.unsent|, callback);
  }

  /** But for the turn it shows. */
  predicate SameButTurn(c: Client, d: Client) {
    d == c.(state := c.state.(turn := d.state.turn))
  }

  lemma NoteButTurn(c: Client, d: Client, id: int, note: Note)
    requires SameButTurn(c, d) && Plain(note, note.sessionId) && Consume(c, id, note).Ok?
    ensures Consume(d, id, note).Ok?
    ensures var x, y := Consume(c, id, note).value.client, Consume(d, id, note).value.client;
            && SameButTurn(x, y) && x.state.sessionId == c.state.sessionId
            && (TellsTurn(note) && id > c.lastEventId ==> x == y)
            && c.lastEventId <= x.lastEventId && (x.lastEventId == c.lastEventId || x.lastEventId == id)
  {
    hide PutEntry, CallbacksAfter, Names;
  }

  /** Events that tell of a turn the client has not got to yet make up for the one
      it shows. */
  lemma {:induction false} EventsButTurn(c: Client, d: Client, last: int, notes: seq<Note>)
    requires SameButTurn(c, d) && forall i :: 0 <= i < |notes| ==> Plain(notes[i], notes[i].sessionId)
    requires Drain(c, Sequenced(last, notes)).Ok?
    ensures var x, y := Drain(c, Sequenced(last, notes)), Drain(d, Sequenced(last, notes));
            && y.Ok? && SameButTurn(x.value, y.value)
            && x.value.state.sessionId == c.state.sessionId && c.lastEventId <= x.value.lastEventId
            && (c == d ==> x == y)
            && ((exists i :: 0 <= i < |notes| && TellsTurn(notes[i]) && c.lastEventId < last + 1 + i) ==> x == y)
    decreases |notes|
  {
    hide Consume, SameButTurn;
    if notes != [] {
      var n, rest := notes[0], notes[1..];
      NumbersShift(last, notes);
      var ps := [Event(last + 1, n)] + Sequenced(last + 1, rest);
      assert ps[0] == Event(last + 1, n) && ps[1..] == Sequenced(last + 1, rest);
      assert Plain(notes[0], n.sessionId);
      NoteButTurn(c, d, last + 1, n);
      var c1, d1 := Receive(c, ps[0]).value, Receive(d, ps[0]).value;
      forall i | 0 <= i < |rest| ensures Plain(rest[i], rest[i].sessionId) { assert rest[i] == notes[i + 1]; }
      EventsButTurn(c1, d1, last + 1, rest);
      if i :| 0 <= i < |notes| && TellsTurn(notes[i]) && c.lastEventId < last + 1 + i {
        if i > 0 { assert TellsTurn(rest[i - 1]) && c1.lastEventId < last + 2 + (i - 1); }
      }
    }
  }

  /** The response comes before the announcement of the same turn, and before any
      note that was waiting. */
  lemma BeganThenTold(c0: Client, ps: seq<Packet>, turn: Turn, last: int, notes: seq<Note>, sv: Server, v: View,
                      now: int)
    requires Reaches(c0, ps + Sequenced(last, notes), sv, v, now) && turn.sessionId == sv.sessionId
    requires forall i :: 0 <= i < |notes| ==> Plain(notes[i], notes[i].sessionId)
    requires notes != [] && TellsTurn(notes[|notes| - 1])
    requires Drain(c0, ps).Ok? ==> Drain(c0, ps).value.lastEventId < last + |notes|
    ensures Reaches(c0, ps + [Began(turn)] + Sequenced(last, notes), sv, v, now)
  {
    hide Mirrors, Truth;
    DrainConcat(c0, ps, Sequenced(last, notes));
    var c := Drain(c0, ps).value;
    var c1 := c.(state := c.state.(turn := Some(turn)));
    EventsButTurn(c, c1, last, notes);
    DrainOne(c, Began(turn));
    DrainConcat(c0, ps, [Began(turn)]);
    DrainConcat(c0, ps + [Began(turn)], Sequenced(last, notes));
  }

  lemma StartingKeeps(s: System, turnId: string, preview: string)
    requires Inv(s) && Next(s, Starting(turnId, preview)).Some?
    ensures Inv(Next(s, Starting(turnId, preview)).value)
  {
    hide InOrder, Truth, Perform, Reaches, Queued, UnsentOk;
    var w, s' := Work.Open(Turning, Some(turnId), preview), Next(s, Starting(turnId, preview)).value;
    var done, n := Perform(s.server, w).value, Number(s);
    WorkKeepsOrder(s.server, w);
    UnsentGrows(s, w);
    QueuedApart(s, s');
    UnsentApart(s.(server := s'.server, unsent := s'.unsent), s');
    NothingHeld(s);
    NothingHeld(s');
    StartIsPlain(s, turnId, preview);
    ReachesWork(s.client, s.channel + Sequenced(n, s.unsent), s.server, w, s.view, n + |s.unsent|);
    SequencedConcat(n, s.unsent, done.notes);
    assert s.channel + Sequenced(n, s.unsent) + Sequenced(n + |s.unsent|, done.notes)
        == s.channel + Sequenced(n, s'.unsent);
    BeforeUnsent(s);
    BeganThenTold(s.client, s.channel, Turn(turnId, s.server.sessionId, TurnActive), n, s'.unsent, s'.server, s.view,
                  n + |s'.unsent|);
  }

  /** What waits when a turn starts, and its announcement. */
  lemma StartIsPlain(s: System, turnId: string, preview: string)
    requires UnsentOk(s) && Perform(s.server, Work.Open(Turning, Some(turnId), preview)).Some?
    ensures var done := Perform(s.server, Work.Open(Turning, Some(turnId), preview)).value;
            var notes := s.unsent + done.notes;
            && done.server.sessionId == s.server.sessionId
            && (forall i :: 0 <= i < |notes| ==> Plain(notes[i], notes[i].sessionId))
            && |notes| == |s.unsent| + 1 && TellsTurn(notes[|notes| - 1])
  {
  }

  /** The client has not got beyond the notes that wait. */
  lemma BeforeUnsent(s: System)
    requires Inv(s) && Attached(s)
    ensures var r := Drain(s.client, s.channel); r.Ok? && r.value.lastEventId <= Number(s) + |s.unsent|
  {
    hide InOrder, Mirrors, Truth;
    NothingHeld(s);
    DrainConcat(s.client, s.channel, Sequenced(Number(s), s.unsent));
    var c := Drain(s.client, s.channel).value;
    forall i | 0 <= i < |s.unsent| ensures Plain(s.unsent[i], s.unsent[i].sessionId) {
      assert Plain(s.unsent[i], s.server.sessionId);
    }
    EventsButTurn(c, c, Number(s), s.unsent);
  }

  // ---- the client ----------------------------------------------------------

  lemma HeadDrains(c: Client, p: Packet, rest: seq<Packet>, sv: Server, v: View, last: int)
    requires Reaches(c, [p] + rest, sv, v, last)
    ensures Receive(c, p).Ok? && Reaches(Receive(c, p).value, rest, sv, v, last)
  {
    assert ([p] + rest)[1..] == rest;
  }

  /** A packet on its way is never refused. */
  lemma NeverRefused(s: System)
    requires Inv(s) && s.channel != []
    ensures Receive(s.client, s.channel[0]).Ok?
  {
    hide InOrder;
    assert s.channel + Coming(s) == [s.channel[0]] + (s.channel[1..] + Coming(s));
    HeadDrains(s.client, s.channel[0], s.channel[1..] + Coming(s), s.server, s.view, Number(s) + |s.unsent|);
  }

  lemma DeliverKeeps(s: System)
    requires Inv(s) && s.channel != []
    ensures Next(s, Deliver).Some? && Inv(Next(s, Deliver).value)
  {
    hide InOrder, Reaches, Receive, Sequenced;
    NeverRefused(s);
    var p, tail, s' := s.channel[0], s.channel[1..], Next(s, Deliver).value;
    var last := Number(s) + |s.unsent|;
    assert Coming(s') == Coming(s);
    assert s.channel + Coming(s) == [p] + (tail + Coming(s));
    HeadDrains(s.client, p, tail + Coming(s), s.server, s.view, last);
    if s.stage.Taken? {
      var rest := [Answer(s.stage.answer)] + Coming(s);
      assert s.channel + [Answer(s.stage.answer)] + Coming(s) == [p] + (tail + rest);
      HeadDrains(s.client, p, tail + rest, s.server, s.stage.taken, last);
      assert tail + rest == tail + [Answer(s.stage.answer)] + Coming(s');
    }
  }

  /** An answer that overtakes skippable events changes nothing downstream. */
  lemma OvertakenDrains(c: Client, ps: seq<Packet>, k: nat, rest: seq<Packet>, sv: Server, v: View, last: int)
    requires k < |ps| && ps[k].Answer? && Skipped(ps[..k], ps[k].state.sessionId, ps[k].state.eventId)
    requires Reaches(c, ps + rest, sv, v, last)
    ensures Reaches(MirrorOf(ps[k].state), ps[..k] + ps[k + 1..] + rest, sv, v, last)
  {
    hide Agrees, Truth;
    var a, before, after := MirrorOf(ps[k].state), ps[..k], ps[k + 1..] + rest;
    assert ps + rest == before + ([ps[k]] + after);
    DrainConcat(c, before, [ps[k]] + after);
    HeadDrains(Drain(c, before).value, ps[k], after, sv, v, last);
    SkippedIsSkipped(a, before);
    DrainConcat(a, before, after);
    assert before + after == before + ps[k + 1..] + rest;
  }

  lemma AdoptKeeps(s: System, k: nat)
    requires Inv(s) && Next(s, AdoptEarly(k)).Some?
    ensures Inv(Next(s, AdoptEarly(k)).value)
  {
    hide InOrder, Reaches, MirrorOf, Sequenced, Skipped;
    var s' := Next(s, AdoptEarly(k)).value;
    var last := Number(s) + |s.unsent|;
    assert Coming(s') == Coming(s);
    OvertakenDrains(s.client, s.channel, k, Coming(s), s.server, s.view, last);
    if s.stage.Taken? {
      var rest := [Answer(s.stage.answer)] + Coming(s);
      assert s.channel + rest == s.channel + [Answer(s.stage.answer)] + Coming(s);
      OvertakenDrains(s.client, s.channel, k, rest, s.server, s.stage.taken, last);
      assert s'.channel + rest == s'.channel + [Answer(s.stage.answer)] + Coming(s');
    }
  }

  lemma DetachKeeps(s: System)
    requires Inv(s)
    ensures Inv(Next(s, Detach).value)
  {
    hide InOrder, Reaches;
  }

  lemma StepKeeps(s: System, step: Transition)
    requires Inv(s) && Next(s, step).Some?
    ensures Inv(Next(s, step).value)
  {
    hide Inv, Next;
    NextOf(s, step);
    match step {
      case Labour(w) => LabourKeeps(s, w);
      case Emit => EmitKeeps(s);
      case Handing(sessionId) => HandingKeeps(s, sessionId);
      case AttachBegin => BeginKeeps(s);
      case AttachTake(limit) => TakeKeeps(s, limit);
      case AttachSend => SendKeeps(s);
      case AttachFail => FailKeeps(s);
      case FlushSend => FlushKeeps(s, step);
      case FlushTake => FlushKeeps(s, step);
      case FlushDone => FlushKeeps(s, step);
      case Read(limit) => ReadKeeps(s, limit);
      case Replacing(cut, sessionId, checkpoint) => ReplacingKeeps(s, cut, sessionId, checkpoint);
      case List(limit) => ListKeeps(s, limit);
      case Redeliver(callback) => RedeliverKeeps(s, callback);
      case Starting(turnId, preview) => StartingKeeps(s, turnId, preview);
      case Detach => DetachKeeps(s);
      case Deliver => DeliverKeeps(s);
      case AdoptEarly(k) => AdoptKeeps(s, k);
    }
  }

  lemma NextOf(s: System, step: Transition)
    requires Next(s, step).Some?
    ensures step.Labour? ==> Perform(s.server, step.work).Some?
    ensures step.Emit? ==> s.unsent != []
    ensures step.AttachBegin? ==> s.stage.Settled?
    ensures step.AttachSend? ==> s.stage.Taken?
    ensures step.AttachFail? ==> s.stage.Begun? || s.stage.Taken?
    ensures step.Deliver? ==> s.channel != []
  {
  }

  /** What clearing, compacting and rewinding leave: the settled entries up to the
      cut, under the new session id, then the checkpoint; no turn, and the answer
      on its way. */
  lemma ReplacingLeaves(s: System, cut: nat, sessionId: string, checkpoint: Entry)
    requires Next(s, Replacing(cut, sessionId, checkpoint)).Some?
    ensures var sv, s' := s.server, Next(s, Replacing(cut, sessionId, checkpoint)).value;
            var h := Truth(s'.server);
            && |h| == cut + 1 && cut <= |sv.settled| && h[cut] == checkpoint
            && (forall i :: 0 <= i < cut ==> h[i] == sv.settled[i].(sessionId := sessionId))
            && s'.server.sessionId == sessionId && s'.server.turn == None && s'.server.phase == Idle
            && |s'.channel| == |s.channel| + 1 && s'.channel[..|s.channel|] == s.channel
            && s'.channel[|s.channel|].Answer? && s'.channel[|s.channel|].state.sessionId == sessionId
            && s'.channel[|s.channel|].state.turn == None && s'.channel[|s.channel|].state.callbacks == []
  {
  }

  // ---- the theorem ---------------------------------------------------------

  /** A server in good order that no client has attached to yet. */
  ghost predicate Initial(s: System) {
    && InOrder(s.server) && s.unsent == [] && s.channel == [] && s.stage.Settled?
    && !s.router.attaching && !s.router.attached && s.router.pending == []
  }

  lemma {:induction false} RunKeeps(s: System, steps: seq<Transition>)
    requires Inv(s) && Run(s, steps).Some?
    ensures Inv(Run(s, steps).value)
    decreases |steps|
  {
    hide Inv, Next;
    if steps != [] {
      StepKeeps(s, steps[0]);
      RunKeeps(Next(s, steps[0]).value, steps[1..]);
    }
  }

  /** Main result.  After any run, whatever is on its way can be taken without a
      refusal, and a client that takes all of it shows the server's session and
      turn, its history from the first loaded entry on, entry for entry, and,
      when the loaded part held every callback in progress, exactly the open
      callbacks. */
  lemma Replicates(s0: System, steps: seq<Transition>)
    requires Initial(s0) && Run(s0, steps).Some?
    ensures var s := Run(s0, steps).value;
            && (s.channel != [] ==> Receive(s.client, s.channel[0]).Ok?)
            && (Linked(s) ==>
                  var r := Drain(s.client, s.channel + Coming(s));
                  && r.Ok?
                  && r.value.state.sessionId == s.server.sessionId
                  && r.value.state.turn == s.server.turn
                  && r.value.lastEventId == Number(s) + |s.unsent|
                  && s.view.first <= |Truth(s.server)|
                  && r.value.state.history == Truth(s.server)[s.view.first..]
                  && r.value.state.before == Before(Truth(s.server), s.view.first)
                  && (s.view.covered ==> SameOpen(r.value.state.callbacks, Truth(s.server))))
  {
    hide InOrder, Next, Drain, Truth;
    RunKeeps(s0, steps);
    var s := Run(s0, steps).value;
    if s.channel != [] { NeverRefused(s); }
    if Linked(s) && s.view.covered {
      assert Sound(Truth(s.server)) by { TruthIsSound(s.server); }
      CoveredOpens(Drain(s.client, s.channel + Coming(s)).value.state.callbacks, Truth(s.server), s.view.first);
    }
  }

  lemma CoveredOpens(callbacks: seq<Entry>, h: seq<Entry>, first: nat)
    requires first <= |h| && Sound(h) && Covered(h, first) && SameOpen(callbacks, h[first..])
    ensures SameOpen(callbacks, h)
  {
    OpenWidens(callbacks, h, 0, first);
    assert h[0..] == h;
  }

  /** When nothing is on its way, a client in step shows the server as it is. */
  lemma QuietMirrorIsExact(s0: System, steps: seq<Transition>)
    requires Initial(s0) && Run(s0, steps).Some?
    requires var s := Run(s0, steps).value; Attached(s) && s.channel == [] && s.unsent == []
    ensures var s := Run(s0, steps).value;
            && s.client.state.sessionId == s.server.sessionId && s.client.state.turn == s.server.turn
            && s.client.lastEventId == Number(s)
            && s.view.first <= |Truth(s.server)| && s.client.state.history == Truth(s.server)[s.view.first..]
  {
    hide InOrder, Next, Truth;
    var s := Run(s0, steps).value;
    RunKeeps(s0, steps);
    NothingHeld(s);
    assert s.channel + Coming(s) == [];
  }
}
