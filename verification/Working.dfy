/** What a session's tasks do to its history between two sends, and that each
    piece of work takes a mirror of the session before it to one after it. */
module Working {
  import opened Prelude
  import opened Entries
  import opened Projection
  import opened ProjectorFacts
  import opened Client
  import opened Mirror
  import opened Telling
  import opened Session

  // ---- work on the server --------------------------------------------------

  /** What the session's tasks do between two sends. */
  datatype Work =
    | Act(action: Action, newId: string, now: int)
    | Open(phase: Phase, turnId: Option<string>, preview: string)
    | Close                         // a harness effect or an injection settles
    | Settle                        // a finalized turn settles; its projector stays
    | Release(status: TurnStatus)   // the projector goes, the turn is announced as over
    | Tick(stats: bool)             // the session record or its statistics changed

  datatype Worked = Worked(server: Server, notes: seq<Note>)

  function Idled(sv: Server, settled: seq<Entry>): Server {
    Server(sv.sessionId, settled, Idle, Fresh(sv.sessionId, None, ""), sv.turn)
  }

  /** No callback is in progress; other entries may be, when steering has opened
      them too late. */
  predicate CallbacksDone(h: seq<Entry>) {
    forall i :: 0 <= i < |h| && h[i].body.Callback? ==> h[i].status.Complete?
  }

  /** None where the step cannot happen, or is one the mirror is not proof against:
      an action that raises, an unannounced compaction, a reused entry id. */
  function Perform(sv: Server, w: Work): Option<Worked> {
    match w
    case Act(a, newId, now) =>
      var o := Project(sv.live, a, newId, now);
      if (sv.phase.Turning? || sv.phase.Shelling? || sv.phase.Injecting?)
         && o.error.None? && !Unannounced(sv.live, a) && UniqueIds(sv.settled + o.state.history)
      then Some(Worked(sv.(live := o.state), Notes(o.updates))) else None
    case Open(phase, turnId, preview) =>
      if !sv.phase.Idle? || phase.Idle? || phase.Doubled? || (phase.Turning? && turnId.None?) then None
      else
        var live := Fresh(sv.sessionId, turnId, preview);
        if phase.Turning? then
          var turn := Turn(turnId.value, sv.sessionId, TurnActive);
          Some(Worked(Server(sv.sessionId, sv.settled, phase, live, Some(turn)), [TurnStarted(sv.sessionId, turn)]))
        else Some(Worked(Server(sv.sessionId, sv.settled, phase, live, sv.turn), []))
    case Close =>
      if (sv.phase.Shelling? || sv.phase.Injecting?) && CallbacksDone(sv.live.history)
      then Some(Worked(Idled(sv, sv.settled + sv.live.history), [])) else None
    case Settle =>
      if sv.phase.Turning? && CallbacksDone(sv.live.history)
      then Some(Worked(sv.(settled := sv.settled + sv.live.history, phase := Doubled), [])) else None
    case Release(status) =>
      if !sv.phase.Doubled? || sv.turn.None? then None
      else
        var turn := sv.turn.value.(status := status);
        Some(Worked(Idled(sv, sv.settled).(turn := Some(turn)),
                    [Note.SessionUpdated(sv.sessionId), TurnCompleted(sv.sessionId, turn)]))
    case Tick(stats) =>
      Some(Worked(sv, [if stats then StatsUpdated(sv.sessionId) else Note.SessionUpdated(sv.sessionId)]))
  }

  predicate TellsTurn(n: Note) { n.TurnStarted? || n.TurnCompleted? }

  predicate TellsHistory(n: Note) { n.EntryAdded? || n.EntryUpdated? }

  predicate Plain(n: Note, sessionId: string) { n.sessionId == sessionId && !n.Handoff? && !n.Snapshot? }

  /** The turn after some notes, for one who knew another before. */
  function LastTurn(notes: seq<Note>, turn: Option<Turn>): Option<Turn>
    decreases |notes|
  {
    if notes == [] then turn
    else LastTurn(notes[1..], if TellsTurn(notes[0]) then Some(notes[0].turn) else turn)
  }

  lemma {:induction false} LastTurnConcat(a: seq<Note>, b: seq<Note>, turn: Option<Turn>)
    ensures LastTurn(a + b, turn) == LastTurn(b, LastTurn(a, turn))
    decreases |a|
  {
    if a == [] {
      assert a + b == b;
    } else {
      assert (a + b)[0] == a[0] && (a + b)[1..] == a[1..] + b;
      LastTurnConcat(a[1..], b, if TellsTurn(a[0]) then Some(a[0].turn) else turn);
    }
  }

  lemma {:induction false} LastTurnEither(notes: seq<Note>, t: Option<Turn>, u: Option<Turn>)
    ensures LastTurn(notes, t) == LastTurn(notes, u) || (LastTurn(notes, t) == t && LastTurn(notes, u) == u)
    decreases |notes|
  {
    if notes != [] {
      if !TellsTurn(notes[0]) { LastTurnEither(notes[1..], t, u); }
    }
  }

  lemma {:induction false} LastTurnSilent(notes: seq<Note>, t: Option<Turn>)
    requires forall i :: 0 <= i < |notes| ==> !TellsTurn(notes[i])
    ensures LastTurn(notes, t) == t
    decreases |notes|
  {
    if notes != [] { LastTurnSilent(notes[1..], t); }
  }

  // ---- work keeps order and is told ----------------------------------------

  lemma {:induction false} UpdatesNamed(s: State, cs: seq<Cmd>)
    requires Valid(s) && forall i :: 0 <= i < |cs| ==> CmdOk(s, cs[i])
    ensures forall i :: 0 <= i < |Exec(s, cs).updates| ==> Exec(s, cs).updates[i].sessionId == s.sessionId
    decreases |cs|
  {
    hide PatchIn, Valid;
    if cs != [] {
      assert CmdOk(s, cs[0]);
      var first := Step(s, cs[0]);
      assert forall i :: 0 <= i < |first.updates| ==> first.updates[i].sessionId == s.sessionId by {
        if cs[0].Patch? { PatchStep(s, cs[0].id, cs[0].change, cs[0].now); }
      }
      if first.error.None? {
        StepKeepsValid(s, cs[0]);
        forall i | 0 <= i < |cs[1..]| ensures CmdOk(first.state, cs[1..][i]) { assert CmdOk(s, cs[i + 1]); }
        UpdatesNamed(first.state, cs[1..]);
      }
    }
  }

  lemma NotesPlain(s: State, a: Action, newId: string, now: int)
    requires Valid(s)
    ensures var ns := Notes(Project(s, a, newId, now).updates);
            forall i :: 0 <= i < |ns| ==> Plain(ns[i], s.sessionId) && !TellsTurn(ns[i])
  {
    hide Commands, Exec, Valid;
    CommandsOk(s, a, newId, now);
    UpdatesNamed(s, Commands(s, a, newId, now));
  }

  lemma SettlingIsClosed(s: State)
    requires LiveOk(s) && CallbacksDone(s.history)
    ensures Closed(s.history) && OfSession(s.history, s.sessionId)
  {
    hide Anchored;
    forall i | 0 <= i < |s.history| ensures Named(s.history[i]) && s.history[i].sessionId == s.sessionId {
      assert EntryOk(s.history[i], s.sessionId, s.turnId);
    }
  }

  lemma FreshIsLive(sessionId: string, turnId: Option<string>, preview: string)
    ensures LiveOk(Fresh(sessionId, turnId, preview))
  {
    FreshIsValid(sessionId, turnId, preview);
    FreshIsAnchored(sessionId, turnId, preview);
  }

  lemma WorkKeepsOrder(sv: Server, w: Work)
    requires InOrder(sv) && Perform(sv, w).Some?
    ensures InOrder(Perform(sv, w).value.server) && Perform(sv, w).value.server.sessionId == sv.sessionId
  {
    hide LiveOk, Project, Unannounced, Closed;
    var sv' := Perform(sv, w).value.server;
    match w {
      case Act(a, newId, now) => ActionKeepsLive(sv.live, a, newId, now);
      case Open(phase, turnId, preview) =>
        FreshIsLive(sv.sessionId, turnId, preview);
        assert sv.settled + [] == sv.settled;
      case Close =>
        SettlingIsClosed(sv.live);
        ClosedPrefix(sv.settled, sv.live.history);
        FreshIsLive(sv.sessionId, None, "");
      case Settle =>
        SettlingIsClosed(sv.live);
        ClosedPrefix(sv.settled, sv.live.history);
      case Release(_) => FreshIsLive(sv.sessionId, None, "");
      case Tick(_) =>
    }
  }

  lemma WorkIsPlain(sv: Server, w: Work)
    requires InOrder(sv) && Perform(sv, w).Some?
    ensures forall i :: 0 <= i < |Perform(sv, w).value.notes| ==> Plain(Perform(sv, w).value.notes[i], sv.sessionId)
    ensures LastTurn(Perform(sv, w).value.notes, sv.turn) == Perform(sv, w).value.server.turn
  {
    hide Project, Unannounced, Closed;
    var notes := Perform(sv, w).value.notes;
    match w {
      case Act(a, newId, now) =>
        NotesPlain(sv.live, a, newId, now);
        LastTurnSilent(notes, sv.turn);
      case Release(_) =>
        var over := notes[1];
        assert notes[1..] == [over] && [over][1..] == [];
        assert LastTurn([over], sv.turn) == LastTurn([], Some(over.turn));
      case _ =>
    }
  }

  /** Notes that leave the history alone. */
  lemma {:induction false} QuietNotes(c: Client, last: int, notes: seq<Note>, sessionId: string,
                                      h: seq<Entry>, turn: Option<Turn>, v: View)
    requires forall i :: 0 <= i < |notes| ==> Plain(notes[i], sessionId) && !TellsHistory(notes[i])
    requires last >= 0 && Agrees(c, sessionId, h, turn, v, last)
    ensures Carries(c, last, notes, sessionId, h, LastTurn(notes, turn), v)
    decreases |notes|
  {
    hide Mirrors;
    if notes == [] {
      CarriesNothing(c, last, sessionId, h, turn, v);
    } else {
      var n := notes[0];
      assert Plain(n, sessionId);
      var t := if TellsTurn(n) then Some(n.turn) else turn;
      var c1 := c.(lastEventId := last + 1, state := c.state.(turn := t));
      NextNote(c, last, n);
      assert Mirrors(c1, h, v) by { TurnApart(c, h, v, t, last + 1); }
      QuietNotes(c1, last + 1, notes[1..], sessionId, h, t, v);
      assert Sequenced(last, notes) == Sequenced(last, [n]) + Sequenced(last + 1, notes[1..]);
      DrainConcat(c, Sequenced(last, [n]), Sequenced(last + 1, notes[1..]));
    }
  }

  lemma TurnApart(c: Client, h: seq<Entry>, v: View, turn: Option<Turn>, n: int)
    requires Mirrors(c, h, v)
    ensures Mirrors(c.(lastEventId := n, state := c.state.(turn := turn)), h, v)
  {
  }

  /** A mirror of the server before a piece of work takes its notes and mirrors
      the server after it. */
  lemma WorkIsTold(sv: Server, w: Work, c: Client, v: View, last: int)
    requires InOrder(sv) && Perform(sv, w).Some?
    requires last >= 0 && Agrees(c, sv.sessionId, Truth(sv), sv.turn, v, last)
    ensures var done := Perform(sv, w).value;
            Carries(c, last, done.notes, done.server.sessionId, Truth(done.server), done.server.turn, v)
  {
    hide LiveOk, Project, Unannounced, Closed, Agrees, Carries;
    var done := Perform(sv, w).value;
    if w.Act? {
      ActionMirrored(sv.settled, sv.live, w.action, w.newId, w.now, c, sv.turn, v, last);
    } else {
      assert sv.settled + [] == sv.settled;
      assert Truth(done.server) == Truth(sv);
      WorkIsPlain(sv, w);
      QuietNotes(c, last, done.notes, sv.sessionId, Truth(sv), sv.turn, v);
    }
  }
}
