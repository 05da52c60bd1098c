/** The life of a turn, stretch by stretch between the sends of its task: starting
    and announcing it, taking what the core and other tasks do, answering and
    rejecting callbacks, and its end, cut short or not. */
module Turns {
  import opened Prelude
  import opened Json
  import opened Entries
  import opened Changes
  import opened Projection
  import opened ProjectorFacts
  import opened Client
  import opened Mirror
  import opened Session
  import opened Execution

  /** A callback's answer and whether it answers an approval or a question. */
  datatype Reply = Reply(approval: bool, output: Json)

  datatype Future = Waiting | Resolved(reply: Reply) | Rejected

  /** An answer under way holds the record's lock: its notes still to be sent, and
      whether the status was. */
  datatype Answering = Answering(reply: Reply, left: seq<Note>, statusSent: bool)

  datatype Record = Record(
    approval: bool, future: Future, output: Option<Reply>, coreResolved: bool, answering: Option<Answering>)

  datatype Control = Control(
    active: Option<Turn>, last: Option<Turn>, running: bool, projector: Option<State>, history: seq<Entry>,
    callbacks: map<string, Record>, owned: Option<Owner>, slot: Option<Owner>, told: seq<Note>)

  datatype Conflict = TurnRunning | SlotTaken

  datatype Answered = Begun | Repeated | NotFound | Conflicting | ProjectionFailed | Locked

  function Owning(turnId: string): Owner { Owner(TurnRun, turnId) }

  // ---- starting ------------------------------------------------------------

  function Started(c: Control, sessionId: string, turnId: string, preview: string): Result<Control, Conflict> {
    if c.running then Err(TurnRunning)
    else if c.slot.Some? then Err(SlotTaken)
    else
      var owner := Owning(turnId);
      Ok(c.(slot := Some(owner), owned := Some(owner), active := Some(Turn(turnId, sessionId, TurnActive)),
            last := None, projector := Some(Fresh(sessionId, Some(turnId), preview)), running := true))
  }

  // ---- callbacks -----------------------------------------------------------

  /** A record the core has settled is left alone. */
  function Reject(r: Record): Record {
    if r.coreResolved then r else r.(coreResolved := true, future := if r.future.Waiting? then Rejected else r.future)
  }

  function CancelAll(m: map<string, Record>): map<string, Record> { map k | k in m :: Reject(m[k]) }

  function RejectOne(c: Control, id: string): Control {
    if id in c.callbacks then c.(callbacks := c.callbacks[id := Reject(c.callbacks[id])]) else c
  }

  /** What an action does to the projector and what it tells. */
  function Projected(c: Control, a: Action, newId: string, now: int): (Control, bool) {
    match c.projector
    case None => (c, true)
    case Some(s) =>
      var o := Project(s, a, newId, now);
      (c.(projector := Some(o.state), told := c.told + Notes(o.updates)), o.error.None?)
  }

  /** An answer takes the record's lock, is checked and projected. */
  function BeginAnswer(c: Control, id: string, reply: Reply, now: int): (Control, Answered) {
    if id !in c.callbacks then (c, NotFound)
    else
      var r := c.callbacks[id];
      if r.answering.Some? then (c, Locked)
      else if r.output.Some? then (c, if r.output == Some(reply) then Repeated else Conflicting)
      else if r.approval != reply.approval then (c, Conflicting)
      else
        var (c1, notes, ok) := Resolving(c, id, reply.output, now);
        if !ok then (c1, ProjectionFailed)
        else (c1.(callbacks := c.callbacks[id := r.(answering := Some(Answering(reply, notes, false)))]), Begun)
  }

  function Resolving(c: Control, id: string, output: Json, now: int): (Control, seq<Note>, bool) {
    match c.projector
    case None => (c, [], true)
    case Some(s) =>
      var o := Project(s, ResolveCallback(id, output), "", now);
      (c.(projector := Some(o.state)), Notes(o.updates), o.error.None?)
  }

  /** Up to the next send of an answer: its notes one by one, the status of the
      session while a turn is active; after the last one it is recorded. */
  function Proceed(c: Control, id: string): Control {
    if id !in c.callbacks || c.callbacks[id].answering.None? then c
    else
      var r, a := c.callbacks[id], c.callbacks[id].answering.value;
      if a.left != [] then
        c.(told := c.told + [a.left[0]],
           callbacks := c.callbacks[id := r.(answering := Some(a.(left := a.left[1..])))])
      else if !a.statusSent && c.active.Some? then
        c.(told := c.told + [Note.SessionUpdated(c.active.value.sessionId)],
           callbacks := c.callbacks[id := r.(answering := Some(a.(statusSent := true)))])
      else c.(callbacks := c.callbacks[id := Recorded(r, a.reply)])
  }

  function Recorded(r: Record, reply: Reply): Record {
    r.(output := Some(reply), future := if r.future.Waiting? then Resolved(reply) else r.future, answering := None)
  }

  function Responded(c: Control, id: string, reply: Reply, now: int): (Control, Answered) {
    var (c1, result) := BeginAnswer(c, id, reply, now);
    (if result.Begun? then Proceed(c1, id) else c1, result)
  }

  /** The request that answers is cancelled at a send: the lock is released. */
  function GivenUp(c: Control, id: string): Control {
    if id !in c.callbacks then c
    else c.(callbacks := c.callbacks[id := c.callbacks[id].(answering := None)])
  }

  // ---- what can happen while a turn runs -----------------------------------

  /** What other tasks do. */
  datatype Other =
    | Side(action: Action, newId: string, now: int)   // steering, linking of children
    | Respond(id: string, reply: Reply, now: int)
    | GoOn(id: string)                                // an answer goes on from its send
    | GiveUp(id: string)
    | Refuse(id: string)

  datatype Input =
    | Core(action: Action, newId: string, now: int)   // an event of the turn
    | Ask(id: string, approval: bool, title: string, detail: Json, related: Option<string>, newId: string, now: int)
    | Resume(id: string)                              // the turn goes on after a callback
    | Move(sessionId: string)                         // the core changed the session id
    | Elsewhere(other: Other)

  function Does(c: Control, o: Other): Control {
    match o
    case Side(a, newId, now) => Projected(c, a, newId, now).0
    case Respond(id, reply, now) => Responded(c, id, reply, now).0
    case GoOn(id) => Proceed(c, id)
    case GiveUp(id) => GivenUp(c, id)
    case Refuse(id) => RejectOne(c, id)
  }

  function Meanwhile(c: Control, others: seq<Other>): Control
    decreases |others|
  {
    if others == [] then c else Meanwhile(Does(c, others[0]), others[1..])
  }

  predicate EffectKnown(s: State, related: Option<string>) {
    related.Some? && (Effects, related.value) in s.ids && s.ids[(Effects, related.value)] in s.entries
    && s.entries[s.ids[(Effects, related.value)]].body.Effect?
  }

  predicate CannotAsk(c: Control, id: string, approval: bool, related: Option<string>) {
    || c.projector.None? || c.active.None? || id in c.callbacks
    || (approval && !EffectKnown(c.projector.value, related))
  }

  /** The control after an input, and whether the turn goes on. */
  function Take(c: Control, input: Input): (Control, bool) {
    match input
    case Core(a, newId, now) => Projected(c, a, newId, now)
    case Ask(id, approval, title, detail, related, newId, now) =>
      if CannotAsk(c, id, approval, related) then (RejectOne(c, id), false)
      else
        var c1 := c.(callbacks := c.callbacks[id := Record(approval, Waiting, None, false, None)]);
        var (c2, ok) := Projected(c1, OpenCallback(id, title, detail, related), newId, now);
        if ok then (c2, true) else (RejectOne(c2, id), false)
    case Resume(id) =>
      if id !in c.callbacks then (c, true)
      else
        (match c.callbacks[id].future
         case Waiting => (c, true)
         case Rejected => (c, false)
         case Resolved(_) => (c.(callbacks := c.callbacks[id := c.callbacks[id].(coreResolved := true)]), true))
    case Move(sessionId) =>
      (c.(history := Rebind(c.history, sessionId),
          projector := if c.projector.None? then None else Some(RebindLive(c.projector.value, sessionId)),
          active := RebindTurn(c.active, sessionId)), true)
    case Elsewhere(o) => (Does(c, o), true)
  }

  function TakeAll(c: Control, inputs: seq<Input>): (Control, bool)
    decreases |inputs|
  {
    if inputs == [] then (c, true)
    else
      var (c1, goesOn) := Take(c, inputs[0]);
      if goesOn then TakeAll(c1, inputs[1..]) else (c1, false)
  }

  // ---- the sends of the turn's task ----------------------------------------

  /** What comes between a send and the turn's next stretch: other tasks, and
      whether the turn is cancelled there. */
  datatype Pause = Pause(others: seq<Other>, cancelled: bool)

  function At(ps: seq<Pause>, i: nat): Pause { if i < |ps| then ps[i] else Pause([], false) }

  function From(ps: seq<Pause>, i: nat): seq<Pause> { if i <= |ps| then ps[i..] else [] }

  /** Cancelled at one of the first n. */
  predicate CutIn(ps: seq<Pause>, n: nat) { exists i :: 0 <= i < n && At(ps, i).cancelled }

  /** Notes handed over one by one, and whether that was cut short. */
  function Sent(c: Control, notes: seq<Note>, ps: seq<Pause>): (Control, bool)
    decreases |notes|
  {
    if notes == [] then (c, false)
    else
      var c1 := Meanwhile(c.(told := c.told + [notes[0]]), At(ps, 0).others);
      if At(ps, 0).cancelled then (c1, true) else Sent(c1, notes[1..], From(ps, 1))
  }

  /** Before the guarded part: the turn waits to run, then sends three notes. */
  function Announced(c: Control, ps: seq<Pause>): (Control, bool)
    requires c.active.Some?
  {
    var turn, c1 := c.active.value, Meanwhile(c, At(ps, 0).others);
    if At(ps, 0).cancelled then (c1, true)
    else
      Sent(c1, [TurnStarted(turn.sessionId, turn), Note.SessionUpdated(turn.sessionId), StatsUpdated(turn.sessionId)],
           From(ps, 1))
  }

  const BEFORE := 4

  // ---- the end -------------------------------------------------------------

  datatype Ending = Ends | Raises | CancelledOnce

  function StatusAt(goesOn: bool, ending: Ending): TurnStatus {
    if !goesOn then TurnFailed
    else match ending case Ends => TurnDone case Raises => TurnFailed case CancelledOnce => TurnInterrupted
  }

  /** Every entry in progress is closed; the notes of that are not sent yet. */
  function ClosedUp(c: Control, status: TurnStatus, now: int): (Control, seq<Note>) {
    match c.projector
    case None => (c, [])
    case Some(s) =>
      var o := Project(s, Finalize(status.TurnInterrupted?), "", now);
      (c.(projector := Some(o.state)), Notes(o.updates))
  }

  function Settled(c: Control, over: Turn): Control {
    c.(history := if c.projector.None? then c.history else c.history + c.projector.value.history,
       callbacks := CancelAll(c.callbacks), last := Some(over))
  }

  function Left(c: Control): Control { c.(active := None, projector := None, owned := None) }

  /** Closing, settling, leaving and releasing, each followed by sends; and
      whether that was cut short. */
  function Finalized(c: Control, turn: Turn, owner: Owner, status: TurnStatus, now: int,
                     ps: seq<Pause>): (Control, bool) {
    var over := turn.(status := status);
    var (c0, notes) := ClosedUp(c, status, now);
    var (c1, cut1) := Sent(c0, notes, ps);
    if cut1 then (c1, true)
    else
      var (c2, cut2) := Sent(Settled(c1, over), [StatsUpdated(turn.sessionId)], From(ps, |notes|));
      if cut2 then (c2, true) else Leaving(c2, turn.sessionId, over, owner, ps, |notes| + 1)
  }

  /** The turn is no longer active, the slot is free, the end is told. */
  function Leaving(c: Control, sessionId: string, over: Turn, owner: Owner, ps: seq<Pause>, i: nat): (Control, bool) {
    var (c1, cut) := Sent(Left(c), [Note.SessionUpdated(sessionId)], From(ps, i));
    if cut then (c1, true)
    else Sent(c1.(slot := Released(c1.slot, owner)), [TurnCompleted(sessionId, over)], From(ps, i + 1))
  }

  /** What a turn does in any case when its guarded part is over. */
  function Finally(c: Control, owner: Owner): Control {
    c.(owned := None, slot := Released(c.slot, owner), running := false)
  }

  /** A turn that has entered its guarded part, from there to its end. */
  function Ran(c: Control, inputs: seq<Input>, ending: Ending, now: int, ps: seq<Pause>): Control
    requires c.active.Some?
  {
    var (c1, goesOn) := TakeAll(c, inputs);
    var turn, owner := if c1.active.Some? then c1.active.value else c.active.value, Owning(c.active.value.id);
    Finally(Finalized(c1, turn, owner, StatusAt(goesOn, ending), now, ps).0, owner)
  }

  /** All that a task meets: before its guarded part, in it, how that ends, and
      during the finalization. */
  datatype Fate = Fate(before: seq<Pause>, inputs: seq<Input>, ending: Ending, after: seq<Pause>, now: int)

  /** The whole task.  Cancelled before its guarded part, nothing is finalized. */
  function TaskDone(c: Control, f: Fate): Control
    requires c.active.Some?
  {
    var (c1, cut) := Announced(c, f.before);
    if cut || c1.active.None? then c1.(running := false) else Ran(c1, f.inputs, f.ending, f.now, f.after)
  }

  // ---- what other tasks leave alone ----------------------------------------

  predicate NoTurn(n: Note) { !n.TurnStarted? && !n.TurnCompleted? }

  /** Settled for the core means nobody waits; a resolved future has the answer;
      an answer under way is not recorded yet. */
  predicate RecordOk(r: Record) {
    && (r.coreResolved ==> !r.future.Waiting?)
    && (r.future.Resolved? ==> r.output == Some(r.future.reply))
    && (r.answering.Some? ==> r.output.None? && forall i :: 0 <= i < |r.answering.value.left| ==>
          NoTurn(r.answering.value.left[i]))
  }

  ghost predicate Orderly(c: Control) {
    && (c.projector.Some? ==> Valid(c.projector.value))
    && forall k :: k in c.callbacks ==> RecordOk(c.callbacks[k])
  }

  predicate AllSettled(m: map<string, Record>) {
    forall k :: k in m ==> m[k].coreResolved && !m[k].future.Waiting?
  }

  /** The turn, the settled history and the slot stay, the projector only grows,
      settled records stay settled, and nobody tells that a turn begins or is over. */
  ghost predicate Steady(c: Control, d: Control) {
    && Orderly(d)
    && d == c.(projector := d.projector, callbacks := d.callbacks, told := d.told)
    && (c.projector.None? <==> d.projector.None?)
    && (c.projector.Some? ==> Grows(c.projector.value.history, d.projector.value.history))
    && (AllSettled(c.callbacks) ==> AllSettled(d.callbacks))
    && |c.told| <= |d.told| && c.told == d.told[..|c.told|]
    && forall i :: |c.told| <= i < |d.told| ==> NoTurn(d.told[i])
  }

  // ---- an answer is final --------------------------------------------------

  /** Projecting changes the projector and what is told, nothing else. */
  lemma ProjectsOnly(c: Control, o: Other)
    ensures o.Side? ==>
              Does(c, o) == c.(projector := Does(c, o).projector, told := Does(c, o).told)
    ensures o.Respond? ==>
              var d := Resolving(c, o.id, o.reply.output, o.now).0; d == c.(projector := d.projector)
  {
    hide Project;
  }

  lemma DoesKeepsOutput(c: Control, o: Other, id: string)
    requires id in c.callbacks && c.callbacks[id].output.Some? && c.callbacks[id].answering.None?
    ensures var d := Does(c, o);
            id in d.callbacks && d.callbacks[id].output == c.callbacks[id].output && d.callbacks[id].answering.None?
  {
    hide Projected, Resolving;
    ProjectsOnly(c, o);
  }

  lemma TakeKeepsOutput(c: Control, input: Input, id: string)
    requires id in c.callbacks && c.callbacks[id].output.Some? && c.callbacks[id].answering.None?
    ensures var d := Take(c, input).0;
            id in d.callbacks && d.callbacks[id].output == c.callbacks[id].output && d.callbacks[id].answering.None?
  {
    hide Project, Rebind, RebindLive, EffectKnown, Does;
    if input.Elsewhere? { DoesKeepsOutput(c, input.other, id); }
  }

  /** Main result: once an answer has been recorded it is the record's answer for
      good, whatever happens; the same answer again is a repetition, any other a
      conflict, and neither changes anything. */
  lemma {:induction false} AnswerIsFinal(c: Control, inputs: seq<Input>, id: string, reply: Reply, other: Reply,
                                         now: int)
    requires id in c.callbacks && c.callbacks[id].output == Some(reply) && c.callbacks[id].answering.None?
    ensures var d := TakeAll(c, inputs).0;
            && id in d.callbacks && d.callbacks[id].output == Some(reply)
            && Responded(d, id, other, now) == (d, if other == reply then Repeated else Conflicting)
    decreases |inputs|
  {
    hide Take, Projected, Resolving;
    if inputs != [] {
      TakeKeepsOutput(c, inputs[0], id);
      if Take(c, inputs[0]).1 { AnswerIsFinal(Take(c, inputs[0]).0, inputs[1..], id, reply, other, now); }
    }
  }

  // ---- an answer cut short -------------------------------------------------

  /** The projector has this callback's entry, and it is complete. */
  predicate Completed(s: State, id: string) {
    && (Callbacks, id) in s.ids && s.ids[(Callbacks, id)] == CallbackEntryId(id)
    && CallbackEntryId(id) in s.entries && s.entries[CallbackEntryId(id)].status.Complete?
  }

  predicate KeepsName(c: Cmd, id: string) {
    c.Remember? && c.table.Callbacks? && c.key == id ==> c.id == CallbackEntryId(id)
  }

  lemma {:induction false} FinishNames(s: State, h: seq<Entry>, now: int, id: string)
    ensures forall i :: 0 <= i < |FinishCmds(s, h, now)| ==> KeepsName(FinishCmds(s, h, now)[i], id)
  {
    if h != [] { FinishNames(s, h[1..], now, id); }
  }

  lemma {:induction false} ClosingNames(h: seq<Entry>, cancelled: bool, now: int, id: string)
    ensures forall i :: 0 <= i < |ClosingCmds(h, cancelled, now)| ==> KeepsName(ClosingCmds(h, cancelled, now)[i], id)
  {
    if h != [] { ClosingNames(h[1..], cancelled, now, id); }
  }

  lemma CommandsName(s: State, a: Action, newId: string, now: int, id: string)
    ensures forall i :: 0 <= i < |Commands(s, a, newId, now)| ==> KeepsName(Commands(s, a, newId, now)[i], id)
  {
    hide FinishCmds, ClosingCmds;
    if a.Finalize? { ClosingNames(s.history, a.cancelled, now, id); }
    if a.ToolCall? { FinishNames(s, s.history, now, id); }
  }

  lemma StepKeepsCompleted(s: State, c: Cmd, id: string)
    requires Valid(s) && Completed(s, id) && KeepsName(c, id)
    ensures Completed(Step(s, c).state, id)
  {
    hide PatchIn, Valid;
    if c.Patch? { PatchStep(s, c.id, c.change, c.now); }
  }

  lemma {:induction false} ExecKeepsCompleted(s: State, cs: seq<Cmd>, id: string)
    requires Valid(s) && Completed(s, id)
    requires forall i :: 0 <= i < |cs| ==> KeepsName(cs[i], id) && CmdOk(s, cs[i])
    ensures Completed(Exec(s, cs).state, id)
    decreases |cs|
  {
    hide Step, Valid, Completed;
    if cs != [] {
      assert KeepsName(cs[0], id) && CmdOk(s, cs[0]);
      StepKeepsCompleted(s, cs[0], id);
      StepKeepsValid(s, cs[0]);
      var s1 := Step(s, cs[0]).state;
      if Step(s, cs[0]).error.None? {
        forall i | 0 <= i < |cs[1..]| ensures KeepsName(cs[1..][i], id) && CmdOk(s1, cs[1..][i]) {
          assert KeepsName(cs[i + 1], id) && CmdOk(s, cs[i + 1]);
        }
        ExecKeepsCompleted(s1, cs[1..], id);
      }
    }
  }

  lemma ProjectKeepsCompleted(s: State, a: Action, newId: string, now: int, id: string)
    requires Valid(s) && Completed(s, id)
    ensures Valid(Project(s, a, newId, now).state) && Completed(Project(s, a, newId, now).state, id)
  {
    hide Valid, Completed, Commands, Exec;
    CommandsName(s, a, newId, now, id);
    CommandsOk(s, a, newId, now);
    ProjectKeepsValid(s, a, newId, now);
    ExecKeepsCompleted(s, Commands(s, a, newId, now), id);
  }

  /** A completed callback takes no answer. */
  lemma CompletedRefuses(s: State, id: string, output: Json, now: int)
    requires Valid(s) && Completed(s, id)
    ensures var o := Project(s, ResolveCallback(id, output), "", now); o.error.Some? && o.state == s
  {
    hide PatchIn, Valid;
    var cs := Commands(s, ResolveCallback(id, output), "", now);
    PatchStep(s, CallbackEntryId(id), SettleCallback(Answered(output)), now);
    assert Step(s, cs[0]).error.Some?;
  }

  lemma ResolvingCompletes(s: State, id: string, output: Json, now: int)
    requires Valid(s) && (Callbacks, id) in s.ids && s.ids[(Callbacks, id)] == CallbackEntryId(id)
    requires Project(s, ResolveCallback(id, output), "", now).error.None?
    ensures var o := Project(s, ResolveCallback(id, output), "", now);
            Valid(o.state) && Completed(o.state, id) && o.updates != []
  {
    hide Valid, Step, Changed;
    var cs := Commands(s, ResolveCallback(id, output), "", now);
    ProjectKeepsValid(s, ResolveCallback(id, output), "", now);
    CommandsName(s, ResolveCallback(id, output), "", now, id);
    CommandsOk(s, ResolveCallback(id, output), "", now);
    var change := SettleCallback(Answered(output));
    PatchStep(s, CallbackEntryId(id), change, now);
    SettledNow(s, id, change, now);
    var s1 := Step(s, cs[0]).state;
    StepKeepsValid(s, cs[0]);
    forall i | 0 <= i < |cs[1..]| ensures KeepsName(cs[1..][i], id) && CmdOk(s1, cs[1..][i]) {
      assert KeepsName(cs[i + 1], id) && CmdOk(s, cs[i + 1]);
    }
    ExecKeepsCompleted(s1, cs[1..], id);
  }

  lemma SettledNow(s: State, id: string, change: Change, now: int)
    requires change.SettleCallback? && CallbackEntryId(id) in s.entries
    ensures Changed(s.entries[CallbackEntryId(id)], change, now).Some? ==>
              Changed(s.entries[CallbackEntryId(id)], change, now).value.status.Complete?
  {
  }

  lemma RebindKeepsCompleted(s: State, sessionId: string, id: string)
    requires Valid(s) && Completed(s, id)
    ensures Valid(RebindLive(s, sessionId)) && Completed(RebindLive(s, sessionId), id)
  {
    hide ById;
    RebindKeepsValid(s, sessionId);
    ReboundById(s.history, sessionId, CallbackEntryId(id));
  }

  /** Sends an answer under way still has before it is recorded, that included. */
  function Sends(c: Control, id: string): nat
    requires id in c.callbacks
  {
    match c.callbacks[id].answering
    case None => 0
    case Some(a) => |a.left| + (if !a.statusSent && c.active.Some? then 1 else 0) + 1
  }

  /** How often an answer goes on before it is given up. */
  function GoneOn(inputs: seq<Input>, id: string): nat {
    if inputs == [] || inputs[0] == Elsewhere(GiveUp(id)) then 0
    else (if inputs[0] == Elsewhere(GoOn(id)) then 1 else 0) + GoneOn(inputs[1..], id)
  }

  /** The callback's entry is complete in the turn's projector. */
  ghost predicate EntryDone(c: Control, id: string) {
    && id in c.callbacks && c.active.Some? && c.projector.Some?
    && Valid(c.projector.value) && Completed(c.projector.value, id)
  }

  lemma TakeKeepsDone(c: Control, input: Input, id: string)
    requires EntryDone(c, id)
    ensures EntryDone(Take(c, input).0, id)
  {
    hide Project, Rebind, RebindLive, EffectKnown, Completed, Valid;
    var s := c.projector.value;
    match input {
      case Core(a, newId, now) => ProjectKeepsCompleted(s, a, newId, now, id);
      case Ask(asked, approval, title, detail, related, newId, now) =>
        ProjectKeepsCompleted(s, OpenCallback(asked, title, detail, related), newId, now, id);
      case Move(sessionId) => RebindKeepsCompleted(s, sessionId, id);
      case Resume(_) =>
      case Elsewhere(o) =>
        match o {
          case Side(a, newId, now) => ProjectKeepsCompleted(s, a, newId, now, id);
          case Respond(asked, reply, now) =>
            ProjectKeepsCompleted(s, ResolveCallback(asked, reply.output), "", now, id);
          case _ =>
        }
    }
  }

  /** An answer neither recorded nor under way, for an entry that is complete,
      cannot be made again, and never comes. */
  lemma SpentRefuses(c: Control, id: string, reply: Reply, now: int)
    requires EntryDone(c, id) && c.callbacks[id].output.None? && c.callbacks[id].answering.None?
    ensures Responded(c, id, reply, now).0 == c
    ensures Responded(c, id, reply, now).1.ProjectionFailed? || Responded(c, id, reply, now).1.Conflicting?
  {
    hide Project, Completed, Valid;
    CompletedRefuses(c.projector.value, id, reply.output, now);
  }

  lemma TakeKeepsSpent(c: Control, input: Input, id: string)
    requires EntryDone(c, id) && c.callbacks[id].output.None? && c.callbacks[id].answering.None?
    ensures var d := Take(c, input).0;
            id in d.callbacks && d.callbacks[id].output.None? && d.callbacks[id].answering.None?
  {
    hide Project, Rebind, RebindLive, EffectKnown, EntryDone;
    DoneHas(c, id);
    if input.Elsewhere? && input.other.Respond? && input.other.id == id {
      SpentRefuses(c, id, input.other.reply, input.other.now);
    }
  }

  lemma DoneHas(c: Control, id: string)
    requires EntryDone(c, id)
    ensures id in c.callbacks && c.active.Some? && c.projector.Some?
  {
  }

  lemma {:induction false} SpentStays(c: Control, inputs: seq<Input>, id: string)
    requires EntryDone(c, id) && c.callbacks[id].output.None? && c.callbacks[id].answering.None?
    ensures var d := TakeAll(c, inputs).0;
            EntryDone(d, id) && id in d.callbacks
            && d.callbacks[id].output.None? && d.callbacks[id].answering.None?
    decreases |inputs|
  {
    hide Take, EntryDone;
    DoneHas(c, id);
    if inputs != [] {
      TakeKeepsSpent(c, inputs[0], id);
      TakeKeepsDone(c, inputs[0], id);
      if Take(c, inputs[0]).1 { SpentStays(Take(c, inputs[0]).0, inputs[1..], id); }
    }
    DoneHas(TakeAll(c, inputs).0, id);
  }

  lemma DoesLeavesAnswer(c: Control, o: Other, id: string)
    requires id in c.callbacks && c.callbacks[id].answering.Some? && o != GoOn(id) && o != GiveUp(id)
    ensures var d := Does(c, o);
            && id in d.callbacks && d.callbacks[id].answering == c.callbacks[id].answering
            && d.callbacks[id].output == c.callbacks[id].output && d.active == c.active
  {
    hide Projected, Resolving;
    ProjectsOnly(c, o);
  }

  /** What is not about this answer leaves it where it is. */
  lemma OthersLeaveAnswer(c: Control, input: Input, id: string)
    requires id in c.callbacks && c.callbacks[id].answering.Some? && c.active.Some?
    requires input != Elsewhere(GoOn(id)) && input != Elsewhere(GiveUp(id))
    ensures var d := Take(c, input).0;
            && id in d.callbacks && d.callbacks[id].answering == c.callbacks[id].answering
            && d.callbacks[id].output == c.callbacks[id].output && d.active.Some?
  {
    hide Project, Rebind, RebindLive, EffectKnown, Does;
    if input.Elsewhere? { DoesLeavesAnswer(c, input.other, id); }
  }

  /** The answer at one of its sends. */
  lemma GoesOn(c: Control, id: string)
    requires id in c.callbacks && c.callbacks[id].answering.Some?
    ensures var r, d := c.callbacks[id], Proceed(c, id);
            && id in d.callbacks
            && if Sends(c, id) == 1 then
                 d.callbacks[id].output == Some(r.answering.value.reply) && d.callbacks[id].answering.None?
               else
                 && d.callbacks[id].output == r.output && d.callbacks[id].answering.Some?
                 && d.callbacks[id].answering.value.reply == r.answering.value.reply
                 && Sends(d, id) == Sends(c, id) - 1
  {
  }

  lemma {:induction false} OutputStays(c: Control, inputs: seq<Input>, id: string)
    requires id in c.callbacks && c.callbacks[id].output.Some? && c.callbacks[id].answering.None?
    ensures var d := TakeAll(c, inputs).0; id in d.callbacks && d.callbacks[id].output == c.callbacks[id].output
    decreases |inputs|
  {
    hide Take;
    if inputs != [] {
      TakeKeepsOutput(c, inputs[0], id);
      if Take(c, inputs[0]).1 { OutputStays(Take(c, inputs[0]).0, inputs[1..], id); }
    }
  }

  lemma {:induction false} UnderWay(c: Control, inputs: seq<Input>, id: string)
    requires EntryDone(c, id) && c.callbacks[id].answering.Some? && c.callbacks[id].output.None?
    requires TakeAll(c, inputs).1
    ensures var reply, d := c.callbacks[id].answering.value.reply, TakeAll(c, inputs).0;
            && id in d.callbacks
            && (d.callbacks[id].output == Some(reply) <==> GoneOn(inputs, id) >= Sends(c, id))
            && (d.callbacks[id].output.Some? ==> d.callbacks[id].output == Some(reply))
    decreases |inputs|
  {
    hide Take, EntryDone, Sends;
    DoneHas(c, id);
    assert Sends(c, id) >= 1 by { SendsSome(c, id); }
    if inputs != [] {
      var x, rest := inputs[0], inputs[1..];
      var c1 := Take(c, x).0;
      TakeKeepsDone(c, x, id);
      DoneHas(c1, id);
      if x == Elsewhere(GiveUp(id)) {
        assert c1 == GivenUp(c, id) by { TakesOther(c, GiveUp(id)); }
        SpentStays(c1, rest, id);
      } else if x == Elsewhere(GoOn(id)) {
        assert c1 == Proceed(c, id) by { TakesOther(c, GoOn(id)); }
        GoesOn(c, id);
        if Sends(c, id) == 1 { OutputStays(c1, rest, id); } else { UnderWay(c1, rest, id); }
      } else {
        OthersLeaveAnswer(c, x, id);
        SameSends(c, c1, id);
        UnderWay(c1, rest, id);
      }
    }
  }

  lemma TakesOther(c: Control, o: Other)
    ensures Take(c, Elsewhere(o)) == (Does(c, o), true)
  {
  }

  lemma SendsSome(c: Control, id: string)
    requires id in c.callbacks && c.callbacks[id].answering.Some?
    ensures Sends(c, id) >= 1
  {
  }

  lemma SameSends(c: Control, d: Control, id: string)
    requires id in c.callbacks && id in d.callbacks && c.callbacks[id].answering == d.callbacks[id].answering
    requires c.active.Some? && d.active.Some?
    ensures Sends(c, id) == Sends(d, id)
  {
  }

  lemma JustBegun(c: Control, id: string, reply: Reply, now: int)
    requires id in c.callbacks && c.active.Some? && c.projector.Some? && Valid(c.projector.value)
    requires (Callbacks, id) in c.projector.value.ids
             && c.projector.value.ids[(Callbacks, id)] == CallbackEntryId(id)
    requires Responded(c, id, reply, now).1.Begun?
    ensures var d := Responded(c, id, reply, now).0;
            && EntryDone(d, id) && d.callbacks[id].output.None?
            && d.callbacks[id].answering.Some? && d.callbacks[id].answering.value.reply == reply
  {
    hide Project, Completed, Valid;
    ResolvingCompletes(c.projector.value, id, reply.output, now);
  }

  /** Main result: while its turn runs, an answer that has begun is recorded if and
      only if its request goes on through all its sends without being given up.
      If it is given up, the callback's entry is complete but its record stays
      without an answer as long as the turn's projector is there. */
  lemma AnswerRecordedIff(c: Control, id: string, reply: Reply, now: int, inputs: seq<Input>)
    requires id in c.callbacks && c.active.Some? && c.projector.Some? && Valid(c.projector.value)
    requires (Callbacks, id) in c.projector.value.ids
             && c.projector.value.ids[(Callbacks, id)] == CallbackEntryId(id)
    requires var (begun, result) := Responded(c, id, reply, now); result.Begun? && TakeAll(begun, inputs).1
    ensures var begun := Responded(c, id, reply, now).0;
            var d := TakeAll(begun, inputs).0;
            && id in begun.callbacks && id in d.callbacks
            && (d.callbacks[id].output == Some(reply) <==> GoneOn(inputs, id) >= Sends(begun, id))
  {
    hide Responded, EntryDone, Sends, Valid, Completed;
    JustBegun(c, id, reply, now);
    DoneHas(Responded(c, id, reply, now).0, id);
    UnderWay(Responded(c, id, reply, now).0, inputs, id);
  }

  /** Given up at its first send, an answer is not recorded while the turn runs:
      each further one is refused, and changes nothing. */
  lemma AnswerGivenUp(c: Control, id: string, reply: Reply, now: int, inputs: seq<Input>, again: Reply, later: int)
    requires id in c.callbacks && c.active.Some? && c.projector.Some? && Valid(c.projector.value)
    requires (Callbacks, id) in c.projector.value.ids
             && c.projector.value.ids[(Callbacks, id)] == CallbackEntryId(id)
    requires Responded(c, id, reply, now).1.Begun?
    ensures var d := TakeAll(GivenUp(Responded(c, id, reply, now).0, id), inputs).0;
            && id in d.callbacks && d.callbacks[id].output.None?
            && Responded(d, id, again, later).0 == d
            && (Responded(d, id, again, later).1.ProjectionFailed? || Responded(d, id, again, later).1.Conflicting?)
  {
    hide Responded, Valid, Completed, TakeAll;
    JustBegun(c, id, reply, now);
    var d := GivenUp(Responded(c, id, reply, now).0, id);
    SpentStays(d, inputs, id);
    SpentRefuses(TakeAll(d, inputs).0, id, again, later);
  }

  /** When a later answer is refused: for a record without an answer, of the same
      kind, if and only if the projector that completed its entry is still there.
      Once it is gone, an answer is taken; with no active turn it is recorded at
      once, though its waiter is no longer told. */
  lemma LaterAnswerRefusedIff(c: Control, id: string, reply: Reply, now: int)
    requires id in c.callbacks && c.callbacks[id].output.None? && c.callbacks[id].answering.None?
    requires c.callbacks[id].approval == reply.approval
    requires c.projector.Some? ==>
               && Valid(c.projector.value)
               && ((Callbacks, id) in c.projector.value.ids ==> Completed(c.projector.value, id))
    ensures var (d, result) := Responded(c, id, reply, now);
            && (result.ProjectionFailed? <==> c.projector.Some? && (Callbacks, id) in c.projector.value.ids)
            && (result.Begun? <==> !result.ProjectionFailed?)
            && (result.ProjectionFailed? ==> d == c)
            && (result.Begun? && c.active.None? ==>
                  && id in d.callbacks && d.callbacks[id].output == Some(reply)
                  && (!c.callbacks[id].future.Waiting? ==> d.callbacks[id].future == c.callbacks[id].future))
  {
    hide Project, Completed, Valid;
    if c.projector.Some? {
      if (Callbacks, id) in c.projector.value.ids {
        CompletedRefuses(c.projector.value, id, reply.output, now);
      } else {
        UnknownIgnored(c.projector.value, id, reply.output, now);
      }
    }
  }

  /** A projector that has not opened the callback has nothing to resolve. */
  lemma UnknownIgnored(s: State, id: string, output: Json, now: int)
    requires (Callbacks, id) !in s.ids
    ensures Project(s, ResolveCallback(id, output), "", now) == Outcome(s, [], None)
  {
  }

  // ---- the class -----------------------------------------------------------

  class TurnController {
    const execution: SessionExecution
    var activeTurn: Option<Turn>
    var lastTurn: Option<Turn>
    var taskRunning: bool
    var projector: Option<State>
    var history: seq<Entry>
    var callbacks: map<string, Record>
    var sessionExecution: Option<Owner>
    /** Everything handed to the notifier. */
    var told: seq<Note>

    function Model(): Control
      reads this, execution
    {
      Control(activeTurn, lastTurn, taskRunning, projector, history, callbacks, sessionExecution, execution.active,
              told)
    }

    constructor (slot: SessionExecution)
      ensures execution == slot
      ensures Model() == Control(None, None, false, None, [], map[], None, slot.active, [])
    {
      execution := slot;
      activeTurn, lastTurn, taskRunning, projector := None, None, false, None;
      history, callbacks, sessionExecution, told := [], map[], None, [];
    }

    method Start(sessionId: string, turnId: string, preview: string) returns (conflict: Option<Conflict>)
      modifies this, execution
      ensures match Started(old(Model()), sessionId, turnId, preview)
              case Err(e) => conflict == Some(e) && Model() == old(Model())
              case Ok(c) => conflict == None && Model() == c
    {
      if taskRunning { return Some(TurnRunning); }
      var begun := execution.Begin(TurnRun, turnId);
      if begun.Err? { return Some(SlotTaken); }
      sessionExecution := Some(begun.value);
      activeTurn := Some(Turn(turnId, sessionId, TurnActive));
      lastTurn := None;
      projector := Some(Fresh(sessionId, Some(turnId), preview));
      taskRunning := true;
      return None;
    }

    method ProjectNow(a: Action, newId: string, now: int) returns (ok: bool)
      modifies this
      ensures (Model(), ok) == Projected(old(Model()), a, newId, now)
    {
      if projector.None? { return true; }
      var o := Project(projector.value, a, newId, now);
      projector := Some(o.state);
      told := told + Notes(o.updates);
      return o.error.None?;
    }

    /** An answer up to its first send. */
    method AnswerCallback(id: string, reply: Reply, now: int) returns (result: Answered)
      modifies this
      ensures (Model(), result) == Responded(old(Model()), id, reply, now)
    {
      if id !in callbacks { return NotFound; }
      var record := callbacks[id];
      if record.answering.Some? { return Locked; }
      if record.output.Some? { return if record.output.value == reply then Repeated else Conflicting; }
      if record.approval != reply.approval { return Conflicting; }
      var notes: seq<Note> := [];
      if projector.Some? {
        var o := Project(projector.value, ResolveCallback(id, reply.output), "", now);
        projector := Some(o.state);
        if o.error.Some? { return ProjectionFailed; }
        notes := Notes(o.updates);
      }
      callbacks := callbacks[id := record.(answering := Some(Answering(reply, notes, false)))];
      AnswerProceeds(id);
      return Begun;
    }

    /** From one send of an answer to the next, or to its record. */
    method AnswerProceeds(id: string)
      modifies this
      ensures Model() == Proceed(old(Model()), id)
    {
      if id !in callbacks || callbacks[id].answering.None? { return; }
      var record, answering := callbacks[id], callbacks[id].answering.value;
      if answering.left != [] {
        told := told + [answering.left[0]];
        callbacks := callbacks[id := record.(answering := Some(answering.(left := answering.left[1..])))];
      } else if !answering.statusSent && activeTurn.Some? {
        told := told + [Note.SessionUpdated(activeTurn.value.sessionId)];
        callbacks := callbacks[id := record.(answering := Some(answering.(statusSent := true)))];
      } else {
        record := record.(output := Some(answering.reply), answering := None);
        if record.future.Waiting? { record := record.(future := Resolved(answering.reply)); }
        callbacks := callbacks[id := record];
      }
    }

    /** The answering request is cancelled; the lock is released. */
    method AnswerAborts(id: string)
      modifies this
      ensures Model() == GivenUp(old(Model()), id)
    {
      if id in callbacks { callbacks := callbacks[id := callbacks[id].(answering := None)]; }
    }

    method RejectCallback(id: string)
      modifies this
      ensures Model() == RejectOne(old(Model()), id)
    {
      if id !in callbacks { return; }
      callbacks := callbacks[id := Reject(callbacks[id])];
    }

    /** Every record, in some order. */
    method CancelCallbacks()
      modifies this
      ensures Model() == old(Model()).(callbacks := CancelAll(old(callbacks)))
    {
      ghost var before := callbacks;
      var left := callbacks.Keys;
      while left != {}
        invariant Model() == old(Model()).(callbacks := callbacks)
        invariant callbacks.Keys == before.Keys && left <= before.Keys
        invariant forall k :: k in before ==> callbacks[k] == if k in left then before[k] else Reject(before[k])
        decreases |left|
      {
        var id :| id in left;
        callbacks := callbacks[id := Reject(callbacks[id])];
        left := left - {id};
      }
      assert callbacks == CancelAll(before);
    }

    /** What another task does between two stretches. */
    method OtherTask(o: Other)
      modifies this
      ensures Model() == Does(old(Model()), o)
    {
      hide Projected, Responded, Proceed;
      match o {
        case Side(a, newId, now) => var _ := ProjectNow(a, newId, now);
        case Respond(id, reply, now) => var _ := AnswerCallback(id, reply, now);
        case GoOn(id) => AnswerProceeds(id);
        case GiveUp(id) => AnswerAborts(id);
        case Refuse(id) => RejectCallback(id);
      }
    }

    method OtherTasks(others: seq<Other>)
      modifies this
      ensures Model() == Meanwhile(old(Model()), others)
    {
      hide Does;
      assert others[0..] == others;
      for i := 0 to |others|
        invariant Meanwhile(old(Model()), others) == Meanwhile(Model(), others[i..])
      {
        assert others[i..][0] == others[i] && others[i..][1..] == others[i + 1..];
        OtherTask(others[i]);
      }
      assert others[|others|..] == [];
    }

    method HandleInput(input: Input) returns (goesOn: bool)
      modifies this
      ensures (Model(), goesOn) == Take(old(Model()), input)
    {
      hide Project, Projected, Does, Rebind, RebindLive, EffectKnown;
      match input {
        case Core(a, newId, now) => goesOn := ProjectNow(a, newId, now);
        case Ask(id, approval, title, detail, related, newId, now) =>
          if projector.None? || activeTurn.None? || id in callbacks
             || (approval && !EffectKnown(projector.value, related)) {
            RejectCallback(id);
            return false;
          }
          callbacks := callbacks[id := Record(approval, Waiting, None, false, None)];
          goesOn := ProjectNow(OpenCallback(id, title, detail, related), newId, now);
          if !goesOn { RejectCallback(id); }
        case Resume(id) =>
          if id !in callbacks || callbacks[id].future.Waiting? { return true; }
          if callbacks[id].future.Rejected? { return false; }
          callbacks := callbacks[id := callbacks[id].(coreResolved := true)];
          return true;
        case Move(sessionId) =>
          history := Rebind(history, sessionId);
          if projector.Some? { projector := Some(RebindLive(projector.value, sessionId)); }
          activeTurn := RebindTurn(activeTurn, sessionId);
          return true;
        case Elsewhere(o) => OtherTask(o); return true;
      }
    }

    /** Hands over notes one by one; other tasks run, and the turn may be
        cancelled, at each. */
    method Send(notes: seq<Note>, ps: seq<Pause>) returns (cut: bool)
      modifies this
      ensures (Model(), cut) == Sent(old(Model()), notes, ps)
    {
      hide Meanwhile;
      cut := false;
      var i, left := 0, ps;
      assert notes[0..] == notes;
      while !cut && i < |notes|
        invariant 0 <= i <= |notes|
        invariant Sent(old(Model()), notes, ps) == if cut then (Model(), true) else Sent(Model(), notes[i..], left)
      {
        assert notes[i..][0] == notes[i] && notes[i..][1..] == notes[i + 1..];
        told := told + [notes[i]];
        OtherTasks(At(left, 0).others);
        cut := At(left, 0).cancelled;
        left := From(left, 1);
        i := i + 1;
      }
      if !cut { assert notes[|notes|..] == []; }
    }

    /** The turn waits to run, then sends what comes before its guarded part. */
    method Announce(turn: Turn, ps: seq<Pause>) returns (cut: bool)
      requires activeTurn == Some(turn)
      modifies this
      ensures (Model(), cut) == Announced(old(Model()), ps)
    {
      hide Sent, Meanwhile;
      OtherTasks(At(ps, 0).others);
      if At(ps, 0).cancelled { return true; }
      cut := Send([TurnStarted(turn.sessionId, turn), Note.SessionUpdated(turn.sessionId),
                   StatsUpdated(turn.sessionId)], From(ps, 1));
    }

    /** Closes every entry in progress; the notes are still to be sent. */
    method CloseEntries(status: TurnStatus, now: int) returns (notes: seq<Note>)
      modifies this
      ensures (Model(), notes) == ClosedUp(old(Model()), status, now)
    {
      hide Project;
      if projector.None? { return []; }
      var o := Project(projector.value, Finalize(status.TurnInterrupted?), "", now);
      projector := Some(o.state);
      return Notes(o.updates);
    }

    method SettleTurn(completed: Turn)
      modifies this
      ensures Model() == Settled(old(Model()), completed)
    {
      hide CancelAll;
      if projector.Some? { history := history + projector.value.history; }
      CancelCallbacks();
      lastTurn := Some(completed);
    }

    method FinalizeTurn(turn: Turn, owner: Owner, status: TurnStatus, now: int, ps: seq<Pause>) returns (cut: bool)
      modifies this, execution
      ensures (Model(), cut) == Finalized(old(Model()), turn, owner, status, now, ps)
    {
      hide ClosedUp, Settled, Sent, Leaving;
      var completed := turn.(status := status);
      var notes := CloseEntries(status, now);
      cut := Send(notes, ps);
      if cut { return; }
      SettleTurn(completed);
      cut := Send([StatsUpdated(turn.sessionId)], From(ps, |notes|));
      if cut { return; }
      cut := LeaveTurn(turn.sessionId, completed, owner, ps, |notes| + 1);
    }

    method LeaveTurn(sessionId: string, completed: Turn, owner: Owner, ps: seq<Pause>, i: nat) returns (cut: bool)
      modifies this, execution
      ensures (Model(), cut) == Leaving(old(Model()), sessionId, completed, owner, ps, i)
    {
      hide Sent;
      activeTurn, projector, sessionExecution := None, None, None;
      cut := Send([Note.SessionUpdated(sessionId)], From(ps, i));
      if cut { return; }
      execution.Finish(owner);
      cut := Send([TurnCompleted(sessionId, completed)], From(ps, i + 1));
    }

    /** The guarded part of a turn's task, and what follows it in any case. */
    method RunGuarded(inputs: seq<Input>, ending: Ending, now: int, ps: seq<Pause>)
      requires activeTurn.Some?
      modifies this, execution
      ensures Model() == Ran(old(Model()), inputs, ending, now, ps)
    {
      hide Take, Finalized;
      var turn := activeTurn.value;
      var owner := Owning(turn.id);
      var goesOn, i := true, 0;
      assert inputs[0..] == inputs;
      while goesOn && i < |inputs|
        invariant 0 <= i <= |inputs| && execution.active == old(execution.active)
        invariant TakeAll(old(Model()), inputs) == if goesOn then TakeAll(Model(), inputs[i..]) else (Model(), false)
      {
        assert inputs[i..][0] == inputs[i] && inputs[i..][1..] == inputs[i + 1..];
        goesOn := HandleInput(inputs[i]);
        i := i + 1;
      }
      if goesOn { assert inputs[|inputs|..] == []; }
      var status := StatusAt(goesOn, ending);
      var _ := FinalizeTurn(if activeTurn.Some? then activeTurn.value else turn, owner, status, now, ps);
      sessionExecution := None;
      execution.Finish(owner);
      taskRunning := false;
    }

    method RunTurn(f: Fate)
      requires activeTurn.Some?
      modifies this, execution
      ensures Model() == TaskDone(old(Model()), f)
    {
      hide Announced, Ran;
      var cut := Announce(activeTurn.value, f.before);
      if cut || activeTurn.None? {
        taskRunning := false;
      } else {
        RunGuarded(f.inputs, f.ending, f.now, f.after);
      }
    }
  }
}
