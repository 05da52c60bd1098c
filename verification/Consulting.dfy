/** How a turn gets under way, moves to another session, asks its user and takes the
    answer. */
module Consulting {
  import opened Prelude
  import opened Json
  import opened Entries
  import opened Projection
  import opened ProjectorFacts
  import opened Client
  import opened Session
  import opened Turns
  import opened TurnEnds
  import opened Verdicts
  import Actions

  // ---- whose entries they are ----------------------------------------------

  /** The same entries, of this session. */
  predicate SameBut(h: seq<Entry>, h': seq<Entry>, sessionId: string) {
    |h'| == |h| && forall i :: 0 <= i < |h| ==> h'[i] == h[i].(sessionId := sessionId)
  }

  /** A new session id reaches the settled entries, the turn's and the turn, and
      nothing else. */
  lemma MoveIs(c: Control, sessionId: string)
    requires c.projector.Some? ==> Valid(c.projector.value)
    ensures var (d, goesOn) := Take(c, Move(sessionId));
            && goesOn && d == c.(history := d.history, projector := d.projector, active := d.active)
            && SameBut(c.history, d.history, sessionId)
            && (d.active == match c.active case None => None
                                           case Some(t) => Some(Turn(t.id, sessionId, t.status)))
            && (c.projector.None? <==> d.projector.None?)
            && (c.projector.Some? ==>
                  var s, t := c.projector.value, d.projector.value;
                  && SameBut(s.history, t.history, sessionId) && t.sessionId == sessionId && Valid(t)
                  && t == s.(sessionId := sessionId, history := t.history, entries := t.entries))
  {
    hide Valid, Index;
    if c.projector.Some? { RebindKeepsValid(c.projector.value, sessionId); }
  }

  /** The session a turn is in when it has taken these inputs. */
  function SessionAfter(c: Control, inputs: seq<Input>, sessionId: string): string
    decreases |inputs|
  {
    if inputs == [] then sessionId
    else
      var (d, goesOn) := Take(c, inputs[0]);
      var now := if inputs[0].Move? then inputs[0].sessionId else sessionId;
      if goesOn then SessionAfter(d, inputs[1..], now) else now
  }

  /** The turn at work, and its projector, are of this session. */
  ghost predicate InSession(c: Control, turnId: string, sessionId: string) {
    && c.active == Some(Turn(turnId, sessionId, TurnActive)) && c.projector.Some?
    && c.projector.value.sessionId == sessionId && c.projector.value.turnId == Some(turnId)
  }

  lemma ProjectedAt(c: Control, turnId: string, sessionId: string, a: Action, newId: string, now: int)
    requires InSession(c, turnId, sessionId) && Valid(c.projector.value)
    ensures InSession(Projected(c, a, newId, now).0, turnId, sessionId)
  {
    hide Project, Valid;
    ProjectKeepsValid(c.projector.value, a, newId, now);
  }

  lemma DoesAt(c: Control, turnId: string, sessionId: string, o: Other)
    requires InSession(c, turnId, sessionId) && Valid(c.projector.value)
    ensures InSession(Does(c, o), turnId, sessionId)
  {
    hide Project, Projected, Valid;
    if o.Side? { ProjectedAt(c, turnId, sessionId, o.action, o.newId, o.now); }
    if o.Respond? { ProjectKeepsValid(c.projector.value, ResolveCallback(o.id, o.reply.output), "", o.now); }
  }

  lemma TakeAt(c: Control, turnId: string, sessionId: string, input: Input)
    requires InSession(c, turnId, sessionId) && Valid(c.projector.value)
    ensures InSession(Take(c, input).0, turnId, if input.Move? then input.sessionId else sessionId)
  {
    hide Project, Projected, Does, Valid, EffectKnown;
    match input {
      case Core(a, newId, now) => ProjectedAt(c, turnId, sessionId, a, newId, now);
      case Ask(id, approval, title, detail, related, newId, now) =>
        if !CannotAsk(c, id, approval, related) {
          var c1 := c.(callbacks := c.callbacks[id := Record(approval, Waiting, None, false, None)]);
          ProjectedAt(c1, turnId, sessionId, OpenCallback(id, title, detail, related), newId, now);
        }
      case Elsewhere(o) => DoesAt(c, turnId, sessionId, o);
      case Move(to) => MoveIs(c, to);
      case Resume(_) =>
    }
  }

  lemma {:induction false} TakeAllAt(c: Control, turnId: string, sessionId: string, inputs: seq<Input>)
    requires InSession(c, turnId, sessionId) && Held(c, turnId)
    ensures InSession(TakeAll(c, inputs).0, turnId, SessionAfter(c, inputs, sessionId))
    decreases |inputs|
  {
    hide InSession, Take, Held;
    HeldIs(c, turnId);
    if inputs != [] {
      var now := if inputs[0].Move? then inputs[0].sessionId else sessionId;
      TakeAt(c, turnId, sessionId, inputs[0]);
      TakeHeld(c, turnId, inputs[0]);
      if Take(c, inputs[0]).1 { TakeAllAt(Take(c, inputs[0]).0, turnId, now, inputs[1..]); }
    }
  }

  /** Main result: a turn starts if and only if no task is at work and the slot is
      free; from then on, whatever it takes, it is under its own id in the session
      it last moved to, and so is every entry of its projector. */
  lemma TurnOwnsEntries(c: Control, sessionId: string, turnId: string, preview: string, inputs: seq<Input>)
    requires forall k :: k in c.callbacks ==> RecordOk(c.callbacks[k])
    ensures var r := Started(c, sessionId, turnId, preview);
            && (r.Ok? <==> !c.running && c.slot.None?)
            && (r.Err? ==> r.error == if c.running then TurnRunning else SlotTaken)
            && (r.Ok? ==>
                  var d, s := TakeAll(r.value, inputs).0, SessionAfter(r.value, inputs, sessionId);
                  && r.value.projector.Some? && r.value.projector.value.history == []
                  && r.value.projector.value.preview == preview && r.value.running && r.value.last == None
                  && r.value.history == c.history && r.value.told == c.told && r.value.callbacks == c.callbacks
                  && d.active == Some(Turn(turnId, s, TurnActive)) && d.projector.Some?
                  && forall i :: 0 <= i < |d.projector.value.history| ==>
                       d.projector.value.history[i].turnId == Some(turnId)
                       && d.projector.value.history[i].sessionId == s)
  {
    hide TakeAll, Take, Held;
    var r := Started(c, sessionId, turnId, preview);
    if r.Ok? {
      StartHolds(c, sessionId, turnId, preview);
      assert InSession(r.value, turnId, sessionId);
      TakeAllAt(r.value, turnId, sessionId, inputs);
      TakeAllHeld(r.value, turnId, inputs);
      var d := TakeAll(r.value, inputs).0;
      HeldIs(d, turnId);
      forall i | 0 <= i < |d.projector.value.history|
        ensures EntryOk(d.projector.value.history[i], d.projector.value.sessionId, Some(turnId))
      {
        OwnedIn(d.projector.value, i);
      }
    }
  }

  // ---- asking --------------------------------------------------------------

  /** Nobody waits for the record, and the core is done with it. */
  predicate Over(m: map<string, Record>, id: string) { id in m ==> m[id].coreResolved && !m[id].future.Waiting? }

  /** What asking leaves: going on, a record that waits for an answer of its kind
      and the callback's entry, open, behind the others; otherwise nobody waits. */
  lemma AskIs(c: Control, turnId: string, id: string, approval: bool, title: string, detail: Json,
              related: Option<string>, newId: string, now: int)
    requires Held(c, turnId)
    ensures var input := Input.Ask(id, approval, title, detail, related, newId, now);
            var (d, goesOn) := Take(c, input);
            && (goesOn <==> !Stops(c, input))
            && (forall k :: k != id ==> (k in d.callbacks <==> k in c.callbacks))
            && (forall k :: k != id && k in c.callbacks ==> d.callbacks[k] == c.callbacks[k])
            && (!goesOn ==> Over(d.callbacks, id))
            && (goesOn ==>
                  && id !in c.callbacks && id in d.callbacks
                  && d.callbacks[id] == Record(approval, Waiting, None, false, None)
                  && c.projector.Some? && d.projector.Some?
                  && |d.projector.value.history| == |c.projector.value.history| + 1
                  && var e := d.projector.value.history[|c.projector.value.history|];
                     e.id == "callback:" + id && e.status.InProgress? && e.related == related
                     && e.body == Callback(id, title, detail, Open))
  {
    hide Project, EffectKnown, Valid;
    var input := Input.Ask(id, approval, title, detail, related, newId, now);
    GoesOnIff(c, input);
    HeldIs(c, turnId);
    if Take(c, input).1 {
      OpensLast(c.projector.value, id, title, detail, related, newId, now);
    } else {
      assert id in c.callbacks ==> RecordOk(c.callbacks[id]);
    }
  }

  lemma OpensLast(s: State, id: string, title: string, detail: Json, related: Option<string>, newId: string, now: int)
    requires Valid(s) && Project(s, OpenCallback(id, title, detail, related), newId, now).error.None?
    ensures var h' := Project(s, OpenCallback(id, title, detail, related), newId, now).state.history;
            && |h'| == |s.history| + 1
            && var e := h'[|s.history|];
               e.id == "callback:" + id && e.status.InProgress? && e.related == related
               && e.body == Callback(id, title, detail, Open)
  {
    hide Project, Valid;
    Actions.OpenIs(s, id, title, detail, related, newId, now);
    ByIdIs(s.history) by { IndexOfValid(s); }
    var e := "callback:" + id;
    forall i | 0 <= i < |s.history| ensures s.history[i].id != e {
      assert s.history[i].id in s.entries by { KnownEntry(s, i); }
    }
  }

  lemma IndexOfValid(s: State)
    requires Valid(s)
    ensures s.entries == ById(s.history) && UniqueIds(s.history)
  {
  }

  lemma KnownEntry(s: State, i: nat)
    requires Valid(s) && i < |s.history|
    ensures s.history[i].id in s.entries
  {
    ByIdAt(s.history, i);
  }

  // ---- answering -----------------------------------------------------------

  /** An answer, under way or recorded, is of the kind that was asked for. */
  predicate Fits(r: Record) {
    && (r.output.Some? ==> r.output.value.approval == r.approval)
    && (r.future.Resolved? ==> r.future.reply.approval == r.approval)
    && (r.answering.Some? ==> r.answering.value.reply.approval == r.approval)
  }

  predicate RightKind(m: map<string, Record>) {
    forall id :: id in m ==> Fits(m[id])
  }

  /** One record at a time. */
  lemma OneKind(m: map<string, Record>, id: string, r: Record)
    requires RightKind(m) && Fits(r)
    ensures RightKind(m[id := r])
  {
    hide Fits;
  }

  lemma ProceedKind(c: Control, id: string)
    requires RightKind(c.callbacks)
    ensures RightKind(Proceed(c, id).callbacks)
  {
    hide RightKind, Fits;
    if id in c.callbacks && c.callbacks[id].answering.Some? {
      KindOf(c.callbacks, id);
      var r, a := c.callbacks[id], c.callbacks[id].answering.value;
      Stronger(r);
      assert Fits(Proceed(c, id).callbacks[id]);
      OneKind(c.callbacks, id, Proceed(c, id).callbacks[id]);
    }
  }

  /** An answer that goes on, or is recorded. */
  lemma Stronger(r: Record)
    requires Fits(r) && r.answering.Some?
    ensures Fits(Recorded(r, r.answering.value.reply))
    ensures forall a: Answering :: a.reply == r.answering.value.reply ==> Fits(r.(answering := Some(a)))
  {
  }

  lemma BeginKind(c: Control, id: string, reply: Reply, now: int)
    requires RightKind(c.callbacks)
    ensures RightKind(BeginAnswer(c, id, reply, now).0.callbacks)
  {
    hide Resolving, RightKind;
    ProjectsOnly(c, Respond(id, reply, now));
    var (d, result) := BeginAnswer(c, id, reply, now);
    if result.Begun? {
      assert Fits(c.callbacks[id]) by { KindOf(c.callbacks, id); }
      OneKind(c.callbacks, id, d.callbacks[id]);
    }
  }

  lemma KindOf(m: map<string, Record>, id: string)
    requires RightKind(m) && id in m
    ensures Fits(m[id])
  {
  }

  lemma DoesKind(c: Control, o: Other)
    requires RightKind(c.callbacks)
    ensures RightKind(Does(c, o).callbacks)
  {
    hide Projected, Resolving, RightKind, BeginAnswer, Proceed, Fits;
    ProjectsOnly(c, o);
    match o {
      case Side(_, _, _) =>
      case Respond(id, reply, now) =>
        BeginKind(c, id, reply, now);
        ProceedKind(BeginAnswer(c, id, reply, now).0, id);
      case GoOn(id) => ProceedKind(c, id);
      case GiveUp(id) =>
        if id in c.callbacks {
          KindOf(c.callbacks, id);
          assert Fits(c.callbacks[id].(answering := None)) by { Weaker(c.callbacks[id]); }
          OneKind(c.callbacks, id, c.callbacks[id].(answering := None));
        }
      case Refuse(id) =>
        if id in c.callbacks {
          KindOf(c.callbacks, id);
          assert Fits(Reject(c.callbacks[id])) by { Weaker(c.callbacks[id]); }
          OneKind(c.callbacks, id, Reject(c.callbacks[id]));
        }
    }
  }

  /** Giving up and rejecting add no answer. */
  lemma Weaker(r: Record)
    requires Fits(r)
    ensures Fits(r.(answering := None)) && Fits(Reject(r))
  {
  }

  lemma TakeKind(c: Control, input: Input)
    requires RightKind(c.callbacks)
    ensures RightKind(Take(c, input).0.callbacks)
  {
    hide Project, Rebind, RebindLive, EffectKnown, Does;
    if input.Elsewhere? { DoesKind(c, input.other); }
  }

  /** Over any run no approval is answered like a question, nor a question like an
      approval. */
  lemma {:induction false} AnswersFit(c: Control, inputs: seq<Input>)
    requires RightKind(c.callbacks)
    ensures RightKind(TakeAll(c, inputs).0.callbacks)
    decreases |inputs|
  {
    hide Take, RightKind;
    if inputs != [] {
      TakeKind(c, inputs[0]);
      if Take(c, inputs[0]).1 { AnswersFit(Take(c, inputs[0]).0, inputs[1..]); }
    }
  }

  /** Rejecting, one callback or all at the end of a turn: the core is done with it
      and whoever waits is turned away; an answer that has come, or is under way,
      stays. */
  predicate TurnedAway(r: Record, r': Record) {
    if r.coreResolved then r' == r
    else r' == r.(coreResolved := true, future := r'.future)
         && r'.future == (if r.future.Waiting? then Rejected else r.future)
  }

  lemma RejectingIs(c: Control, id: string, over: Turn)
    ensures var d := RejectOne(c, id);
            && d == c.(callbacks := d.callbacks)
            && (forall k :: k in d.callbacks <==> k in c.callbacks)
            && (forall k :: k in c.callbacks ==>
                  if k == id then TurnedAway(c.callbacks[k], d.callbacks[k]) else d.callbacks[k] == c.callbacks[k])
    ensures var d := Settled(c, over);
            && d == c.(history := d.history, callbacks := d.callbacks, last := Some(over))
            && d.history == (if c.projector.Some? then c.history + c.projector.value.history else c.history)
            && (forall k :: k in d.callbacks <==> k in c.callbacks)
            && (forall k :: k in c.callbacks ==> TurnedAway(c.callbacks[k], d.callbacks[k]))
  {
  }

  /** What becomes of an answer, by the record alone, and then by the projector. */
  lemma AnswerIs(c: Control, id: string, reply: Reply, now: int)
    ensures var (d, result) := Responded(c, id, reply, now);
            var known := id in c.callbacks;
            var free := known && c.callbacks[id].answering.None?;
            var open := free && c.callbacks[id].output.None?;
            var fits := open && c.callbacks[id].approval == reply.approval;
            var taken := fits && (c.projector.None? || Project(c.projector.value, ResolveCallback(id, reply.output), "",
                                                              now).error.None?);
            && (result.NotFound? <==> !known)
            && (result.Locked? <==> known && !free)
            && (result.Repeated? <==> free && c.callbacks[id].output == Some(reply))
            && (result.Conflicting? <==> free && c.callbacks[id].output != Some(reply) && !fits)
            && (result.ProjectionFailed? <==> fits && !taken)
            && (result.Begun? <==> taken)
            && (!fits ==> d == c)
            && (fits && !taken ==>
                  d == c.(projector := Some(Project(c.projector.value, ResolveCallback(id, reply.output), "",
                                                    now).state)))
  {
    hide Project;
  }

  /** An answer with all its sends done one after the other. */
  function GoneThrough(c: Control, id: string, n: nat): Control
    decreases n
  {
    if n == 0 then c else GoneThrough(Proceed(c, id), id, n - 1)
  }

  /** The notes an answer under way still has to send. */
  function Owed(c: Control, id: string): seq<Note>
    requires id in c.callbacks && c.callbacks[id].answering.Some?
  {
    var a := c.callbacks[id].answering.value;
    a.left + if !a.statusSent && c.active.Some? then [Note.SessionUpdated(c.active.value.sessionId)] else []
  }

  /** An answer at a send of its own, and at its last. */
  lemma ProceedSends(c: Control, id: string)
    requires id in c.callbacks && c.callbacks[id].answering.Some?
    ensures var d, r := Proceed(c, id), c.callbacks[id];
            && id in d.callbacks && d == c.(told := d.told, callbacks := c.callbacks[id := d.callbacks[id]])
            && if Owed(c, id) == [] then d.told == c.told && d.callbacks[id] == Recorded(r, r.answering.value.reply)
               else
                 && d.told == c.told + [Owed(c, id)[0]] && d.callbacks[id].answering.Some?
                 && d.callbacks[id] == r.(answering := d.callbacks[id].answering)
                 && d.callbacks[id].answering.value.reply == r.answering.value.reply
                 && Owed(d, id) == Owed(c, id)[1..]
  {
  }

  lemma {:induction false} AllSent(c: Control, id: string)
    requires id in c.callbacks && c.callbacks[id].answering.Some?
    ensures var d, r := GoneThrough(c, id, |Owed(c, id)| + 1), c.callbacks[id];
            && d.told == c.told + Owed(c, id) && id in d.callbacks
            && d == c.(told := d.told, callbacks := c.callbacks[id := d.callbacks[id]])
            && d.callbacks[id] == Recorded(r.(answering := None), r.answering.value.reply)
    decreases |Owed(c, id)|
  {
    hide Proceed, Owed;
    var c1, owed := Proceed(c, id), Owed(c, id);
    ProceedSends(c, id);
    if owed == [] {
      assert GoneThrough(c, id, 1) == GoneThrough(c1, id, 0);
      assert c.told + [] == c.told;
    } else {
      AllSent(c1, id);
      var d := GoneThrough(c, id, |owed| + 1);
      assert d == GoneThrough(c1, id, |owed[1..]| + 1);
      assert c.told + [owed[0]] + owed[1..] == c.told + owed;
      assert c1.callbacks[id := d.callbacks[id]] == c.callbacks[id := d.callbacks[id]];
    }
  }

  /** Main result: an answer that goes through tells its notes in order, then the
      status of the session while a turn is active; its record has it, whoever
      waits is released with it, and the turn goes on if and only if the callback
      was not rejected before. */
  lemma AnswerGoesThrough(c: Control, id: string)
    requires id in c.callbacks && c.callbacks[id].answering.Some?
    ensures var d, r, reply := GoneThrough(c, id, |Owed(c, id)| + 1), c.callbacks[id],
                               c.callbacks[id].answering.value.reply;
            && d.told == c.told + Owed(c, id) && id in d.callbacks
            && d == c.(told := d.told, callbacks := c.callbacks[id := d.callbacks[id]])
            && d.callbacks[id].output == Some(reply) && d.callbacks[id].answering.None?
            && d.callbacks[id].future == (if r.future.Waiting? then Resolved(reply) else r.future)
            && (Take(d, Resume(id)).1 <==> !r.future.Rejected?)
            && (r.future.Waiting? ==>
                  id in Take(d, Resume(id)).0.callbacks && Take(d, Resume(id)).0.callbacks[id].coreResolved)
  {
    hide GoneThrough, Owed;
    AllSent(c, id);
  }
}
