/** What other tasks may project while the end of a turn is told: user messages,
    calls and results of steering, linking of children.  Which calls are still
    open when the turn's entries are settled. */
module Steering {
  import opened Prelude
  import opened Json
  import opened Entries
  import opened Changes
  import opened Projection
  import opened ProjectorFacts
  import opened ProjectorRuns
  import opened Finalizing
  import opened Client
  import opened Turns

  // ---- one action ----------------------------------------------------------

  /** Everything but streamed text, compactions, new callbacks, effects without a
      call, and results or calls without their presentation. */
  predicate Late(a: Action) {
    && !a.AssistantText? && !a.ReasoningText? && !a.StartEffect? && !a.CompactStart? && !a.CompactEnd?
    && !a.OpenCallback?
    && (a.ToolCall? ==> a.presented.Some?)
    && (a.ToolResult? ==> !a.outcome.ToolUnpresented?)
  }

  /** The calls open after an action. */
  function Opened(open: set<string>, a: Action): set<string> {
    match a
    case ToolCall(callId, _, _) => open + {callId}
    case ToolResult(callId, _, _, _) => open - {callId}
    case CompleteEffect(callId, _) => open - {callId}
    case Finalize(_) => {}
    case _ => open
  }

  /** The entries in progress are the effects of these calls. */
  ghost predicate OpenAre(s: State, open: set<string>) {
    && Valid(s)
    && (forall id :: id in open ==>
          id in s.entries && s.entries[id].body.Effect? && (Effects, id) in s.ids && s.ids[(Effects, id)] == id)
    && (forall id :: id in s.entries ==> (s.entries[id].status.InProgress? <==> id in open))
    && (forall k :: k in s.ids && s.ids[k] in open ==> k == (Effects, s.ids[k]))
  }

  /** An id the projector has not seen. */
  predicate New(s: State, callId: string) {
    callId !in s.entries && (Effects, callId) !in s.ids && callId !in s.ids.Values
  }

  lemma OpenIs(s: State, open: set<string>)
    requires OpenAre(s, open)
    ensures Valid(s)
    ensures forall id :: id in s.entries && id !in open ==> s.entries[id].status.Complete?
  {
  }

  lemma OpenComplete(s: State, open: set<string>)
    requires OpenAre(s, open)
    ensures AllComplete(s.history) <==> open == {}
    ensures forall id :: id in open ==> exists i :: 0 <= i < |s.history| && s.history[i].id == id
                                                && s.history[i].status.InProgress?
  {
    ByIdIs(s.history);
    forall id | id in open
      ensures exists i :: 0 <= i < |s.history| && s.history[i].id == id && s.history[i].status.InProgress?
    {
      assert s.history[IndexOf(s.history, id)] == s.entries[id];
    }
    forall i | 0 <= i < |s.history| ensures s.history[i].status.InProgress? ==> s.history[i].id in open {
      ByIdAt(s.history, i);
    }
    if open != {} { var id :| id in open; }
  }

  lemma CompleteOpen(s: State)
    requires Valid(s) && AllComplete(s.history)
    ensures OpenAre(s, {})
  {
    ByIdIs(s.history);
  }

  lemma EffectStays(e: Entry, c: Change, now: int)
    requires e.body.Effect? && Changed(e, c, now).Some?
    ensures Changed(e, c, now).value.body.Effect? && Changed(e, c, now).value.id == e.id
    ensures Changed(e, c, now).value.status == if Completes(c) then Complete else e.status
  {
  }

  /** A patch reaches open entries only, and closes one if it completes it. */
  lemma PatchOpen(s: State, open: set<string>, id: string, c: Change, now: int)
    requires OpenAre(s, open)
    ensures var o := Step(s, Patch(id, c, now));
            && (id !in open ==> o.error.Some? && o.state == s)
            && (o.error.Some? ==> o.state == s)
            && (o.error.None? ==> OpenAre(o.state, if Completes(c) then open - {id} else open))
            && (o.error.None? && !Completes(c) ==> OpenAre(o.state, open))
  {
    hide Step, Changed, Valid;
    PatchStep(s, id, c, now) by { OpenIs(s, open); }
    PatchKeepsValid(s, id, c, now) by { OpenIs(s, open); }
    if id in open && Changed(s.entries[id], c, now).Some? {
      EffectStays(s.entries[id], c, now);
    }
  }

  lemma CreateOpen(s: State, open: set<string>, e: Entry)
    requires OpenAre(s, open) && EntryOk(e, s.sessionId, s.turnId) && e.status.Complete?
    ensures OpenAre(Step(s, Create(e)).state, open)
  {
    hide Valid, EntryOk;
    OtherKeepsValid(s, Create(e));
  }

  /** A list of one patch. */
  lemma OnePatch(s: State, open: set<string>, id: string, c: Change, now: int)
    requires OpenAre(s, open)
    ensures var o := Exec(s, [Patch(id, c, now)]);
            && (o.error.Some? ==> o.state == s)
            && (id !in open ==> o.state == s)
            && (o.error.None? ==> OpenAre(o.state, if Completes(c) then open - {id} else open))
  {
    hide Step, OpenAre;
    ExecOne(s, Patch(id, c, now));
    PatchOpen(s, open, id, c, now);
  }

  /** An open call's effect always takes its result. */
  lemma SettlesOpen(s: State, open: set<string>, id: string, state: EffectState, now: int)
    requires OpenAre(s, open) && id in open
    ensures Step(s, Patch(id, SettleEffect(state), now)).error.None?
  {
    hide Step, Changed, Valid;
    PatchStep(s, id, SettleEffect(state), now) by { OpenIs(s, open); }
    TakesState(s.entries[id], state, now);
  }

  lemma TakesState(e: Entry, state: EffectState, now: int)
    requires e.body.Effect?
    ensures Changed(e, SettleEffect(state), now).Some?
  {
  }

  lemma {:induction false} NothingStreams(s: State, open: set<string>, h: seq<Entry>, k: nat, now: int)
    requires OpenAre(s, open) && k <= |s.history| && h == s.history[k..]
    ensures FinishCmds(s, h, now) == []
    decreases |h|
  {
    hide Valid;
    if h != [] {
      NothingStreams(s, open, h[1..], k + 1, now);
      var e := h[0];
      assert e == s.history[k];
      InHistory(s, open, k);
    }
  }

  lemma InHistory(s: State, open: set<string>, k: nat)
    requires OpenAre(s, open) && k < |s.history|
    ensures s.history[k].id in s.entries && (s.history[k].status.InProgress? <==> s.history[k].id in open)
  {
    ByIdAt(s.history, k);
  }

  /** A call's id remembered, and its effect added. */
  lemma RememberOpen(s: State, open: set<string>, callId: string)
    requires OpenAre(s, open) && callId !in open
    ensures OpenAre(s.(ids := s.ids[(Effects, callId) := callId]), open)
  {
    hide ById;
  }

  lemma AddOpen(s: State, open: set<string>, e: Entry)
    requires OpenAre(s, open) && e.id !in s.entries && EntryOk(e, s.sessionId, s.turnId)
    requires e.body.Effect? && e.status.InProgress? && (Effects, e.id) in s.ids && s.ids[(Effects, e.id)] == e.id
    requires forall k :: k in s.ids && s.ids[k] == e.id ==> k == (Effects, e.id)
    ensures OpenAre(AddTo(s, e), open + {e.id})
  {
    hide Valid, EntryOk;
    AddKeepsValid(s, e) by { OpenIs(s, open); }
  }

  lemma CallCommands(s: State, open: set<string>, callId: string, title: string, detail: Json, newId: string, now: int)
    requires OpenAre(s, open) && New(s, callId)
    ensures var e := Fields(s, callId, InProgress, None, Effect(title, detail, Running("")), now);
            Commands(s, ToolCall(callId, title, Some(detail)), newId, now)
            == [Remember(Effects, callId, callId), Create(e)]
  {
    hide OpenAre;
    assert s.history[0..] == s.history;
    NothingStreams(s, open, s.history, 0, now);
  }

  lemma CallOpens(s: State, open: set<string>, callId: string, title: string, detail: Json, newId: string, now: int)
    requires OpenAre(s, open) && New(s, callId)
    ensures OpenAre(Project(s, ToolCall(callId, title, Some(detail)), newId, now).state, open + {callId})
  {
    hide Commands, Valid, OpenAre;
    var e := Fields(s, callId, InProgress, None, Effect(title, detail, Running("")), now);
    var cs := Commands(s, ToolCall(callId, title, Some(detail)), newId, now);
    CallCommands(s, open, callId, title, detail, newId, now);
    var s1 := s.(ids := s.ids[(Effects, callId) := callId]);
    NewNotOpen(s, open, callId);
    RememberOpen(s, open, callId);
    assert cs[1..] == [Create(e)];
    ExecOne(s1, Create(e));
    AddOpen(s1, open, e);
  }

  lemma NewNotOpen(s: State, open: set<string>, callId: string)
    requires OpenAre(s, open) && New(s, callId)
    ensures callId !in open
  {
  }

  /** A result of an open call closes it, one of a call never seen comes with its
      effect, and any other is refused. */
  lemma ResultCloses(s: State, open: set<string>, a: Action, newId: string, now: int)
    requires OpenAre(s, open) && a.ToolResult? && Late(a)
    ensures OpenAre(Project(s, a, newId, now).state, open - {a.callId})
  {
    hide Valid, Step, Changed;
    var cs := Commands(s, a, newId, now);
    if (Effects, a.callId) in s.ids {
      KnownResult(s, open, a, newId, now);
    } else {
      assert a.callId !in open && open - {a.callId} == open;
      UnknownResult(s, open, a, newId, now);
    }
  }

  lemma KnownResult(s: State, open: set<string>, a: Action, newId: string, now: int)
    requires OpenAre(s, open) && a.ToolResult? && Late(a) && (Effects, a.callId) in s.ids
    ensures OpenAre(Project(s, a, newId, now).state, open - {a.callId})
  {
    hide Valid, Step;
    var id, cs := s.ids[(Effects, a.callId)], Commands(s, a, newId, now);
    if id !in s.entries {
      assert cs[0] == Raise(MissingEntry);
      RaisesFirst(s, cs, MissingEntry);
      assert a.callId !in open && open - {a.callId} == open;
    } else {
      var state := OutcomeState(a.outcome, EntryOutput(s.entries[id])).value;
      assert [] + [Patch(id, SettleEffect(state), now)] == [Patch(id, SettleEffect(state), now)];
      assert cs == [Patch(id, SettleEffect(state), now)];
      OnePatch(s, open, id, SettleEffect(state), now);
      if id in open {
        assert id == a.callId;
        SettlesOpen(s, open, id, state, now);
        ExecOne(s, cs[0]);
      } else {
        assert a.callId !in open && open - {a.callId} == open;
      }
    }
  }

  lemma RaisesFirst(s: State, cs: seq<Cmd>, error: Error)
    requires cs != [] && cs[0] == Raise(error)
    ensures Exec(s, cs).state == s
  {
  }

  lemma UnknownResult(s: State, open: set<string>, a: Action, newId: string, now: int)
    requires OpenAre(s, open) && a.ToolResult? && Late(a) && (Effects, a.callId) !in s.ids && a.callId !in open
    ensures OpenAre(Project(s, a, newId, now).state, open)
  {
    hide Valid, Changed, PatchIn, OpenAre;
    var cs := Commands(s, a, newId, now);
    var e := Fields(s, a.callId, InProgress, None, Effect(a.title, a.generic, Running("")), now);
    var patch := Patch(a.callId, SettleEffect(OutcomeState(a.outcome, "").value), now);
    var s1 := s.(ids := s.ids[(Effects, a.callId) := a.callId]);
    assert cs == [Remember(Effects, a.callId, a.callId), Create(e), patch];
    RememberOpen(s, open, a.callId);
    OpenIs(s1, open);
    if a.callId in s.entries {
      ExecTwoRaises(s, cs[0], cs[1], [patch]);
    } else {
      var s2 := AddTo(s1, e);
      AddKeepsValid(s1, e);
      OpenedThenSettled(s1, s2, open, e, patch.change.state, now);
      ExecThree(s, cs[0], cs[1], patch, Step(s, cs[0]), Step(s1, cs[1]), Step(s2, patch));
    }
  }

  /** The second command fails. */
  lemma ExecTwoRaises(s: State, a: Cmd, b: Cmd, rest: seq<Cmd>)
    requires Step(s, a).error.None? && Step(Step(s, a).state, b).error.Some?
    ensures Exec(s, [a, b] + rest).state == Step(Step(s, a).state, b).state
  {
    hide Step;
    var cs := [a, b] + rest;
    assert cs[0] == a && cs[1..] == [b] + rest && ([b] + rest)[0] == b;
  }

  lemma OpenedThenSettled(s: State, t: State, open: set<string>, e: Entry, state: EffectState, now: int)
    requires OpenAre(s, open) && Valid(t) && t == AddTo(s, e) && e.id !in s.entries && e.id !in open
    requires e.body.Effect? && e.status.InProgress?
    ensures OpenAre(Step(t, Patch(e.id, SettleEffect(state), now)).state, open)
  {
    hide Step, Changed, Valid;
    PatchStep(t, e.id, SettleEffect(state), now);
    PatchKeepsValid(t, e.id, SettleEffect(state), now);
    TakesState(e, state, now);
    EffectStays(e, SettleEffect(state), now);
  }

  lemma CompletionCloses(s: State, open: set<string>, callId: string, state: EffectState, newId: string, now: int)
    requires OpenAre(s, open)
    ensures OpenAre(Project(s, CompleteEffect(callId, state), newId, now).state, open - {callId})
  {
    hide Valid, Step;
    var cs := Commands(s, CompleteEffect(callId, state), newId, now);
    if (Effects, callId) !in s.ids {
      RaisesFirst(s, cs, EffectNotFound);
      assert open - {callId} == open;
    } else {
      var id := s.ids[(Effects, callId)];
      OnePatch(s, open, id, SettleEffect(state), now);
      if id in open {
        SettlesOpen(s, open, id, state, now);
        ExecOne(s, cs[0]);
      } else {
        assert callId !in open && open - {callId} == open;
      }
    }
  }

  /** Preview and session patches leave the entries alone. */
  lemma {:induction false} RestOpens(s: State, open: set<string>, cs: seq<Cmd>)
    requires OpenAre(s, open) && forall i :: 0 <= i < |cs| ==> cs[i].SetPreview? || cs[i].PatchSession?
    ensures OpenAre(Exec(s, cs).state, open)
    decreases |cs|
  {
    hide ById;
    if cs != [] {
      assert cs[0].SetPreview? || cs[0].PatchSession?;
      forall i | 0 <= i < |cs[1..]| ensures cs[1..][i].SetPreview? || cs[1..][i].PatchSession? {
        assert cs[1..][i] == cs[i + 1];
      }
      RestOpens(Step(s, cs[0]).state, open, cs[1..]);
    }
  }

  lemma MessageOpens(s: State, open: set<string>, a: Action, newId: string, now: int)
    requires OpenAre(s, open) && (a.UserMessage? || a.NoticeShown? || a.TitleUpdated? || a.OtherEvent?)
    ensures OpenAre(Project(s, a, newId, now).state, open)
  {
    hide Valid, Step, OpenAre;
    var cs := Commands(s, a, newId, now);
    if cs != [] {
      CommandsOk(s, a, newId, now);
      assert CmdOk(s, cs[0]);
      CreateOpen(s, open, cs[0].entry);
      RestOpens(Step(s, cs[0]).state, open, cs[1..]);
    }
  }

  /** Streams and links patch an effect; answers find their callback closed. */
  lemma PatchesOpen(s: State, open: set<string>, a: Action, newId: string, now: int)
    requires OpenAre(s, open)
    requires a.ToolStream? || a.LinkSubagent? || a.ReplaceSubagent? || a.UnlinkSubagent?
    ensures OpenAre(Project(s, a, newId, now).state, open)
  {
    hide Valid, Step, OpenAre;
    var cs := Commands(s, a, newId, now);
    assert |cs| <= 1;
    if |cs| == 1 {
      assert cs == [cs[0]];
      if cs[0].Patch? {
        OnePatch(s, open, cs[0].id, cs[0].change, now);
      } else {
        RaisesFirst(s, cs, cs[0].error);
      }
    }
  }

  lemma AnswerRefused(s: State, open: set<string>, callbackId: string, output: Json, newId: string, now: int)
    requires OpenAre(s, open)
    ensures Project(s, ResolveCallback(callbackId, output), newId, now).state == s
  {
    hide Valid, Step;
    var cs := Commands(s, ResolveCallback(callbackId, output), newId, now);
    if (Callbacks, callbackId) in s.ids {
      var id := s.ids[(Callbacks, callbackId)];
      assert id !in open;
      PatchOpen(s, open, id, SettleCallback(Answered(output)), now);
      assert cs[0] == Patch(id, SettleCallback(Answered(output)), now);
    }
  }

  lemma FinalizeClosesAll(s: State, open: set<string>, cancelled: bool, newId: string, now: int)
    requires OpenAre(s, open)
    ensures OpenAre(Project(s, Finalize(cancelled), newId, now).state, {})
  {
    hide Project;
    FinalizeCompletes(s, cancelled, newId, now);
    ProjectKeepsValid(s, Finalize(cancelled), newId, now);
    CompleteOpen(Project(s, Finalize(cancelled), newId, now).state);
  }

  lemma LateOpens(s: State, open: set<string>, a: Action, newId: string, now: int)
    requires OpenAre(s, open) && Late(a) && (a.ToolCall? ==> New(s, a.callId))
    ensures OpenAre(Project(s, a, newId, now).state, Opened(open, a))
  {
    hide OpenAre, Project, New;
    match a {
      case ToolCall(callId, title, presented) => CallOpens(s, open, callId, title, presented.value, newId, now);
      case ToolResult(_, _, _, _) => ResultCloses(s, open, a, newId, now);
      case CompleteEffect(callId, state) => CompletionCloses(s, open, callId, state, newId, now);
      case Finalize(cancelled) => FinalizeClosesAll(s, open, cancelled, newId, now);
      case ResolveCallback(callbackId, output) => AnswerRefused(s, open, callbackId, output, newId, now);
      case UserMessage(_, _, _, _, _) => MessageOpens(s, open, a, newId, now);
      case NoticeShown(_, _) => MessageOpens(s, open, a, newId, now);
      case TitleUpdated(_, _) => MessageOpens(s, open, a, newId, now);
      case OtherEvent => MessageOpens(s, open, a, newId, now);
      case _ => PatchesOpen(s, open, a, newId, now);
    }
  }

  // ---- what other tasks do, in order ---------------------------------------

  predicate IsCall(o: Other) { o.Side? && o.action.ToolCall? }

  function CallOf(o: Other): string { if IsCall(o) then o.action.callId else "" }

  /** A result or completion of the call, or the closing of everything. */
  predicate Ends(o: Other, callId: string) {
    && o.Side?
    && (o.action.Finalize? || ((o.action.ToolResult? || o.action.CompleteEffect?) && o.action.callId == callId))
  }

  /** Every call has its result after it. */
  predicate AllEnded(others: seq<Other>) {
    forall i :: 0 <= i < |others| && IsCall(others[i]) ==> !Unanswered(others, i)
  }

  predicate Unanswered(others: seq<Other>, i: nat) {
    && i < |others| && IsCall(others[i])
    && forall j :: i < j < |others| ==> !Ends(others[j], CallOf(others[i]))
  }

  function OpenedBy(open: set<string>, o: Other): set<string> { if o.Side? then Opened(open, o.action) else open }

  function OpenAfter(open: set<string>, others: seq<Other>): set<string>
    decreases |others|
  {
    if others == [] then open else OpenAfter(OpenedBy(open, others[0]), others[1..])
  }

  lemma {:induction false} StillOpen(open: set<string>, others: seq<Other>, id: string)
    ensures id in OpenAfter(open, others)
       <==> (id in open && forall j :: 0 <= j < |others| ==> !Ends(others[j], id))
            || exists i :: 0 <= i < |others| && Unanswered(others, i) && CallOf(others[i]) == id
    decreases |others|
  {
    if others != [] {
      var o, rest := others[0], others[1..];
      StillOpen(OpenedBy(open, o), rest, id);
      assert forall j :: 0 <= j < |rest| ==> rest[j] == others[j + 1];
      assert Unanswered(others, 0) <==> IsCall(o) && forall j :: 0 <= j < |rest| ==> !Ends(rest[j], CallOf(o)) by {
        if forall j :: 0 <= j < |rest| ==> !Ends(rest[j], CallOf(o)) {
          forall j | 0 < j < |others| ensures !Ends(others[j], CallOf(o)) { assert others[j] == rest[j - 1]; }
        }
      }
      forall i | 0 <= i < |rest| ensures Unanswered(rest, i) <==> Unanswered(others, i + 1) {
        UnansweredRest(others, i);
      }
      if i :| 0 <= i < |others| && Unanswered(others, i) && CallOf(others[i]) == id {
        if i > 0 { assert Unanswered(rest, i - 1) && CallOf(rest[i - 1]) == id; }
      }
      if i :| 0 <= i < |rest| && Unanswered(rest, i) && CallOf(rest[i]) == id {
        assert Unanswered(others, i + 1) && CallOf(others[i + 1]) == id;
      }
    }
  }

  lemma UnansweredRest(others: seq<Other>, i: nat)
    requires i + 1 < |others|
    ensures Unanswered(others[1..], i) <==> Unanswered(others, i + 1)
  {
    var rest := others[1..];
    assert forall j :: 0 <= j < |rest| ==> rest[j] == others[j + 1];
    if Unanswered(rest, i) {
      forall j | i + 1 < j < |others| ensures !Ends(others[j], CallOf(others[i + 1])) {
        assert others[j] == rest[j - 1];
      }
    }
  }

  lemma EndedIff(others: seq<Other>)
    ensures OpenAfter({}, others) == {} <==> AllEnded(others)
  {
    if AllEnded(others) {
      forall id ensures id !in OpenAfter({}, others) { StillOpen({}, others, id); }
    } else {
      var i :| 0 <= i < |others| && IsCall(others[i]) && Unanswered(others, i);
      StillOpen({}, others, CallOf(others[i]));
    }
  }

  /** Each call draws an id the projector has not seen, and everything projected is
      what other tasks project. */
  predicate Steered(c: Control, others: seq<Other>)
    decreases |others|
  {
    others != [] ==>
      && (others[0].Side? ==> Late(others[0].action))
      && (IsCall(others[0]) && c.projector.Some? ==> New(c.projector.value, CallOf(others[0])))
      && Steered(Does(c, others[0]), others[1..])
  }

  ghost predicate LiveOpen(c: Control, open: set<string>) { c.projector.Some? && OpenAre(c.projector.value, open) }

  lemma DoesOpen(c: Control, o: Other, open: set<string>)
    requires LiveOpen(c, open) && (o.Side? ==> Late(o.action))
    requires IsCall(o) ==> New(c.projector.value, o.action.callId)
    ensures LiveOpen(Does(c, o), OpenedBy(open, o))
  {
    hide OpenAre, Project, New;
    var s := c.projector.value;
    match o {
      case Side(a, newId, now) => LateOpens(s, open, a, newId, now);
      case Respond(id, reply, now) => AnswerRefused(s, open, id, reply.output, "", now);
      case _ =>
    }
  }

  lemma {:induction false} MeanwhileOpen(c: Control, others: seq<Other>, open: set<string>)
    requires LiveOpen(c, open) && Steered(c, others)
    ensures LiveOpen(Meanwhile(c, others), OpenAfter(open, others))
    decreases |others|
  {
    hide OpenAre, Does, New, Late;
    if others != [] {
      DoesOpen(c, others[0], open);
      MeanwhileOpen(Does(c, others[0]), others[1..], OpenedBy(open, others[0]));
    }
  }

  // ---- at the sends --------------------------------------------------------

  /** All that other tasks do at the first n sends. */
  function During(ps: seq<Pause>, n: nat): seq<Other> {
    if n == 0 then [] else At(ps, 0).others + During(From(ps, 1), n - 1)
  }

  /** But for what has been told. */
  predicate Alike(c: Control, d: Control) { c.(told := []) == d.(told := []) }

  lemma AnswerAlike(c: Control, d: Control, id: string, reply: Reply, now: int)
    requires Alike(c, d)
    ensures Alike(BeginAnswer(c, id, reply, now).0, BeginAnswer(d, id, reply, now).0)
    ensures BeginAnswer(c, id, reply, now).1 == BeginAnswer(d, id, reply, now).1
  {
    hide Project;
    assert d == c.(told := d.told);
  }

  lemma ProceedAlike(c: Control, d: Control, id: string)
    requires Alike(c, d)
    ensures Alike(Proceed(c, id), Proceed(d, id))
  {
    assert d == c.(told := d.told);
  }

  lemma DoesAlike(c: Control, d: Control, o: Other)
    requires Alike(c, d)
    ensures Alike(Does(c, o), Does(d, o))
  {
    hide Project, BeginAnswer, Proceed;
    assert d == c.(told := d.told);
    match o {
      case Respond(id, reply, now) =>
        AnswerAlike(c, d, id, reply, now);
        ProceedAlike(BeginAnswer(c, id, reply, now).0, BeginAnswer(d, id, reply, now).0, id);
      case GoOn(id) => ProceedAlike(c, d, id);
      case _ =>
    }
  }

  lemma {:induction false} MeanwhileAlike(c: Control, d: Control, others: seq<Other>)
    requires Alike(c, d)
    ensures Alike(Meanwhile(c, others), Meanwhile(d, others))
    decreases |others|
  {
    hide Does;
    if others != [] {
      DoesAlike(c, d, others[0]);
      MeanwhileAlike(Does(c, others[0]), Does(d, others[0]), others[1..]);
    }
  }

  lemma {:induction false} MeanwhileConcat(c: Control, a: seq<Other>, b: seq<Other>)
    ensures Meanwhile(c, a + b) == Meanwhile(Meanwhile(c, a), b)
    decreases |a|
  {
    hide Does;
    if a == [] {
      assert a + b == b;
    } else {
      assert (a + b)[0] == a[0] && (a + b)[1..] == a[1..] + b;
      MeanwhileConcat(Does(c, a[0]), a[1..], b);
    }
  }

  /** Sending notes to the end, other tasks do what they do in between. */
  lemma {:induction false} SentAlike(c: Control, notes: seq<Note>, ps: seq<Pause>)
    requires !Sent(c, notes, ps).1
    ensures Alike(Sent(c, notes, ps).0, Meanwhile(c, During(ps, |notes|)))
    decreases |notes|
  {
    hide Meanwhile;
    if notes == [] {
      MeanwhileNothing(c);
    } else {
      var c0 := c.(told := c.told + [notes[0]]);
      var c1, rest := Meanwhile(c0, At(ps, 0).others), During(From(ps, 1), |notes| - 1);
      SentAlike(c1, notes[1..], From(ps, 1));
      MeanwhileAlike(c0, c, At(ps, 0).others);
      MeanwhileAlike(c1, Meanwhile(c, At(ps, 0).others), rest);
      MeanwhileConcat(c, At(ps, 0).others, rest);
    }
  }

  lemma MeanwhileNothing(c: Control)
    ensures Meanwhile(c, []) == c
  {
  }

  /** Main result: with no entry in progress at first, when notes have been sent the
      entries are complete if and only if every call that other tasks projected at
      those sends has got its result there. */
  lemma CompleteIffEnded(c: Control, notes: seq<Note>, ps: seq<Pause>)
    requires c.projector.Some? && Valid(c.projector.value) && AllComplete(c.projector.value.history)
    requires !Sent(c, notes, ps).1 && Steered(c, During(ps, |notes|))
    ensures var d, others := Sent(c, notes, ps).0, During(ps, |notes|);
            && d.projector.Some?
            && (AllComplete(d.projector.value.history) <==> AllEnded(others))
            && forall i :: 0 <= i < |others| && Unanswered(others, i) ==>
                 exists k :: 0 <= k < |d.projector.value.history|
                             && d.projector.value.history[k].id == CallOf(others[i])
                             && d.projector.value.history[k].status.InProgress?
  {
    hide OpenAre, Sent, Meanwhile, Valid, AllComplete, Steered, Unanswered, AllEnded;
    var others := During(ps, |notes|);
    CompleteOpen(c.projector.value);
    MeanwhileOpen(c, others, {});
    SentAlike(c, notes, ps);
    EndedIff(others);
    var open := OpenAfter({}, others);
    OpenComplete(Meanwhile(c, others).projector.value, open);
    forall i | 0 <= i < |others| && Unanswered(others, i) ensures CallOf(others[i]) in open {
      StillOpen({}, others, CallOf(others[i]));
    }
  }
}
