/** What an action that raises leaves behind. */
module Raising {
  import opened Prelude
  import opened Json
  import opened Entries
  import opened Changes
  import opened Projection
  import opened ProjectorFacts
  import opened Finalizing
  import Actions
  import P = Projector

  predicate Unfinished(s: State, e: Entry) { Streamed(s, e.id) && e.status.InProgress? }

  /** Finishing changes the history exactly when something was unfinished. */
  lemma FinishingChanges(s: State, now: int)
    requires Valid(s)
    ensures var o := Exec(s, FinishCmds(s, s.history, now));
            && o.error.None? && Valid(o.state)
            && (o.state.history == s.history <==> forall e :: e in s.history ==> !Unfinished(s, e))
  {
    hide Valid, Streamed, FinishCmds, Exec, Actions.IsText;
    assert s.history[0..] == s.history;
    Actions.PausesFrom(s, s, s.history, 0, now);
    var o := Exec(s, FinishCmds(s, s.history, now));
    forall e | e in s.history ensures Unfinished(s, e) <==> e.status.InProgress? && Actions.IsText(s, e.id) {
      Actions.TextIs(s, e.id);
    }
    if e :| e in s.history && Unfinished(s, e) {
      var j :| 0 <= j < |s.history| && s.history[j] == e;
      assert o.state.history[j] != s.history[j];
    } else {
      assert forall j :: 0 <= j < |s.history| ==> s.history[j] in s.history;
      assert o.state.history == s.history;
    }
  }

  // ---- every action that raises --------------------------------------------

  /** Whether an action changes an entry before it can raise. */
  predicate ChangesFirst(s: State, a: Action) {
    match a
    case ToolCall(_, _, _) => exists e :: e in s.history && Unfinished(s, e)
    case ToolResult(callId, _, _, _) => (Effects, callId) !in s.ids && callId !in s.entries
    case OpenCallback(callbackId, _, _, _) => CallbackEntryId(callbackId) !in s.entries
    case ResolveCallback(callbackId, _) =>
      && (Callbacks, callbackId) in s.ids && s.ids[(Callbacks, callbackId)] in s.entries
      && s.entries[s.ids[(Callbacks, callbackId)]].status.InProgress?
      && s.entries[s.ids[(Callbacks, callbackId)]].body.Callback?
    case _ => false
  }

  lemma FailedStep(s: State, c: Cmd)
    requires Step(s, c).error.Some?
    ensures Step(s, c).state == s
  {
  }

  /** One command that fails, or an id remembered for an entry that fails. */
  lemma ShortSilent(s: State, cs: seq<Cmd>)
    requires Exec(s, cs).error.Some?
    requires |cs| == 1 || (|cs| == 2 && cs[0].Remember? && cs[1].Create?)
    ensures Exec(s, cs).state.history == s.history
  {
    hide PatchIn;
    if |cs| == 1 {
      assert cs == [cs[0]];
      ExecOne(s, cs[0]);
      FailedStep(s, cs[0]);
    } else {
      assert cs == [cs[0], cs[1]];
      P.ExecTwo(s, cs[0], cs[1]);
    }
  }

  lemma CallSilent(s: State, callId: string, title: string, presented: Option<Json>, newId: string, now: int)
    requires Valid(s) && Exec(s, Commands(s, ToolCall(callId, title, presented), newId, now)).error.Some?
    ensures Exec(s, Commands(s, ToolCall(callId, title, presented), newId, now)).state.history == s.history
       <==> forall e :: e in s.history ==> !Unfinished(s, e)
  {
    hide Valid, Exec, FinishCmds, Unfinished;
    var first := FinishCmds(s, s.history, now);
    var rest := match presented case None => [Raise(MissingPresentation)]
                                case Some(detail) => EffectCmds(s, callId, title, detail, now);
    FinishingChanges(s, now);
    P.ExecConcat(s, first, rest);
    ShortSilent(Exec(s, first).state, rest);
  }

  lemma ResultSilent(s: State, a: Action, newId: string, now: int)
    requires Valid(s) && a.ToolResult? && Exec(s, Commands(s, a, newId, now)).error.Some?
    ensures Exec(s, Commands(s, a, newId, now)).state.history == s.history <==> !ChangesFirst(s, a)
  {
    hide Valid, ById;
    var cs := Commands(s, a, newId, now);
    if (Effects, a.callId) in s.ids {
      var id := s.ids[(Effects, a.callId)];
      if id in s.entries { assert [] + cs == cs; ShortSilent(s, cs); }
      else { assert cs[0] == Raise(MissingEntry); }
    } else {
      P.ExecConcat(s, cs[..2], cs[2..]);
      assert cs[..2] + cs[2..] == cs && cs[..2] == [cs[0], cs[1]];
      P.ExecTwo(s, cs[0], cs[1]);
      if a.callId !in s.entries {
        var t := Exec(s, cs[..2]).state;
        assert cs[2..] == [cs[2]];
        ExecOne(t, cs[2]);
        if cs[2].Patch? { SettlesNew(s, t, cs[1].entry, cs[2].change.state, now); }
        FailedStep(t, cs[2]);
        assert |t.history| == |s.history| + 1;
      }
    }
  }

  /** An effect just added can be settled. */
  lemma SettlesNew(s: State, t: State, e: Entry, state: EffectState, now: int)
    requires e.body.Effect? && e.status.InProgress? && e.id in t.entries && t.entries[e.id] == e
    ensures Step(t, Patch(e.id, SettleEffect(state), now)).error.None?
  {
    hide Patched, Changed;
    PatchMeansChange(e, SettleEffect(state), now);
    assert Changed(e, SettleEffect(state), now).Some? by { SettlesEffect(e, state, now); }
    ChangedKeeps(e, SettleEffect(state), now);
  }

  lemma SettlesEffect(e: Entry, state: EffectState, now: int)
    requires e.body.Effect?
    ensures Changed(e, SettleEffect(state), now).Some?
  {
  }

  lemma CompactionSilent(s: State, a: Action, newId: string, now: int)
    requires Valid(s) && a.CompactEnd? && Exec(s, Commands(s, a, newId, now)).error.Some?
    ensures Exec(s, Commands(s, a, newId, now)).state.history == s.history
  {
    hide Valid, Exec, Unannounced;
    if Unannounced(s, a) {
      UnannouncedIsLost(s, a, newId, now);
      assert false;
    }
    KnownCheckpoint(s, a, newId, now);
    ShortSilent(s, Commands(s, a, newId, now));
  }

  lemma KnownCheckpoint(s: State, a: Action, newId: string, now: int)
    requires a.CompactEnd? && !Unannounced(s, a)
    ensures |Commands(s, a, newId, now)| == 1
  {
  }

  lemma OpenSilent(s: State, a: Action, newId: string, now: int)
    requires Valid(s) && a.OpenCallback? && Exec(s, Commands(s, a, newId, now)).error.Some?
    ensures Exec(s, Commands(s, a, newId, now)).state.history == s.history <==> !ChangesFirst(s, a)
  {
    hide Valid, PatchIn, ById;
    var cs := Commands(s, a, newId, now);
    assert cs[..2] + cs[2..] == cs && cs[..2] == [cs[0], cs[1]];
    P.ExecConcat(s, cs[..2], cs[2..]);
    P.ExecTwo(s, cs[0], cs[1]);
    if CallbackEntryId(a.callbackId) !in s.entries {
      var t := Exec(s, cs[..2]).state;
      if cs[2..] != [] { ShortSilent(t, cs[2..]); }
    }
  }

  lemma ResolveSilent(s: State, a: Action, newId: string, now: int)
    requires Valid(s) && a.ResolveCallback? && Exec(s, Commands(s, a, newId, now)).error.Some?
    ensures Exec(s, Commands(s, a, newId, now)).state.history == s.history <==> !ChangesFirst(s, a)
  {
    hide Valid, Step, Changed;
    var cs := Commands(s, a, newId, now);
    assert cs != [] && [cs[0]] + cs[1..] == cs;
    P.ExecConcat(s, [cs[0]], cs[1..]);
    ExecOne(s, cs[0]);
    var id, change := cs[0].id, cs[0].change;
    PatchStep(s, id, change, now);
    if id in s.entries { SettlesCallback(s.entries[id], change, now); }
    if Step(s, cs[0]).error.None? && cs[1..] != [] { ShortSilent(Step(s, cs[0]).state, cs[1..]); }
  }

  lemma SettlesCallback(e: Entry, c: Change, now: int)
    requires c.SettleCallback?
    ensures Changed(e, c, now).Some? <==> e.body.Callback?
    ensures Changed(e, c, now).Some? ==> Changed(e, c, now).value.status.Complete?
  {
  }

  lemma OthersSilent(s: State, a: Action, newId: string, now: int)
    requires Valid(s) && Exec(s, Commands(s, a, newId, now)).error.Some?
    requires !a.ToolCall? && !a.ToolResult? && !a.CompactEnd? && !a.OpenCallback? && !a.ResolveCallback?
    requires !a.Finalize? && !a.UserMessage? && !a.TitleUpdated?
    ensures Exec(s, Commands(s, a, newId, now)).state.history == s.history
  {
    hide Valid, Step;
    ShortSilent(s, Commands(s, a, newId, now));
  }

  /** Its first command is the only one that can fail. */
  lemma FirstSilent(s: State, a: Action, newId: string, now: int)
    requires Exec(s, Commands(s, a, newId, now)).error.Some? && (a.UserMessage? || a.TitleUpdated?)
    ensures Exec(s, Commands(s, a, newId, now)).state.history == s.history
  {
    var cs := Commands(s, a, newId, now);
    assert [cs[0]] + cs[1..] == cs;
    P.ExecConcat(s, [cs[0]], cs[1..]);
    ExecOne(s, cs[0]);
    var t := Step(s, cs[0]).state;
    if |cs| == 2 { ExecOne(t, cs[1]); assert cs[1..] == [cs[1]]; }
    if |cs| == 3 { P.ExecTwo(t, cs[1], cs[2]); assert cs[1..] == [cs[1], cs[2]]; }
  }

  /** Main result: an action that raises hands out nothing, and what it has
      changed stays.  It has changed an entry if and only if it is a call with a
      streamed text unfinished, the result of a call never seen, a callback that
      is new, or an answer to a callback in progress. */
  lemma RaisingIsSilent(s: State, a: Action, newId: string, now: int)
    requires Valid(s) && Project(s, a, newId, now).error.Some?
    ensures var o := Project(s, a, newId, now);
            o.updates == [] && (o.state.history == s.history <==> !ChangesFirst(s, a))
  {
    hide Valid, Exec, Commands, Unfinished;
    match a {
      case ToolCall(callId, title, presented) => CallSilent(s, callId, title, presented, newId, now);
      case ToolResult(_, _, _, _) => ResultSilent(s, a, newId, now);
      case CompactEnd(_, _) => CompactionSilent(s, a, newId, now);
      case OpenCallback(_, _, _, _) => OpenSilent(s, a, newId, now);
      case ResolveCallback(_, _) => ResolveSilent(s, a, newId, now);
      case Finalize(cancelled) => FinalizeCompletes(s, cancelled, newId, now);
      case UserMessage(_, _, _, _, _) => FirstSilent(s, a, newId, now);
      case TitleUpdated(_, _) => FirstSilent(s, a, newId, now);
      case _ => OthersSilent(s, a, newId, now);
    }
  }
}
