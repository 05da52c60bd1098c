/** What each event and harness action makes of a history, entry by entry, and
    when it is refused. */
module Actions {
  import opened Prelude
  import opened Json
  import opened Entries
  import opened Changes
  import opened Projection
  import opened ProjectorFacts
  import opened ProjectorRuns
  import opened Finalizing
  import opened Projector

  // ---- one entry changed, one entry added ----------------------------------

  /** The entry with the id gives way to e; nothing else changes. */
  predicate Only(s: State, t: State, id: string, e: Entry) {
    && t == s.(history := t.history, entries := s.entries[id := e]) && |t.history| == |s.history|
    && forall i :: 0 <= i < |s.history| ==> t.history[i] == if s.history[i].id == id then e else s.history[i]
  }

  predicate Gains(s: State, t: State, e: Entry) {
    t == s.(history := s.history + [e], entries := s.entries[e.id := e])
  }

  predicate Refused(s: State, o: Outcome) { o.error.Some? && o.state == s && o.updates == [] }

  predicate Known(s: State, t: Table, key: string) { (t, key) in s.ids }

  function Keyed(s: State, t: Table, key: string, id: string): State { s.(ids := s.ids[(t, key) := id]) }

  predicate Running(s: State, id: string) { id in s.entries && s.entries[id].status.InProgress? }

  lemma PatchIs(s: State, id: string, change: Change, now: int)
    requires Valid(s)
    ensures var o := Step(s, Patch(id, change, now));
            && Valid(o.state)
            && if Running(s, id) && Changed(s.entries[id], change, now).Some?
               then o.error == None && Only(s, o.state, id, Changed(s.entries[id], change, now).value)
               else Refused(s, o)
  {
    hide Step, Changed, Valid;
    PatchStep(s, id, change, now);
    PatchKeepsValid(s, id, change, now);
    if Running(s, id) {
      var t, k := Step(s, Patch(id, change, now)).state, IndexOf(s.history, id);
      assert UniqueIds(s.history) by { InIndex(s); }
      forall i | 0 <= i < |s.history| && k < |s.history| ensures s.history[i].id == id <==> i == k {
        if s.history[i].id == id { IndexUnique(s.history, i); }
      }
    }
  }

  /** An action that is one patch. */
  lemma OnePatch(s: State, a: Action, newId: string, now: int, id: string, change: Change)
    requires Valid(s) && Commands(s, a, newId, now) == [Patch(id, change, now)]
    ensures var o := Project(s, a, newId, now);
            if Running(s, id) && Changed(s.entries[id], change, now).Some?
            then o.error == None && Only(s, o.state, id, Changed(s.entries[id], change, now).value)
            else Refused(s, o)
  {
    hide Step, Changed, Valid, Commands, Only;
    PatchIs(s, id, change, now);
    ExecOne(s, Patch(id, change, now));
  }

  lemma {:induction false} ThenOne(s: State, c: Cmd, d: Cmd)
    requires Step(s, c).error.None?
    ensures var one, two := Step(s, c), Step(Step(s, c).state, d);
            Exec(s, [c, d]) == Outcome(two.state, one.updates + two.updates, two.error)
  {
    hide Step;
    assert [c, d][1..] == [d];
    ExecOne(Step(s, c).state, d);
  }

  /** An action that remembers an id and creates its entry. */
  lemma Creates(s: State, a: Action, newId: string, now: int, t: Table, key: string, e: Entry)
    requires Commands(s, a, newId, now) == [Remember(t, key, e.id), Create(e)]
    ensures var o := Project(s, a, newId, now);
            if e.id in s.entries then Refused(Keyed(s, t, key, e.id), o)
            else o.error == None && Gains(Keyed(s, t, key, e.id), o.state, e) && o.updates == [Added(s.sessionId, e)]
  {
    hide Commands;
    ThenOne(s, Remember(t, key, e.id), Create(e));
    assert [] + [Added(s.sessionId, e)] == [Added(s.sessionId, e)];
  }

  // ---- messages ------------------------------------------------------------

  /** A user's message is added whole.  It gives the session its preview when that
      is empty: the first 160 characters of its text. */
  lemma {:induction false} UserMessageIs(s: State, id: string, content: seq<Block>, source: Json, display: Json,
                                         text: string, newId: string, now: int)
    ensures var o := Project(s, UserMessage(id, content, source, display, text), newId, now);
            var e := Entry(id, s.sessionId, s.turnId, now, now, Complete, None,
                           Message("user", content, source, display));
            if id in s.entries then Refused(s, o)
            else
              && o.error == None && Gains(s.(preview := o.state.preview), o.state, e)
              && (if s.preview == "" && text != "" then
                    && o.state.preview <= text && |o.state.preview| == (if |text| < 160 then |text| else 160)
                    && o.updates == [Added(s.sessionId, e), SessionPatched(s.sessionId)]
                  else o.state.preview == s.preview && o.updates == [Added(s.sessionId, e)])
  {
    var a := UserMessage(id, content, source, display, text);
    var e := Entry(id, s.sessionId, s.turnId, now, now, Complete, None, Message("user", content, source, display));
    var cs := Commands(s, a, newId, now);
    if s.preview == "" && text != "" {
      var p := cs[1].preview;
      assert cs == [Create(e), SetPreview(p), PatchSession];
      if id in s.entries {
        assert Exec(s, cs) == Step(s, Create(e));
      } else {
        var s1 := AddTo(s, e);
        ExecThree(s, Create(e), SetPreview(p), PatchSession, Step(s, Create(e)), Step(s1, SetPreview(p)),
                  Step(s1.(preview := p), PatchSession));
        assert [Added(s.sessionId, e)] + [] + [SessionPatched(s.sessionId)]
            == [Added(s.sessionId, e), SessionPatched(s.sessionId)];
      }
    } else {
      assert cs == [Create(e)];
      ExecOne(s, Create(e));
    }
  }

  /** The first chunk of a text opens its entry; a further one extends it, if it is
      still in progress. */
  lemma ChunkIs(s: State, a: Action, newId: string, now: int, k: (Table, string))
    requires Valid(s) && Target(a) == Some(k)
    ensures var o := Project(s, a, newId, now);
            if k in s.ids then
              var id := s.ids[k];
              if Running(s, id) && Takes(k.0, s.entries[id].body)
              then
                var longer := Longer(s.entries[id].body, a.chunk);
                o.error == None && Only(s, o.state, id, s.entries[id].(body := longer, updatedAt := now))
              else Refused(s, o)
            else
              var id := if Given(a.messageId) then a.messageId.value else newId;
              var e := Entry(id, s.sessionId, s.turnId, now, now, InProgress, None,
                             if k.0.Assistant? then Message("assistant", [Text(a.chunk)], Null, Null)
                             else Reasoning(a.chunk, Arr([])));
              if id in s.entries then Refused(Keyed(s, k.0, k.1, id), o)
              else o.error == None && Gains(Keyed(s, k.0, k.1, id), o.state, e)
                   && o.updates == [Added(s.sessionId, e)]
  {
    hide Valid, Exec;
    var cs := Commands(s, a, newId, now);
    if k in s.ids {
      OnePatch(s, a, newId, now, s.ids[k], if k.0.Assistant? then Content(a.chunk) else Reason(a.chunk));
    } else {
      Creates(s, a, newId, now, k.0, k.1, cs[1].entry);
    }
  }

  /** What can take a chunk: a message that begins with a text, a reasoning. */
  predicate Takes(t: Table, b: Body) {
    if t.Assistant? then b.Message? && b.content != [] && b.content[0].Text? else b.Reasoning?
  }

  function Longer(b: Body, chunk: string): Body {
    match b
    case Message(role, content, source, display) =>
      if content != [] && content[0].Text?
      then Message(role, [Text(content[0].text + chunk)] + content[1..], source, display) else b
    case Reasoning(text, summary) => Reasoning(text + chunk, summary)
    case _ => b
  }

  /** Notices are complete at once; a new title is told with one. */
  lemma {:induction false} NoticeIs(s: State, a: Action, newId: string, now: int)
    requires a.NoticeShown? || a.TitleUpdated?
    ensures var o := Project(s, a, newId, now);
            var e := Entry(newId, s.sessionId, s.turnId, now, now, Complete, None, Notice("info", a.message, a.detail));
            if newId in s.entries then Refused(s, o)
            else
              && o.error == None && Gains(s, o.state, e)
              && o.updates == [Added(s.sessionId, e)]
                              + if a.TitleUpdated? then [SessionPatched(s.sessionId)] else []
  {
    var e := Entry(newId, s.sessionId, s.turnId, now, now, Complete, None, Notice("info", a.message, a.detail));
    if a.TitleUpdated? {
      assert Commands(s, a, newId, now) == [Create(e), PatchSession];
      if newId in s.entries { assert Exec(s, [Create(e), PatchSession]) == Step(s, Create(e)); }
      else { ThenOne(s, Create(e), PatchSession); }
    } else {
      ExecOne(s, Create(e));
    }
  }

  // ---- effects -------------------------------------------------------------

  /** An effect that is started: a new one runs without output, a known one gets
      its new detail. */
  lemma StartIs(s: State, callId: string, title: string, detail: Json, newId: string, now: int)
    requires Valid(s)
    ensures var o := Project(s, StartEffect(callId, title, detail), newId, now);
            if Known(s, Effects, callId) && s.ids[(Effects, callId)] != "" then
              Redetailed(s, o, s.ids[(Effects, callId)], detail, now)
            else
              var e := Entry(callId, s.sessionId, s.turnId, now, now, InProgress, None,
                             Effect(title, detail, EffectState.Running("")));
              if callId in s.entries then Refused(Keyed(s, Effects, callId, callId), o)
              else o.error == None && Gains(Keyed(s, Effects, callId, callId), o.state, e)
                   && o.updates == [Added(s.sessionId, e)]
  {
    hide Valid, Exec;
    var a := StartEffect(callId, title, detail);
    if Known(s, Effects, callId) && s.ids[(Effects, callId)] != "" {
      OnePatch(s, a, newId, now, s.ids[(Effects, callId)], Detail(detail));
    } else {
      Creates(s, a, newId, now, Effects, callId, Commands(s, a, newId, now)[1].entry);
    }
  }

  function WithDetail(b: Body, detail: Json): Option<Body> {
    match b
    case Effect(title, _, state) => Some(Effect(title, detail, state))
    case Callback(callbackId, title, _, state) => Some(Callback(callbackId, title, detail, state))
    case Notice(level, message, _) => Some(Notice(level, message, detail))
    case _ => None
  }

  predicate Redetailed(s: State, o: Outcome, id: string, detail: Json, now: int) {
    if Running(s, id) && WithDetail(s.entries[id].body, detail).Some?
    then o.error == None
         && Only(s, o.state, id,
                 s.entries[id].(body := WithDetail(s.entries[id].body, detail).value, updatedAt := now))
    else Refused(s, o)
  }

  predicate PutsOut(state: EffectState) { !state.Pending? && !state.Skipped? }

  /** The same state, its output longer by a chunk. */
  predicate Grown(before: EffectState, after: EffectState, chunk: string) {
    match before
    case Running(t) => after == EffectState.Running(t + chunk)
    case Blocked(c, t) => after == Blocked(c, t + chunk)
    case Finished(v, t, d) => after == Finished(v, t + chunk, d)
    case Failed(e, t, d) => after == Failed(e, t + chunk, d)
    case Cancelled(r, t, d) => after == Cancelled(r, t + chunk, d)
    case _ => false
  }

  /** An effect in progress, its state changed and nothing else but the stamp. */
  predicate InState(e: Entry, e': Entry, now: int) {
    e.body.Effect? && e'.body.Effect?
    && e' == e.(body := Effect(e.body.title, e.body.detail, e'.body.state), updatedAt := now, status := e'.status)
  }

  lemma StreamIs(s: State, callId: string, chunk: string, newId: string, now: int)
    requires Valid(s)
    ensures var o := Project(s, ToolStream(callId, chunk), newId, now);
            if !Known(s, Effects, callId) then o == Outcome(s, [], Some(EffectNotFound))
            else
              var id := s.ids[(Effects, callId)];
              if Running(s, id) && s.entries[id].body.Effect? && PutsOut(s.entries[id].body.state) then
                && o.error == None && id in o.state.entries && Only(s, o.state, id, o.state.entries[id])
                && InState(s.entries[id], o.state.entries[id], now) && o.state.entries[id].status.InProgress?
                && Grown(s.entries[id].body.state, o.state.entries[id].body.state, chunk)
              else Refused(s, o)
  {
    hide Valid, Exec;
    var a := ToolStream(callId, chunk);
    if Known(s, Effects, callId) { OnePatch(s, a, newId, now, s.ids[(Effects, callId)], Output(chunk)); }
    else { RaiseIs(s, a, newId, now, EffectNotFound); }
  }

  lemma RaiseIs(s: State, a: Action, newId: string, now: int, error: Error)
    requires Commands(s, a, newId, now) == [Raise(error)]
    ensures Project(s, a, newId, now) == Outcome(s, [], Some(error))
  {
    hide Commands;
    ExecOne(s, Raise(error));
  }

  /** Settled as it is told, whatever the state before. */
  lemma CompleteIs(s: State, callId: string, state: EffectState, newId: string, now: int)
    requires Valid(s)
    ensures var o := Project(s, CompleteEffect(callId, state), newId, now);
            if !Known(s, Effects, callId) then o == Outcome(s, [], Some(EffectNotFound))
            else
              var id := s.ids[(Effects, callId)];
              if Running(s, id) && s.entries[id].body.Effect? then
                && o.error == None
                && Only(s, o.state, id,
                        s.entries[id].(body := Effect(s.entries[id].body.title, s.entries[id].body.detail, state),
                                       updatedAt := now, status := Complete))
              else Refused(s, o)
  {
    hide Valid, Exec;
    var a := CompleteEffect(callId, state);
    if Known(s, Effects, callId) { OnePatch(s, a, newId, now, s.ids[(Effects, callId)], SettleEffect(state)); }
    else { RaiseIs(s, a, newId, now, EffectNotFound); }
  }

  /** The state of a result, with what the effect had put out. */
  predicate Says(outcome: ToolOutcome, text: string, state: EffectState) {
    match outcome
    case ToolCancelled(reason, display) => state == Cancelled(reason, text, display)
    case ToolSkipped(reason, display) => state == Skipped(reason, display)
    case ToolFailed(error, display) => state == Failed(error, text, display)
    case ToolSucceeded(output, display) => state == Finished(output, text, display)
    case ToolUnpresented => false
  }

  /** The result of a known call settles its effect; one that was presented to
      nobody, or whose effect is over, is refused. */
  lemma ResultIs(s: State, callId: string, title: string, generic: Json, outcome: ToolOutcome, newId: string, now: int)
    requires Valid(s) && Known(s, Effects, callId)
    ensures var o := Project(s, ToolResult(callId, title, generic, outcome), newId, now);
            var id := s.ids[(Effects, callId)];
            if !outcome.ToolUnpresented? && Running(s, id) && s.entries[id].body.Effect? then
              && o.error == None && id in o.state.entries && Only(s, o.state, id, o.state.entries[id])
              && InState(s.entries[id], o.state.entries[id], now) && o.state.entries[id].status.Complete?
              && Says(outcome, SoFar(s.entries[id].body.state), o.state.entries[id].body.state)
            else Refused(s, o)
  {
    hide Valid, Step;
    var a, id := ToolResult(callId, title, generic, outcome), s.ids[(Effects, callId)];
    var cs := Commands(s, a, newId, now);
    if id !in s.entries {
      assert cs[0] == Raise(MissingEntry);
      assert Exec(s, cs) == Step(s, Raise(MissingEntry)) by { StepRaises(s, MissingEntry); }
      StepRaises(s, MissingEntry);
    } else if outcome.ToolUnpresented? {
      assert cs == [Raise(MissingPresentation)];
      RaiseIs(s, a, newId, now, MissingPresentation);
    } else {
      var state := cs[0].change.state;
      assert cs == [Patch(id, SettleEffect(state), now)];
      OnePatch(s, a, newId, now, id, SettleEffect(state));
    }
  }

  lemma StepRaises(s: State, error: Error)
    ensures Step(s, Raise(error)) == Outcome(s, [], Some(error))
  {
  }

  lemma LoneCommands(s: State, callId: string, title: string, generic: Json, outcome: ToolOutcome, newId: string,
                     now: int) returns (last: Cmd)
    requires !Known(s, Effects, callId)
    ensures var made := Fields(s, callId, InProgress, None, Effect(title, generic, EffectState.Running("")), now);
            Commands(s, ToolResult(callId, title, generic, outcome), newId, now)
            == [Remember(Effects, callId, callId), Create(made), last]
    ensures if outcome.ToolUnpresented? then last == Raise(MissingPresentation)
            else last.Patch? && last.id == callId && last.now == now && last.change.SettleEffect?
                 && Says(outcome, "", last.change.state)
  {
    last := Commands(s, ToolResult(callId, title, generic, outcome), newId, now)[2];
  }

  /** An entry that is made and changed in one action. */
  lemma {:induction false} MadeAndChanged(s: State, t: Table, key: string, made: Entry, create: Cmd, change: Change,
                                          now: int)
    requires Valid(s) && made.id !in s.entries && EntryOk(made, s.sessionId, s.turnId) && made.status.InProgress?
    requires (create == Create(made) || create == CreateSilently(made)) && Changed(made, change, now).Some?
    ensures var o := Exec(s, [Remember(t, key, made.id), create, Patch(made.id, change, now)]);
            && o.error == None && Gains(Keyed(s, t, key, made.id), o.state, Changed(made, change, now).value)
            && o.updates == (if create.Create? then [Added(s.sessionId, made)] else [])
                            + [Updated(s.sessionId, made.id, Ops(change, now))]
            && made.id in o.state.entries && o.state.entries[made.id] == Changed(made, change, now).value
  {
    hide Valid, PatchIn, Only, Changed, EntryOk, Gains, Ops;
    var remember, last := Remember(t, key, made.id), Patch(made.id, change, now);
    var s1, s2 := Keyed(s, t, key, made.id), AddTo(Keyed(s, t, key, made.id), made);
    var told := if create.Create? then [Added(s.sessionId, made)] else [];
    assert Step(s, remember) == Outcome(s1, [], None) && Step(s1, create) == Outcome(s2, told, None);
    ValidKeyed(s, t, key, made.id);
    assert Valid(s2) by { AddKeepsValid(s1, made); }
    ExecThree(s, remember, create, last, Step(s, remember), Step(s1, create), Step(s2, last));
    assert [] + told == told;
    PatchIs(s2, made.id, change, now);
    PatchStep(s2, made.id, change, now);
    var e := Changed(made, change, now).value;
    assert e.id == made.id by { SameIdChanged(made, change, now); }
    OnlyHas(s2, Step(s2, last).state, made.id, e);
    JustAdded(s1, made, Step(s2, last).state, e);
  }

  lemma SameIdChanged(e: Entry, change: Change, now: int)
    requires Changed(e, change, now).Some?
    ensures Changed(e, change, now).value.id == e.id
  {
  }

  /** The result of a call never seen makes its effect, settled at once; without a
      presentation it is left running. */
  lemma {:induction false} LoneResultIs(s: State, callId: string, title: string, generic: Json, outcome: ToolOutcome,
                                        newId: string, now: int)
    requires Valid(s) && !Known(s, Effects, callId)
    ensures var o := Project(s, ToolResult(callId, title, generic, outcome), newId, now);
            var s1 := Keyed(s, Effects, callId, callId);
            var made := Entry(callId, s.sessionId, s.turnId, now, now, InProgress, None,
                              Effect(title, generic, EffectState.Running("")));
            if callId in s.entries then Refused(s1, o)
            else if outcome.ToolUnpresented? then o.error.Some? && o.updates == [] && Gains(s1, o.state, made)
            else
              && o.error == None && callId in o.state.entries
              && Gains(s1, o.state, o.state.entries[callId])
              && InState(made, o.state.entries[callId], now) && o.state.entries[callId].status.Complete?
              && Says(outcome, "", o.state.entries[callId].body.state)
  {
    hide Valid, Commands, PatchIn, Says;
    var made := Fields(s, callId, InProgress, None, Effect(title, generic, EffectState.Running("")), now);
    var remember, create := Remember(Effects, callId, callId), Create(made);
    var last := LoneCommands(s, callId, title, generic, outcome, newId, now);
    var s1 := Keyed(s, Effects, callId, callId);
    assert Step(s, remember) == Outcome(s1, [], None);
    if callId in s.entries {
      assert [remember, create, last][1..] == [create, last];
      assert Exec(s1, [create, last]) == Step(s1, create);
    } else if last.Patch? {
      MadeAndChanged(s, Effects, callId, made, create, last.change, now);
    } else {
      var s2 := AddTo(s1, made);
      assert Step(s1, create) == Outcome(s2, [Added(s.sessionId, made)], None);
      ExecThree(s, remember, create, last, Step(s, remember), Step(s1, create), Step(s2, last));
    }
  }

  lemma OnlyHas(s: State, t: State, id: string, e: Entry)
    requires Only(s, t, id, e)
    ensures id in t.entries && t.entries[id] == e
  {
  }

  lemma ValidKeyed(s: State, t: Table, key: string, id: string)
    requires Valid(s)
    ensures Valid(Keyed(s, t, key, id))
  {
  }

  /** Adding an entry and changing it is adding it changed. */
  lemma JustAdded(s: State, made: Entry, t: State, e: Entry)
    requires Valid(s) && made.id !in s.entries && e.id == made.id
    requires Only(AddTo(s, made), t, made.id, e)
    ensures Gains(s, t, e)
  {
    hide Valid;
    KnownIsHad(s);
    var h := s.history;
    assert |t.history| == |h| + 1 && t.history[|h|] == e by { assert (h + [made])[|h|] == made; }
    forall i | 0 <= i < |h| ensures t.history[i] == h[i] {
      assert (h + [made])[i] == h[i] && Has(h, h[i].id);
    }
    assert t.history == h + [e];
    assert s.entries[made.id := made][e.id := e] == s.entries[e.id := e];
  }

  // ---- checkpoints ---------------------------------------------------------

  lemma CompactStartIs(s: State, callId: string, details: Json, newId: string, now: int)
    ensures var o := Project(s, CompactStart(callId, details), newId, now);
            var e := Entry(callId, s.sessionId, s.turnId, now, now, InProgress, None,
                           Checkpoint("compaction", Str("Compacting context"), details));
            if callId in s.entries then Refused(Keyed(s, Checkpoints, callId, callId), o)
            else o.error == None && Gains(Keyed(s, Checkpoints, callId, callId), o.state, e)
                 && o.updates == [Added(s.sessionId, e)]
  {
    hide Exec;
    var a := CompactStart(callId, details);
    Creates(s, a, newId, now, Checkpoints, callId, Commands(s, a, newId, now)[1].entry);
  }

  /** The end of a compaction that was announced. */
  lemma CompactEndIs(s: State, callId: string, details: Json, newId: string, now: int)
    requires Valid(s) && !Unannounced(s, CompactEnd(callId, details))
    ensures var o := Project(s, CompactEnd(callId, details), newId, now);
            var id := if Known(s, Checkpoints, callId) then s.ids[(Checkpoints, callId)] else callId;
            && id in s.entries
            && if Running(s, id) && s.entries[id].body.Checkpoint? then
                 o.error == None
                 && Only(s, o.state, id,
                         s.entries[id].(body := Checkpoint(s.entries[id].body.kind, Str("Context compacted"), details),
                                        updatedAt := now, status := Complete))
               else Refused(s, o)
  {
    hide Valid, Exec;
    var a := CompactEnd(callId, details);
    var id := if Known(s, Checkpoints, callId) then s.ids[(Checkpoints, callId)] else callId;
    OnePatch(s, a, newId, now, id, Compacted(details));
  }

  /** The end of one that was not: the checkpoint is added complete, and told as if
      it had been there. */
  lemma {:induction false} LoneCompactEndIs(s: State, callId: string, details: Json, newId: string, now: int)
    requires Valid(s) && Unannounced(s, CompactEnd(callId, details))
    ensures var o := Project(s, CompactEnd(callId, details), newId, now);
            var id := if Known(s, Checkpoints, callId) then s.ids[(Checkpoints, callId)] else callId;
            && o.error == None
            && Gains(Keyed(s, Checkpoints, callId, id), o.state,
                     Entry(id, s.sessionId, s.turnId, now, now, Complete, None,
                           Checkpoint("compaction", Str("Context compacted"), details)))
            && |o.updates| == 1 && o.updates[0].Updated? && o.updates[0].entryId == id
  {
    hide Valid, Commands, Gains, Exec;
    var id := if Known(s, Checkpoints, callId) then s.ids[(Checkpoints, callId)] else callId;
    var made := Fields(s, id, InProgress, None, Checkpoint("compaction", Null, Null), now);
    LoneCompactCmds(s, callId, details, newId, now);
    MadeAndChanged(s, Checkpoints, callId, made, CreateSilently(made), Compacted(details), now);
  }

  lemma LoneCompactCmds(s: State, callId: string, details: Json, newId: string, now: int)
    requires Unannounced(s, CompactEnd(callId, details))
    ensures var id := if Known(s, Checkpoints, callId) then s.ids[(Checkpoints, callId)] else callId;
            var made := Fields(s, id, InProgress, None, Checkpoint("compaction", Null, Null), now);
            Commands(s, CompactEnd(callId, details), newId, now)
            == [Remember(Checkpoints, callId, id), CreateSilently(made), Patch(id, Compacted(details), now)]
  {
  }

  // ---- callbacks -----------------------------------------------------------

  lemma OpenCmds(s: State, callbackId: string, title: string, detail: Json, related: Option<string>, newId: string,
                 now: int)
    ensures var id := "callback:" + callbackId;
            var e := Entry(id, s.sessionId, s.turnId, now, now, InProgress, related,
                           Callback(callbackId, title, detail, Open));
            Commands(s, OpenCallback(callbackId, title, detail, related), newId, now)
            == [Remember(Callbacks, callbackId, id), Create(e)]
               + if related.Some? && (related.value in s.entries || related.value == id)
                 then [Patch(related.value, EffectTo(Blocked(callbackId, "")), now)] else []
  {
  }

  /** A callback is added, open.  If what it is about is known, that must be an
      effect in progress, and is blocked; otherwise the callback is added all the
      same. */
  lemma {:induction false} OpenIs(s: State, callbackId: string, title: string, detail: Json, related: Option<string>,
                                  newId: string, now: int)
    requires Valid(s)
    ensures var o := Project(s, OpenCallback(callbackId, title, detail, related), newId, now);
            var id := "callback:" + callbackId;
            var s1 := Keyed(s, Callbacks, callbackId, id);
            var e := Entry(id, s.sessionId, s.turnId, now, now, InProgress, related,
                           Callback(callbackId, title, detail, Open));
            var s2 := s1.(history := s.history + [e], entries := s.entries[id := e]);
            if id in s.entries then Refused(s1, o)
            else if related.None? || related.value !in s2.entries then o == Outcome(s2, [Added(s.sessionId, e)], None)
            else
              var about := s2.entries[related.value];
              if about.status.InProgress? && about.body.Effect? then
                o.error == None
                && Only(s2, o.state, related.value,
                        about.(body := Effect(about.body.title, about.body.detail, Blocked(callbackId, "")),
                               updatedAt := now))
              else Refused(s2, o)
  {
    hide Valid, Commands, Only, PatchIn;
    var id := "callback:" + callbackId;
    var e := Entry(id, s.sessionId, s.turnId, now, now, InProgress, related,
                   Callback(callbackId, title, detail, Open));
    var s1, remember, create := Keyed(s, Callbacks, callbackId, id), Remember(Callbacks, callbackId, id), Create(e);
    var block := if related.Some? && (related.value in s.entries || related.value == id)
                 then [Patch(related.value, EffectTo(Blocked(callbackId, "")), now)] else [];
    OpenCmds(s, callbackId, title, detail, related, newId, now);
    assert Step(s, remember) == Outcome(s1, [], None);
    if id in s.entries {
      assert ([remember, create] + block)[1..] == [create] + block;
      assert Exec(s1, [create] + block) == Step(s1, create);
    } else {
      var s2 := AddTo(s1, e);
      assert Valid(s2) by { ValidKeyed(s, Callbacks, callbackId, id); OpenedOk(s, e); AddKeepsValid(s1, e); }
      assert Step(s1, create) == Outcome(s2, [Added(s.sessionId, e)], None);
      if block != [] {
        assert [remember, create] + block == [remember, create, block[0]];
        ExecThree(s, remember, create, block[0], Step(s, remember), Step(s1, create), Step(s2, block[0]));
        PatchIs(s2, related.value, EffectTo(Blocked(callbackId, "")), now);
      } else {
        assert [remember, create] + block == [remember, create];
        ThenOne(s, remember, create);
        assert [] + [Added(s.sessionId, e)] == [Added(s.sessionId, e)];
      }
    }
  }

  lemma OpenedOk(s: State, e: Entry)
    requires e.sessionId == s.sessionId && e.turnId == s.turnId && e.body.Callback?
    requires e.id == "callback:" + e.body.callbackId
    ensures EntryOk(e, s.sessionId, s.turnId)
  {
  }

  /** The text a blocked effect goes on with; one that is not blocked starts again
      without. */
  function WhileBlocked(state: EffectState): string { if state.Blocked? then state.outputText else "" }

  /** An answer completes its callback.  What that is about runs on if it is an
      effect in progress; if it is one that is over, the answer is refused, though
      the callback is complete. */
  lemma {:induction false} ResolveIs(s: State, callbackId: string, output: Json, newId: string, now: int)
    requires Valid(s)
    ensures var o := Project(s, ResolveCallback(callbackId, output), newId, now);
            if !Known(s, Callbacks, callbackId) then o == Outcome(s, [], None)
            else
              var id := s.ids[(Callbacks, callbackId)];
              if !Running(s, id) || !s.entries[id].body.Callback? then Refused(s, o)
              else
                var e, b := s.entries[id], s.entries[id].body;
                var answered := e.(body := Callback(b.callbackId, b.title, b.detail, Answered(output)),
                                   updatedAt := now, status := Complete);
                if e.related.None? || e.related.value !in s.entries || !s.entries[e.related.value].body.Effect?
                then o.error == None && Only(s, o.state, id, answered)
                else
                  var about := s.entries[e.related.value];
                  exists s1 :: Only(s, s1, id, answered) &&
                    if about.status.InProgress? then
                      o.error == None
                      && Only(s1, o.state, about.id,
                              about.(body := Effect(about.body.title, about.body.detail,
                                                    EffectState.Running(WhileBlocked(about.body.state))),
                                     updatedAt := now))
                    else Refused(s1, o)
  {
    hide Valid, Step;
    var a := ResolveCallback(callbackId, output);
    var cs := Commands(s, a, newId, now);
    if Known(s, Callbacks, callbackId) {
      var id, settle := s.ids[(Callbacks, callbackId)], SettleCallback(Answered(output));
      var first := Patch(id, settle, now);
      PatchIs(s, id, settle, now);
      assert cs[0] == first;
      if Running(s, id) && s.entries[id].body.Callback? {
        var s1, related := Step(s, first).state, s.entries[id].related;
        if |cs| == 1 {
          assert cs == [first];
          ExecOne(s, first);
        } else {
          var about := s.entries[related.value];
          var on := EffectTo(EffectState.Running(WhileBlocked(about.body.state)));
          assert about.id == related.value by { OwnId(s, related.value); }
          assert cs == [first, Patch(about.id, on, now)];
          ThenOne(s, first, Patch(about.id, on, now));
          PatchIs(s1, about.id, on, now);
          assert s1.entries[about.id] == about;
        }
      } else {
        assert Exec(s, cs) == Step(s, first);
      }
    }
  }

  lemma OwnId(s: State, id: string)
    requires Valid(s) && id in s.entries
    ensures s.entries[id].id == id
  {
    ByIdIs(s.history);
  }

  // ---- calls ---------------------------------------------------------------

  /** A streamed text: one of the tables of texts names it. */
  predicate IsText(s: State, id: string) {
    exists k :: k in s.ids && (k.0 == Assistant || k.0 == Reasonings) && s.ids[k] == id
  }

  /** The streamed texts in progress are complete, and nothing else has changed. */
  predicate Paused(s: State, t: State, now: int) {
    && t == s.(history := t.history, entries := t.entries) && |t.history| == |s.history|
    && forall i :: 0 <= i < |s.history| ==>
         t.history[i] == if s.history[i].status.InProgress? && IsText(s, s.history[i].id)
                         then s.history[i].(status := Complete, updatedAt := now) else s.history[i]
  }

  lemma {:induction false} PausesFrom(s0: State, s: State, h: seq<Entry>, k: nat, now: int)
    requires Valid(s) && |s.history| == |h| && k <= |h|
    requires forall j :: k <= j < |h| ==> s.history[j] == h[j]
    ensures var o := Exec(s, FinishCmds(s0, h[k..], now));
            && o.error.None? && Valid(o.state) && |o.state.history| == |h|
            && o.state == s.(history := o.state.history, entries := o.state.entries)
            && (forall j :: 0 <= j < k ==> o.state.history[j] == s.history[j])
            && (forall j :: k <= j < |h| ==>
                  o.state.history[j] == if h[j].status.InProgress? && IsText(s0, h[j].id)
                                        then h[j].(status := Complete, updatedAt := now) else h[j])
    decreases |h| - k
  {
    hide Step, Valid, IsText, Streamed, Only;
    if k < |h| {
      var e, rest := h[k], FinishCmds(s0, h[k + 1..], now);
      assert h[k..][0] == e && h[k..][1..] == h[k + 1..];
      assert Streamed(s0, e.id) <==> IsText(s0, e.id) by { TextIs(s0, e.id); }
      if e.status.InProgress? && IsText(s0, e.id) {
        var c := Patch(e.id, Finish, now);
        PausesOne(s, k, now);
        PausesFrom(s0, Step(s, c).state, h, k + 1, now);
        assert FinishCmds(s0, h[k..], now) == [c] + rest;
        assert ([c] + rest)[0] == c && ([c] + rest)[1..] == rest;
      } else {
        assert [] + rest == rest;
        PausesFrom(s0, s, h, k + 1, now);
      }
    }
  }

  lemma TextIs(s: State, id: string)
    ensures Streamed(s, id) <==> IsText(s, id)
  {
  }

  lemma PausesOne(s: State, k: nat, now: int)
    requires Valid(s) && k < |s.history| && s.history[k].status.InProgress?
    ensures var e, o := s.history[k], Step(s, Patch(s.history[k].id, Finish, now));
            && o.error.None? && Valid(o.state) && |o.state.history| == |s.history|
            && o.state == s.(history := o.state.history, entries := o.state.entries)
            && o.state.history[k] == e.(status := Complete, updatedAt := now)
            && forall j :: 0 <= j < |s.history| && j != k ==> o.state.history[j] == s.history[j]
  {
    hide Step, Valid, ById, UniqueIds;
    var e := s.history[k];
    InIndex(s);
    ByIdAt(s.history, k);
    PatchIs(s, e.id, Finish, now);
    IdsApart(s.history, k);
  }

  lemma IdsApart(h: seq<Entry>, k: nat)
    requires UniqueIds(h) && k < |h|
    ensures forall j :: 0 <= j < |h| && j != k ==> h[j].id != h[k].id
  {
  }

  /** A call first completes the streamed texts, then starts its effect, if it was
      presented. */
  lemma CallIs(s: State, callId: string, title: string, presented: Option<Json>, newId: string, now: int)
    requires Valid(s)
    ensures var o := Project(s, ToolCall(callId, title, presented), newId, now);
            exists s1 :: Paused(s, s1, now) &&
              match presented
              case None => o == Outcome(s1, [], Some(MissingPresentation))
              case Some(detail) =>
                var then' := Project(s1, StartEffect(callId, title, detail), newId, now);
                && o.state == then'.state && o.error == then'.error
                && (o.error.Some? ==> o.updates == [])
  {
    hide Valid, Paused, FinishCmds, EffectCmds, Exec, Step;
    var a, finish := ToolCall(callId, title, presented), FinishCmds(s, s.history, now);
    assert s.history[0..] == s.history;
    PausesFrom(s, s, s.history, 0, now);
    var s1 := Exec(s, finish).state;
    assert Paused(s, s1, now) by { PausedIs(s, s1, now); }
    match presented {
      case None =>
        ExecConcat(s, finish, [Raise(MissingPresentation)]);
        ExecOne(s1, Raise(MissingPresentation));
        StepRaises(s1, MissingPresentation);
      case Some(detail) =>
        ExecConcat(s, finish, EffectCmds(s, callId, title, detail, now));
        SameCmds(s, s1, callId, title, detail, now);
    }
  }

  lemma SameCmds(s: State, s1: State, callId: string, title: string, detail: Json, now: int)
    requires s1 == s.(history := s1.history, entries := s1.entries)
    ensures EffectCmds(s1, callId, title, detail, now) == EffectCmds(s, callId, title, detail, now)
  {
  }

  lemma PausedIs(s: State, t: State, now: int)
    requires t == s.(history := t.history, entries := t.entries) && |t.history| == |s.history|
    requires forall i :: 0 <= i < |s.history| ==>
               t.history[i] == if s.history[i].status.InProgress? && IsText(s, s.history[i].id)
                               then s.history[i].(status := Complete, updatedAt := now) else s.history[i]
    ensures Paused(s, t, now)
  {
  }

  // ---- subagents -----------------------------------------------------------

  /** The effect of a subagent: its detail has a child, which may be null. */
  predicate IsSubagent(s: State, callId: string) {
    && Known(s, Effects, callId) && s.ids[(Effects, callId)] in s.entries
    && var b := s.entries[s.ids[(Effects, callId)]].body;
    b.Effect? && b.detail.Obj? && "childSessionId" in b.detail.fields
  }

  function Child(s: State, callId: string): Json
    requires IsSubagent(s, callId)
  {
    s.entries[s.ids[(Effects, callId)]].body.detail.fields["childSessionId"]
  }

  /** The effect, if it is in progress, gets another child. */
  predicate Relinked(s: State, o: Outcome, callId: string, child: Json, now: int)
    requires IsSubagent(s, callId)
  {
    var id := s.ids[(Effects, callId)];
    var e, b := s.entries[id], s.entries[id].body;
    if e.status.InProgress? then
      o.error == None
      && Only(s, o.state, id,
              e.(body := Effect(b.title, Obj(b.detail.fields["childSessionId" := child]), b.state), updatedAt := now))
    else Refused(s, o)
  }

  lemma {:induction false} Relinks(s: State, a: Action, newId: string, now: int, callId: string, child: Json)
    requires Valid(s) && IsSubagent(s, callId)
    requires Commands(s, a, newId, now) == [Patch(s.ids[(Effects, callId)], Adopt(child), now)]
    ensures Relinked(s, Project(s, a, newId, now), callId, child, now)
  {
    hide Valid, Commands, Exec;
    OnePatch(s, a, newId, now, s.ids[(Effects, callId)], Adopt(child));
  }

  /** A link is made once and moves only from the child it names; making or taking
      it away again does nothing. */
  lemma LinksAre(s: State, a: Action, newId: string, now: int)
    requires Valid(s) && (a.LinkSubagent? || a.ReplaceSubagent? || a.UnlinkSubagent?)
    ensures var o := Project(s, a, newId, now);
            if !IsSubagent(s, a.callId) then Refused(s, o)
            else
              var child := Child(s, a.callId);
              match a
              case LinkSubagent(_, to) =>
                if child == Null then Relinked(s, o, a.callId, Str(to), now)
                else if child == Str(to) then o == Outcome(s, [], None) else o == Outcome(s, [], Some(AlreadyLinked))
              case ReplaceSubagent(_, from, to) =>
                if child == Str(from) then Relinked(s, o, a.callId, Str(to), now)
                else o == Outcome(s, [], Some(OtherChild))
              case UnlinkSubagent(_, from) =>
                if child == Str(from) then Relinked(s, o, a.callId, Null, now)
                else if child == Null then o == Outcome(s, [], None) else o == Outcome(s, [], Some(OtherChild))
              case _ => false
  {
    hide Valid, Relinked, Exec, Step;
    if !IsSubagent(s, a.callId) {
      var cs := Commands(s, a, newId, now);
      assert |cs| == 1 && cs[0].Raise?;
      RaiseIs(s, a, newId, now, cs[0].error);
    } else {
      OwnId(s, s.ids[(Effects, a.callId)]);
      var cs := Commands(s, a, newId, now);
      if cs == [] {
        assert Exec(s, []) == Outcome(s, [], None) by { NothingDone(s); }
      } else if cs[0].Raise? {
        RaiseIs(s, a, newId, now, cs[0].error);
      } else {
        Relinks(s, a, newId, now, a.callId, cs[0].change.child);
      }
    }
  }

  lemma NothingDone(s: State)
    ensures Exec(s, []) == Outcome(s, [], None)
  {
  }

  // ---- the preview over a run ----------------------------------------------

  lemma {:induction false} FinishNoPreview(s: State, h: seq<Entry>, now: int)
    ensures forall i :: 0 <= i < |FinishCmds(s, h, now)| ==> !FinishCmds(s, h, now)[i].SetPreview?
  {
    if h != [] { FinishNoPreview(s, h[1..], now); }
  }

  lemma {:induction false} ClosingNoPreview(h: seq<Entry>, cancelled: bool, now: int)
    ensures forall i :: 0 <= i < |ClosingCmds(h, cancelled, now)| ==> !ClosingCmds(h, cancelled, now)[i].SetPreview?
  {
    if h != [] { ClosingNoPreview(h[1..], cancelled, now); }
  }

  lemma NoPreview(s: State, a: Action, newId: string, now: int)
    requires !a.UserMessage?
    ensures forall i :: 0 <= i < |Commands(s, a, newId, now)| ==> !Commands(s, a, newId, now)[i].SetPreview?
  {
    hide FinishCmds, ClosingCmds;
    if a.Finalize? { ClosingNoPreview(s.history, a.cancelled, now); }
    if a.ToolCall? { FinishNoPreview(s, s.history, now); }
  }

  lemma {:induction false} ExecPreview(s: State, cs: seq<Cmd>)
    requires forall i :: 0 <= i < |cs| ==> !cs[i].SetPreview?
    ensures Exec(s, cs).state.preview == s.preview
    decreases |cs|
  {
    if cs != [] && Step(s, cs[0]).error.None? { ExecPreview(Step(s, cs[0]).state, cs[1..]); }
  }

  /** The text of the first user message of a run that has one and is taken. */
  function FirstText(s: State, calls: seq<Call>): string
    decreases |calls|
  {
    if calls == [] then ""
    else
      var a := calls[0].action;
      if a.UserMessage? && a.text != "" && a.userMessageId !in s.entries then a.text
      else FirstText(Do(s, calls[0]).state, calls[1..])
  }

  lemma PreviewStep(s: State, c: Call)
    ensures var t, a := Do(s, c).state, c.action;
            if s.preview == "" && a.UserMessage? && a.text != "" && a.userMessageId !in s.entries
            then t.preview != "" && t.preview == a.text[..if |a.text| < 160 then |a.text| else 160]
            else t.preview == s.preview
  {
    hide Commands, Exec;
    if c.action.UserMessage? {
      UserMessageIs(s, c.action.userMessageId, c.action.content, c.action.source, c.action.display, c.action.text,
                    c.newId, c.now);
    } else {
      NoPreview(s, c.action, c.newId, c.now);
      ExecPreview(s, Commands(s, c.action, c.newId, c.now));
    }
  }

  lemma {:induction false} PreviewStays(s: State, calls: seq<Call>)
    requires s.preview != ""
    ensures After(s, calls).preview == s.preview
    decreases |calls|
  {
    hide Do;
    if calls != [] {
      PreviewStep(s, calls[0]);
      PreviewStays(Do(s, calls[0]).state, calls[1..]);
    }
  }

  /** Main result: over any run the preview of a session without one becomes the
      start of its first user message that has a text, and then stays. */
  lemma {:induction false} PreviewIsFirstText(s: State, calls: seq<Call>)
    requires s.preview == ""
    ensures var text := FirstText(s, calls);
            After(s, calls).preview == text[..if |text| < 160 then |text| else 160]
    decreases |calls|
  {
    hide Do;
    if calls != [] {
      var s1 := Do(s, calls[0]).state;
      PreviewStep(s, calls[0]);
      if s1.preview != "" { PreviewStays(s1, calls[1..]); } else { PreviewIsFirstText(s1, calls[1..]); }
    }
  }
}
