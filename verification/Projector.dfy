/** The event projector as it runs: fields updated in place, event by event,
    proved against the value-level projection. */
module Projector {
  import opened Prelude
  import opened Json
  import opened Entries
  import opened Changes
  import opened Projection
  import opened ProjectorFacts
  import Client
  import Patch
  import Session

  lemma {:induction false} ExecConcat(s: State, a: seq<Cmd>, b: seq<Cmd>)
    ensures Exec(s, a + b)
         == var first := Exec(s, a);
            if first.error.Some? then first
            else
              var rest := Exec(first.state, b);
              Outcome(rest.state, first.updates + rest.updates, rest.error)
    decreases |a|
  {
    if a == [] {
      assert a + b == b;
      assert [] + Exec(s, b).updates == Exec(s, b).updates;
    } else {
      assert (a + b)[0] == a[0] && (a + b)[1..] == a[1..] + b;
      var first := Step(s, a[0]);
      if first.error.None? {
        ExecConcat(first.state, a[1..], b);
        var mid := Exec(first.state, a[1..]);
        if mid.error.None? {
          assert first.updates + (mid.updates + Exec(mid.state, b).updates)
              == first.updates + mid.updates + Exec(mid.state, b).updates;
        }
      }
    }
  }

  method PatchedEntry(e: Entry, operations: seq<Op>) returns (r: Option<Entry>)
    ensures r == Patched(e, operations)
  {
    hide Dump, Validate, Apply;
    var document := Patch.ApplyJsonPatch(Dump(e), operations);
    if document.None? { return None; }
    return Validate(document.value);
  }

  /** A subagent's effect, or the reason there is none. */
  function Subagent(s: State, callId: string): (r: Result<Entry, Error>)
    ensures r.Ok? ==> r.value.body.Effect? && HasChild(r.value.body.detail)
  {
    if (Effects, callId) !in s.ids then Err(EffectNotFound)
    else if s.ids[(Effects, callId)] !in s.entries then Err(MissingEntry)
    else
      var e := s.entries[s.ids[(Effects, callId)]];
      if e.body.Effect? && HasChild(e.body.detail) then Ok(e) else Err(NotASubagent)
  }

  lemma ExecTwo(s: State, a: Cmd, b: Cmd)
    ensures Exec(s, [a, b])
         == var first := Step(s, a);
            if first.error.Some? then first
            else
              var rest := Step(first.state, b);
              Outcome(rest.state, first.updates + rest.updates, rest.error)
  {
    assert [a, b] == [a] + [b];
    ExecConcat(s, [a], [b]);
    ExecOne(s, a);
    ExecOne(Step(s, a).state, b);
  }

  class EventProjector {
    var sessionId: string
    var turnId: Option<string>
    var sessionPreview: string
    var history: seq<Entry>
    var entries: map<string, Entry>
    /** The assistant, reasoning, effect, checkpoint and callback tables. */
    var ids: map<(Table, string), string>

    function Model(): State
      reads this
    {
      State(sessionId, turnId, sessionPreview, history, entries, ids)
    }

    /** The state, updates and error that running some commands from `pre` leads to. */
    ghost predicate Did(pre: State, cs: seq<Cmd>, updates: seq<Update>, error: Option<Error>)
      reads this
    {
      Outcome(Model(), updates, error) == Exec(pre, cs)
    }

    constructor (sessionId: string, turnId: Option<string>, preview: string)
      ensures Model() == Fresh(sessionId, turnId, preview)
    {
      this.sessionId, this.turnId, sessionPreview := sessionId, turnId, preview;
      history, entries, ids := [], map[], map[];
    }

    method RebindSession(newId: string)
      modifies this
      ensures Model() == Session.RebindLive(old(Model()), newId)
    {
      sessionId := newId;
      history := Rebind(history, newId);
      entries := Client.Index(history);
    }

    method Add(e: Entry) returns (updates: seq<Update>, error: Option<Error>)
      modifies this
      ensures Did(old(Model()), [Create(e)], updates, error)
    {
      ExecOne(Model(), Create(e));
      if e.id in entries { return [], Some(Duplicate); }
      history := history + [e];
      entries := entries[e.id := e];
      return [Added(sessionId, e)], None;
    }

    /** Dump, patch, validate, compare identities, store; nothing changes on error. */
    method PatchWith(id: string, operations: seq<Op>) returns (updates: seq<Update>, error: Option<Error>)
      modifies this
      ensures Outcome(Model(), updates, error) == PatchIn(old(Model()), id, operations)
    {
      hide Patched;
      if id !in entries { return [], Some(MissingEntry); }
      var e := entries[id];
      if e.status.Complete? { return [], Some(Frozen); }
      var updated := PatchedEntry(e, operations);
      if updated.None? { return [], Some(BadPatch); }
      if !SameIdentity(e, updated.value) { return [], Some(IdentityFrozen); }
      Store(id, updated.value);
      return [Updated(sessionId, id, operations)], None;
    }

    method Store(id: string, e: Entry)
      modifies this
      ensures Model() == PutIn(old(Model()), id, e)
    {
      entries := entries[id := e];
      var i := 0;
      while i < |history| && history[i].id != id
        invariant 0 <= i <= |history| && forall j :: 0 <= j < i ==> history[j].id != id
      {
        i := i + 1;
      }
      if i < |history| {
        Client.FirstIndex(history, id, i);
        history := history[i := e];
      }
    }

    method PatchEntry(id: string, change: Change, now: int) returns (updates: seq<Update>, error: Option<Error>)
      modifies this
      ensures Did(old(Model()), [Projection.Patch(id, change, now)], updates, error)
    {
      hide PatchIn;
      ExecOne(Model(), Projection.Patch(id, change, now));
      updates, error := PatchWith(id, Ops(change, now));
    }

    method StartEntry(table: Table, key: string, e: Entry) returns (updates: seq<Update>, error: Option<Error>)
      modifies this
      ensures Did(old(Model()), [Remember(table, key, e.id), Create(e)], updates, error)
    {
      ExecConcat(Model(), [Remember(table, key, e.id)], [Create(e)]);
      ExecOne(Model(), Remember(table, key, e.id));
      ids := ids[(table, key) := e.id];
      updates, error := Add(e);
      assert [] + updates == updates;
    }

    method UserMessageSeen(id: string, content: seq<Block>, source: Json, display: Json, text: string, newId: string,
                           now: int)
      returns (updates: seq<Update>, error: Option<Error>)
      modifies this
      ensures Did(old(Model()), Commands(old(Model()), UserMessage(id, content, source, display, text), newId, now),
          updates, error)
    {
      ghost var pre := Model();
      ghost var cs := Commands(pre, UserMessage(id, content, source, display, text), newId, now);
      var e := Entry(id, sessionId, turnId, now, now, Complete, None, Message("user", content, source, display));
      ExecConcat(pre, [Create(e)], cs[1..]);
      assert cs == [Create(e)] + cs[1..];
      updates, error := Add(e);
      if error.Some? { return; }
      if sessionPreview != "" || text == "" {
        assert updates + [] == updates;
        return;
      }
      var preview := if |text| > 160 then text[..160] else text;
      ExecTwo(Model(), SetPreview(preview), PatchSession);
      assert cs[1..] == [SetPreview(preview), PatchSession];
      sessionPreview := preview;
      updates := updates + [SessionPatched(sessionId)];
    }

    method AssistantChunk(chunk: string, messageId: Option<string>, newId: string, now: int)
      returns (updates: seq<Update>, error: Option<Error>)
      modifies this
      ensures Did(old(Model()), Commands(old(Model()), AssistantText(chunk, messageId), newId, now), updates, error)
    {
      var key := if Given(messageId) then messageId.value else "assistant";
      if (Assistant, key) in ids {
        updates, error := PatchEntry(ids[(Assistant, key)], Content(chunk), now);
      } else {
        var id := if Given(messageId) then messageId.value else newId;
        updates, error := StartEntry(Assistant, key, Entry(id, sessionId, turnId, now, now, InProgress, None,
                                                           Message("assistant", [Text(chunk)], Null, Null)));
      }
    }

    method ReasoningChunk(chunk: string, messageId: Option<string>, newId: string, now: int)
      returns (updates: seq<Update>, error: Option<Error>)
      modifies this
      ensures Did(old(Model()), Commands(old(Model()), ReasoningText(chunk, messageId), newId, now), updates, error)
    {
      var key := if Given(messageId) then messageId.value else "reasoning";
      if (Reasonings, key) in ids {
        updates, error := PatchEntry(ids[(Reasonings, key)], Reason(chunk), now);
      } else {
        var id := if Given(messageId) then messageId.value else newId;
        updates, error := StartEntry(Reasonings, key, Entry(id, sessionId, turnId, now, now, InProgress, None,
                                                            Reasoning(chunk, Arr([]))));
      }
    }

    method EffectStarted(callId: string, title: string, detail: Json, now: int)
      returns (updates: seq<Update>, error: Option<Error>)
      modifies this
      ensures Did(old(Model()), EffectCmds(old(Model()), callId, title, detail, now), updates, error)
    {
      if (Effects, callId) in ids && ids[(Effects, callId)] != "" {
        updates, error := PatchEntry(ids[(Effects, callId)], Detail(detail), now);
      } else {
        updates, error := StartEntry(Effects, callId, Entry(callId, sessionId, turnId, now, now, InProgress, None,
                                                            Effect(title, detail, Running(""))));
      }
    }

    /** Completes, in history order, the streamed entries still in progress. */
    method CompleteStreamedText(now: int) returns (updates: seq<Update>, error: Option<Error>)
      modifies this
      ensures Did(old(Model()), FinishCmds(old(Model()), old(history), now), updates, error)
    {
      hide Step;
      ghost var pre := Model();
      var snapshot, tables := history, ids;
      updates, error := [], None;
      assert snapshot[0..] == snapshot;
      for i := 0 to |snapshot|
        invariant error == None
        invariant var rest := Exec(Model(), FinishCmds(pre, snapshot[i..], now));
                  Exec(pre, FinishCmds(pre, snapshot, now)) == Outcome(rest.state, updates + rest.updates, rest.error)
      {
        var e := snapshot[i];
        ghost var later := FinishCmds(pre, snapshot[i + 1..], now);
        assert snapshot[i..][0] == e && snapshot[i..][1..] == snapshot[i + 1..];
        if (exists k :: k in tables && (k.0.Assistant? || k.0.Reasonings?) && tables[k] == e.id)
            && e.status.InProgress? {
          ghost var here, told := Model(), updates;
          var update;
          update, error := PatchEntry(e.id, Finish, now);
          updates := updates + update;
          ExecConcat(here, [Projection.Patch(e.id, Finish, now)], later);
          if error.Some? { return; }
          assert told + (update + Exec(Model(), later).updates) == updates + Exec(Model(), later).updates;
        } else {
          assert [] + later == later;
        }
      }
      assert updates + [] == updates;
    }

    method ToolCalled(callId: string, title: string, presented: Option<Json>, newId: string, now: int)
      returns (updates: seq<Update>, error: Option<Error>)
      modifies this
      ensures Did(old(Model()), Commands(old(Model()), ToolCall(callId, title, presented), newId, now), updates, error)
    {
      ghost var pre := Model();
      ghost var tail := if presented.None? then [Raise(MissingPresentation)] else EffectCmds(pre, callId, title,
                                                       presented.value, now);
      ExecConcat(pre, FinishCmds(pre, history, now), tail);
      updates, error := CompleteStreamedText(now);
      if error.None? {
        FinishedApart(pre, now);
        if presented.None? {
          ExecOne(Model(), Raise(MissingPresentation));
          assert updates + [] == updates;
          error := Some(MissingPresentation);
        } else {
          var update;
          update, error := EffectStarted(callId, title, presented.value, now);
          updates := updates + update;
        }
      }
    }

    method EffectOutput(callId: string, chunk: string, newId: string, now: int)
      returns (updates: seq<Update>, error: Option<Error>)
      modifies this
      ensures Did(old(Model()), Commands(old(Model()), ToolStream(callId, chunk), newId, now), updates, error)
    {
      hide PatchIn;
      if (Effects, callId) !in ids {
        ExecOne(Model(), Raise(EffectNotFound));
        return [], Some(EffectNotFound);
      }
      updates, error := PatchEntry(ids[(Effects, callId)], Output(chunk), now);
    }

    method EffectCompleted(callId: string, state: EffectState, newId: string, now: int)
      returns (updates: seq<Update>, error: Option<Error>)
      modifies this
      ensures Did(old(Model()), Commands(old(Model()), CompleteEffect(callId, state), newId, now), updates, error)
    {
      hide PatchIn;
      if (Effects, callId) !in ids {
        ExecOne(Model(), Raise(EffectNotFound));
        return [], Some(EffectNotFound);
      }
      updates, error := PatchEntry(ids[(Effects, callId)], SettleEffect(state), now);
    }

    /** A result without a call first brings the effect into being. */
    method ToolFinished(callId: string, title: string, generic: Json, outcome: ToolOutcome, newId: string, now: int)
      returns (updates: seq<Update>, error: Option<Error>)
      modifies this
      ensures Did(old(Model()), Commands(old(Model()), ToolResult(callId, title, generic, outcome), newId, now),
          updates, error)
    {
      hide PatchIn;
      ghost var pre := Model();
      ghost var cs := Commands(pre, ToolResult(callId, title, generic, outcome), newId, now);
      ghost var done: seq<Cmd> := [];
      updates, error := [], None;
      var id := callId;
      if (Effects, callId) in ids {
        id := ids[(Effects, callId)];
        if id !in entries {
          assert cs == [Raise(MissingEntry)] + cs[1..];
          ExecConcat(pre, [Raise(MissingEntry)], cs[1..]);
          ExecOne(pre, Raise(MissingEntry));
          return [], Some(MissingEntry);
        }
      } else {
        var e := Entry(callId, sessionId, turnId, now, now, InProgress, None, Effect(title, generic, Running("")));
        done := [Remember(Effects, callId, callId), Create(e)];
        assert cs == done + cs[2..];
        ExecConcat(pre, done, cs[2..]);
        updates, error := StartEntry(Effects, callId, e);
        if error.Some? { return; }
        StartedEntries(pre, Effects, callId, e);
      }
      var state := OutcomeState(outcome, EntryOutput(entries[id]));
      ghost var last := if state.None? then Raise(MissingPresentation) else Projection.Patch(id,
                                                  SettleEffect(state.value), now);
      assert cs == done + [last];
      ExecConcat(pre, done, [last]);
      if state.None? {
        ExecOne(Model(), Raise(MissingPresentation));
        assert updates + [] == updates;
        return updates, Some(MissingPresentation);
      }
      var update;
      update, error := PatchEntry(id, SettleEffect(state.value), now);
      updates := updates + update;
    }

    method CompactionStarted(callId: string, details: Json, newId: string, now: int)
      returns (updates: seq<Update>, error: Option<Error>)
      modifies this
      ensures Did(old(Model()), Commands(old(Model()), CompactStart(callId, details), newId, now), updates, error)
    {
      updates, error := StartEntry(Checkpoints, callId,
        Entry(callId, sessionId, turnId, now, now, InProgress, None,
              Checkpoint("compaction", Str("Compacting context"), details)));
    }

    /** Without a start, the entry is added and the update about it dropped. */
    method CompactionCompleted(callId: string, details: Json, newId: string, now: int)
      returns (updates: seq<Update>, error: Option<Error>)
      modifies this
      ensures Did(old(Model()), Commands(old(Model()), CompactEnd(callId, details), newId, now), updates, error)
    {
      hide PatchIn;
      ghost var pre := Model();
      var id := if (Checkpoints, callId) in ids then ids[(Checkpoints, callId)] else callId;
      ghost var patch := Projection.Patch(id, Compacted(details), now);
      if id in entries {
        assert Commands(pre, CompactEnd(callId, details), newId, now) == [patch];
        updates, error := PatchEntry(id, Compacted(details), now);
      } else {
        var e := Entry(id, sessionId, turnId, now, now, InProgress, None, Checkpoint("compaction", Null, Null));
        ghost var add := [Remember(Checkpoints, callId, id), CreateSilently(e)];
        assert Commands(pre, CompactEnd(callId, details), newId, now) == add + [patch];
        ExecConcat(pre, add, [patch]);
        ExecTwo(pre, Remember(Checkpoints, callId, id), CreateSilently(e));
        ids := ids[(Checkpoints, callId) := id];
        ExecOne(Model(), Create(e));
        var _, _ := Add(e);
        assert Model() == Exec(pre, add).state && Exec(pre, add).updates == [] && Exec(pre, add).error == None;
        updates, error := PatchEntry(id, Compacted(details), now);
        assert [] + updates == updates;
      }
    }

    method NoticeSeen(message: string, detail: Json, titled: bool, newId: string, now: int)
      returns (updates: seq<Update>, error: Option<Error>)
      modifies this
      ensures Did(old(Model()),
                  Commands(old(Model()), if titled then TitleUpdated(message, detail)
                      else NoticeShown(message, detail), newId, now),
                  updates, error)
    {
      var e := Entry(newId, sessionId, turnId, now, now, Complete, None, Notice("info", message, detail));
      ExecTwo(Model(), Create(e), PatchSession);
      ExecOne(Model(), Create(e));
      updates, error := Add(e);
      if titled && error.None? { updates := updates + [SessionPatched(sessionId)]; }
    }

    method CallbackOpened(callbackId: string, title: string, detail: Json, related: Option<string>, newId: string,
                          now: int)
      returns (updates: seq<Update>, error: Option<Error>)
      modifies this
      ensures Did(old(Model()), Commands(old(Model()), OpenCallback(callbackId, title, detail, related), newId, now),
          updates, error)
    {
      hide PatchIn;
      ghost var pre := Model();
      ghost var cs := Commands(pre, OpenCallback(callbackId, title, detail, related), newId, now);
      var id := CallbackEntryId(callbackId);
      var e := Entry(id, sessionId, turnId, now, now, InProgress, related, Callback(callbackId, title, detail, Open));
      assert cs == [Remember(Callbacks, callbackId, id), Create(e)] + cs[2..];
      ExecConcat(pre, [Remember(Callbacks, callbackId, id), Create(e)], cs[2..]);
      updates, error := StartEntry(Callbacks, callbackId, e);
      if error.Some? { return; }
      Created(pre, callbackId, e);
      assert entries == pre.entries[id := e] by { StartedEntries(pre, Callbacks, callbackId, e); }
      if related.Some? && related.value in entries {
        ghost var told := updates;
        var update;
        update, error := PatchEntry(related.value, EffectTo(Blocked(callbackId, "")), now);
        updates := updates + update;
      } else {
        assert updates + [] == updates;
      }
    }

    method CallbackResolved(callbackId: string, output: Json, newId: string, now: int)
      returns (updates: seq<Update>, error: Option<Error>)
      modifies this
      ensures Did(old(Model()), Commands(old(Model()), ResolveCallback(callbackId, output), newId, now), updates, error)
    {
      hide PatchIn;
      ghost var pre := Model();
      ghost var cs := Commands(pre, ResolveCallback(callbackId, output), newId, now);
      if (Callbacks, callbackId) !in ids { return [], None; }
      var id := ids[(Callbacks, callbackId)];
      ghost var first := Projection.Patch(id, SettleCallback(Answered(output)), now);
      assert cs == [first] + cs[1..];
      ExecConcat(pre, [first], cs[1..]);
      var related := if id in entries then entries[id].related else None;
      updates, error := PatchEntry(id, SettleCallback(Answered(output)), now);
      if error.Some? { return; }
      ExecOne(pre, first);
      PatchedEntries(pre, id, Ops(SettleCallback(Answered(output)), now));
      SettledIsNoEffect(pre, id, Answered(output), now);
      if related.Some? && related.value in entries && entries[related.value].body.Effect? {
        var effect := entries[related.value];
        ghost var told := updates;
        var update;
        update, error := PatchEntry(
          effect.id, EffectTo(Running(if effect.body.state.Blocked? then effect.body.state.outputText else "")), now);
        updates := updates + update;
      } else {
        assert updates + [] == updates;
      }
    }

    method SubagentEffect(callId: string) returns (r: Result<Entry, Error>)
      ensures r == Subagent(Model(), callId)
    {
      if (Effects, callId) !in ids { return Err(EffectNotFound); }
      if ids[(Effects, callId)] !in entries { return Err(MissingEntry); }
      var e := entries[ids[(Effects, callId)]];
      if !e.body.Effect? || !HasChild(e.body.detail) { return Err(NotASubagent); }
      return Ok(e);
    }

    method SubagentLinked(callId: string, child: string, newId: string, now: int)
      returns (updates: seq<Update>, error: Option<Error>)
      modifies this
      ensures Did(old(Model()), Commands(old(Model()), LinkSubagent(callId, child), newId, now), updates, error)
    {
      hide PatchIn;
      var found := SubagentEffect(callId);
      if found.Err? { ExecOne(Model(), Raise(found.error)); return [], Some(found.error); }
      var current := found.value.body.detail.fields["childSessionId"];
      if current == Str(child) { return [], None; }
      if current != Null { ExecOne(Model(), Raise(AlreadyLinked)); return [], Some(AlreadyLinked); }
      updates, error := PatchEntry(found.value.id, Adopt(Str(child)), now);
    }

    method SubagentReplaced(callId: string, child: string, newChild: string, newId: string, now: int)
      returns (updates: seq<Update>, error: Option<Error>)
      modifies this
      ensures Did(old(Model()), Commands(old(Model()), ReplaceSubagent(callId, child, newChild), newId, now),
          updates, error)
    {
      hide PatchIn;
      var found := SubagentEffect(callId);
      if found.Err? { ExecOne(Model(), Raise(found.error)); return [], Some(found.error); }
      var current := found.value.body.detail.fields["childSessionId"];
      if current != Str(child) { ExecOne(Model(), Raise(OtherChild)); return [], Some(OtherChild); }
      updates, error := PatchEntry(found.value.id, Adopt(Str(newChild)), now);
    }

    method SubagentUnlinked(callId: string, child: string, newId: string, now: int)
      returns (updates: seq<Update>, error: Option<Error>)
      modifies this
      ensures Did(old(Model()), Commands(old(Model()), UnlinkSubagent(callId, child), newId, now), updates, error)
    {
      hide PatchIn;
      var found := SubagentEffect(callId);
      if found.Err? { ExecOne(Model(), Raise(found.error)); return [], Some(found.error); }
      var current := found.value.body.detail.fields["childSessionId"];
      if current == Null { return [], None; }
      if current != Str(child) { ExecOne(Model(), Raise(OtherChild)); return [], Some(OtherChild); }
      updates, error := PatchEntry(found.value.id, Adopt(Null), now);
    }

    /** Closes every entry still in progress, in history order. */
    method FinalizeTurn(cancelled: bool, now: int) returns (updates: seq<Update>, error: Option<Error>)
      modifies this
      ensures Did(old(Model()), ClosingCmds(old(history), cancelled, now), updates, error)
    {
      hide Step, Closing;
      ghost var pre := Model();
      var snapshot := history;
      updates, error := [], None;
      assert snapshot[0..] == snapshot;
      for i := 0 to |snapshot|
        invariant error == None
        invariant var rest := Exec(Model(), ClosingCmds(snapshot[i..], cancelled, now));
                  Exec(pre, ClosingCmds(snapshot, cancelled, now)) == Outcome(rest.state, updates + rest.updates,
                      rest.error)
      {
        var e := snapshot[i];
        ghost var later := ClosingCmds(snapshot[i + 1..], cancelled, now);
        assert snapshot[i..][0] == e && snapshot[i..][1..] == snapshot[i + 1..];
        if e.status.InProgress? {
          ghost var here, told := Model(), updates;
          var update;
          update, error := PatchEntry(e.id, Closing(e, cancelled), now);
          updates := updates + update;
          ExecConcat(here, [Projection.Patch(e.id, Closing(e, cancelled), now)], later);
          if error.Some? { return; }
          assert told + (update + Exec(Model(), later).updates) == updates + Exec(Model(), later).updates;
        } else {
          assert [] + later == later;
        }
      }
      assert updates + [] == updates;
    }

    /** One event or harness action.  If it raises, what it had handed out is
        lost and what it had changed stays. */
    method Take(action: Action, newId: string, now: int) returns (updates: seq<Update>, error: Option<Error>)
      modifies this
      ensures Outcome(Model(), updates, error) == Project(old(Model()), action, newId, now)
    {
      hide Exec, ClosingCmds, FinishCmds, EffectCmds, SubagentCmds;
      match action {
        case UserMessage(id, content, source, display, text) => updates, error := UserMessageSeen(id, content,
            source, display, text, newId, now);
        case AssistantText(chunk, messageId) => updates, error := AssistantChunk(chunk, messageId, newId, now);
        case ReasoningText(chunk, messageId) => updates, error := ReasoningChunk(chunk, messageId, newId, now);
        case ToolCall(callId, title, presented) => updates, error := ToolCalled(callId, title, presented, newId, now);
        case ToolStream(callId, chunk) => updates, error := EffectOutput(callId, chunk, newId, now);
        case ToolResult(callId, title, generic, outcome) => updates, error := ToolFinished(callId, title, generic,
            outcome, newId, now);
        case CompactStart(callId, details) => updates, error := CompactionStarted(callId, details, newId, now);
        case CompactEnd(callId, details) => updates, error := CompactionCompleted(callId, details, newId, now);
        case NoticeShown(message, detail) => updates, error := NoticeSeen(message, detail, false, newId, now);
        case TitleUpdated(message, detail) => updates, error := NoticeSeen(message, detail, true, newId, now);
        case OtherEvent => NoCommands(Model()); updates, error := [], None;
        case StartEffect(callId, title, detail) => updates, error := EffectStarted(callId, title, detail, now);
        case CompleteEffect(callId, state) => updates, error := EffectCompleted(callId, state, newId, now);
        case OpenCallback(callbackId, title, detail, related) => updates, error := CallbackOpened(callbackId, title,
            detail, related, newId, now);
        case ResolveCallback(callbackId, output) => updates, error := CallbackResolved(callbackId, output, newId, now);
        case LinkSubagent(callId, child) => updates, error := SubagentLinked(callId, child, newId, now);
        case ReplaceSubagent(callId, child, newChild) => updates, error := SubagentReplaced(callId, child, newChild,
            newId, now);
        case UnlinkSubagent(callId, child) => updates, error := SubagentUnlinked(callId, child, newId, now);
        case Finalize(cancelled) => updates, error := FinalizeTurn(cancelled, now);
      }
      if error.Some? { updates := []; }
    }
  }

  lemma NoCommands(s: State)
    ensures Exec(s, []) == Outcome(s, [], None)
  {
  }

  lemma Created(s: State, key: string, e: Entry)
    requires e.id !in s.entries
    ensures Step(s, Create(e)).state.entries == s.entries[e.id := e]
  {
  }

  lemma StartedEntries(s: State, table: Table, key: string, e: Entry)
    requires Exec(s, [Remember(table, key, e.id), Create(e)]).error.None?
    ensures Exec(s, [Remember(table, key, e.id), Create(e)]).state.entries == s.entries[e.id := e]
  {
    ExecTwo(s, Remember(table, key, e.id), Create(e));
  }

  /** A patch leaves the other entries, and the kind of its own, as they were. */
  lemma PatchedEntries(s: State, id: string, ops: seq<Op>)
    requires PatchIn(s, id, ops).error.None?
    ensures var t := PatchIn(s, id, ops).state;
            && t.entries.Keys == s.entries.Keys
            && (forall k :: k in s.entries && k != id ==> t.entries[k] == s.entries[k])
            && (id in s.entries && KindOf(t.entries[id].body) == KindOf(s.entries[id].body))
  {
    hide Patched;
  }

  lemma SettledIsNoEffect(s: State, id: string, state: CallbackState, now: int)
    requires PatchIn(s, id, Ops(SettleCallback(state), now)).error.None?
    ensures id in s.entries && !s.entries[id].body.Effect?
  {
    hide Patched;
    var e := s.entries[id];
    if e.body.Effect? { PatchMeansChange(e, SettleCallback(state), now); }
  }

  /** Finishing entries leaves the tables alone. */
  lemma FinishedApart(s: State, now: int)
    ensures Exec(s, FinishCmds(s, s.history, now)).state.ids == s.ids
    ensures Exec(s, FinishCmds(s, s.history, now)).state.sessionId == s.sessionId
    ensures Exec(s, FinishCmds(s, s.history, now)).state.turnId == s.turnId
  {
    FinishPatches(s, s.history, now);
    PatchesApart(s, FinishCmds(s, s.history, now));
  }

  lemma {:induction false} FinishPatches(s: State, h: seq<Entry>, now: int)
    ensures forall i :: 0 <= i < |FinishCmds(s, h, now)| ==> FinishCmds(s, h, now)[i].Patch?
  {
    if h != [] { FinishPatches(s, h[1..], now); }
  }

  lemma {:induction false} PatchesApart(s: State, cs: seq<Cmd>)
    requires forall i :: 0 <= i < |cs| ==> cs[i].Patch?
    ensures var t := Exec(s, cs).state; t.ids == s.ids && t.sessionId == s.sessionId && t.turnId == s.turnId
    decreases |cs|
  {
    hide Patched, SameIdentity;
    if cs != [] {
      assert cs[0].Patch?;
      PatchesApart(Step(s, cs[0]).state, cs[1..]);
    }
  }
}
