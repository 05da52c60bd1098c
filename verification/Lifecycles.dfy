/** What pairs and sequences of actions amount to for the entries they are
    about: callbacks and the effects they block, effects and their output,
    subagents and their links. */
module Lifecycles {
  import opened Prelude
  import opened Json
  import opened Entries
  import opened Changes
  import opened Projection
  import opened ProjectorFacts
  import opened Projector

  /** One command that patches a known entry in progress. */
  lemma PatchesOne(s: State, id: string, change: Change, now: int)
    requires Valid(s) && id in s.entries && s.entries[id].status.InProgress?
        && Changed(s.entries[id], change, now).Some?
    ensures var o := Step(s, Patch(id, change, now));
            && o.error == None && Valid(o.state) && o.state.ids == s.ids
            && o.state.entries == s.entries[id := Changed(s.entries[id], change, now).value]
            && o.updates == [Updated(s.sessionId, id, Ops(change, now))]
  {
    hide Step, Valid, Changed;
    PatchStep(s, id, change, now);
    PatchKeepsValid(s, id, change, now);
  }

  lemma CreatesOne(s: State, e: Entry)
    requires Valid(s) && e.id !in s.entries && EntryOk(e, s.sessionId, s.turnId)
    ensures var o := Step(s, Create(e));
            o.error == None && Valid(o.state) && o.state.ids == s.ids && o.state.entries == s.entries[e.id := e]
            && o.state.sessionId == s.sessionId && o.state.turnId == s.turnId
  {
    AddKeepsValid(s, e);
  }

  lemma RememberValid(s: State, t: Table, key: string, id: string)
    requires Valid(s)
    ensures Valid(s.(ids := s.ids[(t, key) := id]))
  {
  }

  // ---- callbacks -----------------------------------------------------------

  predicate RunningEffect(s: State, id: string) {
    id in s.entries && s.entries[id].status.InProgress? && s.entries[id].body.Effect?
  }

  /** The entry with only its effect state and its stamp changed. */
  function InState(e: Entry, state: EffectState, now: int): Entry
    requires e.body.Effect?
  {
    e.(body := Effect(e.body.title, e.body.detail, state), updatedAt := now)
  }

  /** The entry of a callback as it is opened about an effect. */
  function Opened(s: State, callbackId: string, title: string, detail: Json, effectId: string, now: int): (e: Entry)
    ensures e.body.Callback?
  {
    Fields(s, CallbackEntryId(callbackId), InProgress, Some(effectId), Callback(callbackId, title, detail, Open), now)
  }

  function OutputWhileBlocked(state: EffectState): string { if state.Blocked? then state.outputText else "" }

  /** Opening a callback about a running effect adds the callback, open, and
      blocks the effect; nothing else changes. */
  lemma OpeningBlocks(s: State, callbackId: string, title: string, detail: Json, effectId: string, newId: string,
                      now: int)
    requires Valid(s) && RunningEffect(s, effectId) && CallbackEntryId(callbackId) !in s.entries
    ensures var o := Project(s, OpenCallback(callbackId, title, detail, Some(effectId)), newId, now);
            var id := CallbackEntryId(callbackId);
            && o.error == None && Valid(o.state) && o.state.ids == s.ids[(Callbacks, callbackId) := id]
            && o.state.entries == s.entries
                 [id := Opened(s, callbackId, title, detail, effectId, now)]
                 [effectId := InState(s.entries[effectId], Blocked(callbackId, ""), now)]
  {
    hide Step, Valid;
    var id := CallbackEntryId(callbackId);
    var e := Opened(s, callbackId, title, detail, effectId, now);
    var block := Patch(effectId, EffectTo(Blocked(callbackId, "")), now);
    var s1 := s.(ids := s.ids[(Callbacks, callbackId) := id]);
    RememberValid(s, Callbacks, callbackId, id);
    CreatesOne(s1, e);
    var s2 := Step(s1, Create(e)).state;
    PatchesOne(s2, effectId, EffectTo(Blocked(callbackId, "")), now);
    OpenCommands(s, callbackId, title, detail, effectId, newId, now);
    ExecConcat(s, [Remember(Callbacks, callbackId, id)], [Create(e), block]);
    ExecOne(s, Remember(Callbacks, callbackId, id));
    RememberStep(s, Callbacks, callbackId, id);
    ExecTwo(s1, Create(e), block);
    assert [Remember(Callbacks, callbackId, id)] + [Create(e), block]
        == [Remember(Callbacks, callbackId, id), Create(e), block];
  }

  lemma RememberStep(s: State, t: Table, key: string, id: string)
    ensures Step(s, Remember(t, key, id)) == Outcome(s.(ids := s.ids[(t, key) := id]), [], None)
  {
  }

  lemma OpenCommands(s: State, callbackId: string, title: string, detail: Json, effectId: string, newId: string,
                     now: int)
    requires effectId in s.entries
    ensures var id := CallbackEntryId(callbackId);
            Commands(s, OpenCallback(callbackId, title, detail, Some(effectId)), newId, now)
            == [Remember(Callbacks, callbackId, id),
                Create(Fields(s, id, InProgress, Some(effectId), Callback(callbackId, title, detail, Open), now)),
                Patch(effectId, EffectTo(Blocked(callbackId, "")), now)]
  {
  }

  /** The callback in progress that blocks an effect. */
  predicate Blocking(s: State, callbackId: string, id: string, effectId: string) {
    && (Callbacks, callbackId) in s.ids && s.ids[(Callbacks, callbackId)] == id
    && id in s.entries && s.entries[id].status.InProgress? && s.entries[id].body.Callback?
    && s.entries[id].related == Some(effectId) && RunningEffect(s, effectId)
  }

  function Answering(e: Entry, output: Json, now: int): Entry
    requires e.body.Callback?
  {
    e.(body := Callback(e.body.callbackId, e.body.title, e.body.detail, Answered(output)), updatedAt := now,
        status := Complete)
  }

  /** Answering it completes the callback and lets the effect run on with the
      output it got while blocked; nothing else changes. */
  lemma AnsweringUnblocks(s: State, callbackId: string, id: string, effectId: string, output: Json, newId: string,
                          now: int)
    requires Valid(s) && Blocking(s, callbackId, id, effectId)
    ensures var o := Project(s, ResolveCallback(callbackId, output), newId, now);
            var state := s.entries[effectId].body.state;
            && o.error == None && Valid(o.state) && o.state.ids == s.ids
            && o.state.entries == s.entries
                 [id := Answering(s.entries[id], output, now)]
                 [effectId := InState(s.entries[effectId], Running(OutputWhileBlocked(state)), now)]
  {
    hide Step, Valid;
    var state := s.entries[effectId].body.state;
    var on := EffectTo(Running(OutputWhileBlocked(state)));
    var settle := SettleCallback(Answered(output));
    PatchesOne(s, id, settle, now);
    var s1 := Step(s, Patch(id, settle, now)).state;
    PatchesOne(s1, effectId, on, now);
    SameId(s, effectId);
    assert Commands(s, ResolveCallback(callbackId, output), newId, now)
        == [Patch(id, settle, now), Patch(effectId, on, now)];
    ExecTwo(s, Patch(id, settle, now), Patch(effectId, on, now));
  }

  lemma SameId(s: State, id: string)
    requires Valid(s) && id in s.entries
    ensures s.entries[id].id == id
  {
    ByIdIs(s.history);
  }

  /** Main result: a callback opened about a running effect and then answered
      leaves the effect as it was, stamp apart, exactly when it had no output
      yet: what it had streamed before the callback is gone. */
  lemma CallbackRoundTrip(s: State, callbackId: string, title: string, detail: Json, effectId: string, output: Json,
                          newId: string, now: int, later: int)
    requires Valid(s) && RunningEffect(s, effectId) && CallbackEntryId(callbackId) !in s.entries
    ensures var s1 := Project(s, OpenCallback(callbackId, title, detail, Some(effectId)), newId, now).state;
            var o := Project(s1, ResolveCallback(callbackId, output), newId, later);
            var id := CallbackEntryId(callbackId);
            && o.error == None
            && o.state.entries == s.entries
                 [id := Answering(Opened(s, callbackId, title, detail, effectId, now), output, later)]
                 [effectId := InState(s.entries[effectId], Running(""), later)]
            && (o.state.entries[effectId].body == s.entries[effectId].body
                <==> s.entries[effectId].body.state == Running(""))
  {
    hide Project, Valid;
    var id := CallbackEntryId(callbackId);
    OpeningBlocks(s, callbackId, title, detail, effectId, newId, now);
    var s1 := Project(s, OpenCallback(callbackId, title, detail, Some(effectId)), newId, now).state;
    assert id != effectId;
    AnsweringUnblocks(s1, callbackId, id, effectId, output, newId, later);
    var made := Project(s1, ResolveCallback(callbackId, output), newId, later).state.entries;
    var e := Opened(s, callbackId, title, detail, effectId, now);
    var target :=
      s.entries[id := Answering(e, output, later)][effectId := InState(s.entries[effectId], Running(""), later)];
    assert made.Keys == target.Keys;
    assert forall k :: k in target ==> made[k] == target[k];
    assert made == target;
  }

  // ---- effects and their output --------------------------------------------

  function Joined(chunks: seq<string>): string { if chunks == [] then "" else chunks[0] + Joined(chunks[1..]) }

  function Streamed(s: State, callId: string, chunks: seq<string>, newId: string, now: int): Outcome
    decreases |chunks|
  {
    if chunks == [] then Outcome(s, [], None)
    else
      var first := Project(s, ToolStream(callId, chunks[0]), newId, now);
      if first.error.Some? then first else Streamed(first.state, callId, chunks[1..], newId, now)
  }

  /** The effect entry of a call, in progress and running with some output. */
  predicate Runs(s: State, callId: string, id: string, text: string) {
    && (Effects, callId) in s.ids && s.ids[(Effects, callId)] == id
    && RunningEffect(s, id) && s.entries[id].body.state == Running(text)
  }

  lemma ChunkExtends(s: State, callId: string, id: string, text: string, chunk: string, newId: string, now: int)
    requires Valid(s) && Runs(s, callId, id, text)
    ensures var o := Project(s, ToolStream(callId, chunk), newId, now);
            o.error == None && Valid(o.state) && Runs(o.state, callId, id, text + chunk)
            && o.state.entries == s.entries[id := InState(s.entries[id], Running(text + chunk), now)]
  {
    hide Step, Valid;
    PatchesOne(s, id, Output(chunk), now);
    assert Commands(s, ToolStream(callId, chunk), newId, now) == [Patch(id, Output(chunk), now)];
    ExecOne(s, Patch(id, Output(chunk), now));
  }

  lemma {:induction false} ChunksJoin(s: State, callId: string, id: string, text: string, chunks: seq<string>,
                                      newId: string, now: int)
    requires Valid(s) && Runs(s, callId, id, text)
    ensures var o := Streamed(s, callId, chunks, newId, now);
            && o.error == None && Valid(o.state) && Runs(o.state, callId, id, text + Joined(chunks))
            && (forall k :: k in s.entries && k != id ==> k in o.state.entries && o.state.entries[k] == s.entries[k])
            && o.state.entries[id].body.title == s.entries[id].body.title
                && o.state.entries[id].body.detail == s.entries[id].body.detail
    decreases |chunks|
  {
    hide Project, Valid;
    if chunks == [] {
      assert text + "" == text;
    } else {
      ChunkExtends(s, callId, id, text, chunks[0], newId, now);
      ChunksJoin(Project(s, ToolStream(callId, chunks[0]), newId, now).state, callId, id, text + chunks[0],
          chunks[1..], newId, now);
      assert text + chunks[0] + Joined(chunks[1..]) == text + (chunks[0] + Joined(chunks[1..]));
    }
  }

  lemma SettlesWith(s: State, callId: string, id: string, text: string, title: string, generic: Json,
                    outcome: ToolOutcome, newId: string, now: int)
    requires Valid(s) && Runs(s, callId, id, text) && !outcome.ToolUnpresented?
    ensures var o := Project(s, ToolResult(callId, title, generic, outcome), newId, now);
            o.error == None
            && o.state.entries == s.entries[id := InState(s.entries[id], OutcomeState(outcome, text).value,
                now).(status := Complete)]
  {
    hide Step, Valid;
    var state := OutcomeState(outcome, text).value;
    PatchesOne(s, id, SettleEffect(state), now);
    var last := Patch(id, SettleEffect(state), now);
    assert Commands(s, ToolResult(callId, title, generic, outcome), newId, now) == [] + [last];
    assert [] + [last] == [last];
    ExecOne(s, last);
  }

  /** Main result: an effect that streams any chunks and then gets its result is
      complete, in the state of that result, with all its chunks joined as its
      output, under its own title and detail; no other entry changes. */
  lemma EffectKeepsItsOutput(s: State, callId: string, id: string, chunks: seq<string>, title: string, generic: Json,
                             outcome: ToolOutcome, newId: string, now: int)
    requires Valid(s) && Runs(s, callId, id, "") && !outcome.ToolUnpresented?
    ensures var s1 := Streamed(s, callId, chunks, newId, now);
            var o := Project(s1.state, ToolResult(callId, title, generic, outcome), newId, now);
            && s1.error == None && o.error == None && id in o.state.entries && o.state.entries[id].status.Complete?
            && o.state.entries[id].body
               == Effect(s.entries[id].body.title, s.entries[id].body.detail, OutcomeState(outcome,
                   Joined(chunks)).value)
            && forall k :: k in s.entries && k != id ==> k in o.state.entries && o.state.entries[k] == s.entries[k]
  {
    hide Project, Valid;
    ChunksJoin(s, callId, id, "", chunks, newId, now);
    assert "" + Joined(chunks) == Joined(chunks);
    SettlesWith(Streamed(s, callId, chunks, newId, now).state, callId, id, Joined(chunks), title, generic, outcome,
        newId, now);
  }

  // ---- subagents -----------------------------------------------------------

  /** A subagent's effect, in progress, with this child. */
  predicate Links(s: State, callId: string, id: string, child: Json) {
    && (Effects, callId) in s.ids && s.ids[(Effects, callId)] == id && RunningEffect(s, id)
    && HasChild(s.entries[id].body.detail) && s.entries[id].body.detail.fields["childSessionId"] == child
  }

  function WithChildOf(e: Entry, child: Json, now: int): Entry
    requires e.body.Effect? && HasChild(e.body.detail)
  {
    e.(body := Effect(e.body.title, WithChildSession(e.body.detail, child), e.body.state), updatedAt := now)
  }

  lemma Adopts(s: State, callId: string, id: string, old': Json, child: Json, a: Action, newId: string, now: int)
    requires Valid(s) && Links(s, callId, id, old') && Commands(s, a, newId, now) == [Patch(id, Adopt(child), now)]
    ensures var o := Project(s, a, newId, now);
            o.error == None && Valid(o.state) && Links(o.state, callId, id, child)
            && o.state.entries == s.entries[id := WithChildOf(s.entries[id], child, now)]
  {
    hide Step, Valid, Commands;
    PatchesOne(s, id, Adopt(child), now);
    ExecOne(s, Patch(id, Adopt(child), now));
  }

  /** Linking, moving and unlinking a child each change the link alone; linking
      and then unlinking gives the entry back, stamp apart. */
  lemma LinkRoundTrip(s: State, callId: string, id: string, child: string, newId: string, now: int, later: int)
    requires Valid(s) && Links(s, callId, id, Null)
    ensures var o := Project(s, LinkSubagent(callId, child), newId, now);
            var p := Project(o.state, UnlinkSubagent(callId, child), newId, later);
            && o.error == None && Links(o.state, callId, id, Str(child))
            && p.error == None && p.state.entries == s.entries[id := s.entries[id].(updatedAt := later)]
  {
    hide Project, Valid;
    SameId(s, id);
    Adopts(s, callId, id, Null, Str(child), LinkSubagent(callId, child), newId, now);
    var s1 := Project(s, LinkSubagent(callId, child), newId, now).state;
    SameId(s1, id);
    Adopts(s1, callId, id, Str(child), Null, UnlinkSubagent(callId, child), newId, later);
    var d := s.entries[id].body.detail;
    assert d.fields["childSessionId" := Str(child)]["childSessionId" := Null] == d.fields;
    assert s.entries[id := WithChildOf(s.entries[id], Str(child), now)][id := s.entries[id].(updatedAt := later)]
        == s.entries[id := s.entries[id].(updatedAt := later)];
  }

  lemma ReplaceMovesLink(s: State, callId: string, id: string, old': string, child: string, newId: string, now: int)
    requires Valid(s) && Links(s, callId, id, Str(old'))
    ensures var o := Project(s, ReplaceSubagent(callId, old', child), newId, now);
            o.error == None && Links(o.state, callId, id, Str(child))
            && o.state.entries == s.entries[id := WithChildOf(s.entries[id], Str(child), now)]
  {
    hide Project, Valid;
    SameId(s, id);
    Adopts(s, callId, id, Str(old'), Str(child), ReplaceSubagent(callId, old', child), newId, now);
  }
}
