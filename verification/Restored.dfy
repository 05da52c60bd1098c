/** What loading a session shows of each stored message, entry by entry. */
module Restored {
  import opened Prelude
  import opened Json
  import opened Entries
  import opened History

  // ---- calls and their results ---------------------------------------------

  predicate Calling(m: Stored) { m.role.Assistant? && !m.injected }

  function CallId(c: ToolCall, index: nat): string { if c.id != "" then c.id else HistoryId(index, "effect") }

  /** The last of the calls with an id. */
  function LastIn(calls: seq<ToolCall>, index: nat, id: string): (r: Option<nat>)
    ensures r.Some? ==> r.value < |calls|
  {
    if calls == [] then None
    else match LastIn(calls[1..], index, id)
      case Some(j) => Some(j + 1)
      case None => if CallId(calls[0], index) == id then Some(0) else None
  }

  /** The call an id stands for before message t: message and place in it. */
  function CallAt(ms: seq<Stored>, t: nat, id: string): (r: Option<(nat, nat)>)
    requires t <= |ms|
    ensures r.Some? ==> r.value.0 < t && Calling(ms[r.value.0]) && r.value.1 < |ms[r.value.0].toolCalls|
  {
    if t == 0 then None
    else
      var last := if Calling(ms[t - 1]) then LastIn(ms[t - 1].toolCalls, t - 1, id) else None;
      if last.Some? then Some((t - 1, last.value)) else CallAt(ms, t - 1, id)
  }

  predicate IsResult(m: Stored) { m.role.Tool? && !m.injected }

  /** Message t answers call j of message i. */
  predicate ResultFor(ms: seq<Stored>, i: nat, j: nat, t: nat)
    requires t < |ms|
  {
    IsResult(ms[t]) && CallAt(ms, t, ms[t].toolCallId) == Some((i, j))
  }

  /** The last of the first t messages that answers it. */
  function LastResult(ms: seq<Stored>, t: nat, i: nat, j: nat): (r: Option<nat>)
    requires t <= |ms|
    ensures r.Some? ==> r.value < t
  {
    if t == 0 then None else if ResultFor(ms, i, j, t - 1) then Some(t - 1) else LastResult(ms, t - 1, i, j)
  }

  // ---- where a message's entries are ---------------------------------------

  function Texts(m: Stored): nat { (if m.reasoning != "" then 1 else 0) + (if m.content != "" then 1 else 0) }

  /** How many entries a message adds. */
  function Width(ms: seq<Stored>, i: nat): nat
    requires i < |ms|
  {
    var m := ms[i];
    if m.role.System? then 0
    else if m.injected then if m.shell.Some? then 1 else 0
    else match m.role
      case User => 1
      case Assistant => Texts(m) + |m.toolCalls|
      case Tool => if CallAt(ms, i, m.toolCallId).Some? then 0 else 1
      case System => 0
  }

  function First(ms: seq<Stored>, i: nat): nat
    requires i <= |ms|
  {
    if i == 0 then 0 else First(ms, i - 1) + Width(ms, i - 1)
  }

  // ---- what they show ------------------------------------------------------

  /** A message on whether a thing went well. */
  function Said(success: bool, message: string): Json {
    Obj(map["success" := Bool(success), "message" := Str(message)])
  }

  function Name(detail: Json, field: string): string {
    if detail.Obj? && field in detail.fields && detail.fields[field].Str? then detail.fields[field].s else ""
  }

  /** The state a result gives: its tag decides, else its stored outcome; the text
      of the result is the output in any case. */
  predicate StateSays(state: EffectState, detail: Json, m: Stored) {
    var shown := if m.text != "" then m.text else Name(detail, "toolName") + " completed";
    match m.tag
    case CancellationTag => state == Cancelled(shown, m.text, Said(false, shown))
    case ErrorTag => state == Failed(Obj(map["message" := Str(shown)]), m.text, Said(false, shown))
    case NoTag =>
      match m.persisted
      case None => state == Finished(Null, m.text, Said(true, shown))
      case Some(p) =>
        match p.presentation
        case None =>
          && (p.cancelled ==> state == Cancelled(shown, m.text, Said(true, shown)))
          && (!p.cancelled ==> state.Finished? && state.outputText == m.text && state.display == Said(true, shown)
                               && Outputs(state.output, p, Name(detail, "kind"), None))
        case Some(q) =>
          && (p.cancelled ==> state == Cancelled(q.message, m.text, q.display))
          && (!p.cancelled ==> state.Finished? && state.outputText == m.text && state.display == q.display
                               && Outputs(state.output, p, q.kind, q.projected))
  }

  /** What was shown when it was presented, or else what the kind shows, if it does. */
  predicate Outputs(output: Json, p: Persisted, kind: string, presented: Option<Json>) {
    && (presented.Some? ==> output == presented.value)
    && (presented.None? && kind in p.shown ==> output == p.shown[kind])
    && (presented.None? && kind !in p.shown ==> output == Null)
  }

  /** A call without a result is cancelled, and put out nothing. */
  predicate StateShown(state: EffectState, detail: Json, ms: seq<Stored>, result: Option<nat>)
    requires result.Some? ==> result.value < |ms|
  {
    match result
    case None =>
      state == Cancelled("Tool did not complete before the session ended", "",
                         Said(false, "Tool did not complete before the session ended"))
    case Some(t) => StateSays(state, detail, ms[t])
  }

  function Named(given: Option<string>, index: nat, what: string): string {
    if given.Some? && given.value != "" then given.value else HistoryId(index, what)
  }

  /** Entry k of message i, results among the first t messages counted. */
  predicate EntryShown(ms: seq<Stored>, t: nat, i: nat, k: nat, e: Entry, sessionId: string, start: int)
    requires i < |ms| && t <= |ms| && k < Width(ms, i)
  {
    var m := ms[i];
    if m.injected then
      var shell := m.shell.value;
      e == Entry(shell.operationId, sessionId, None, shell.createdAt, shell.createdAt, Complete, None,
                 Effect("shell", shell.detail, shell.state))
    else
      && e == Entry(e.id, sessionId, None, start + i, start + i, Complete, None, e.body)
      && match m.role
         case System => false
         case User =>
           e.id == Named(m.messageId, i, "user") && e.body == Message("user", m.blocks, Str("harness"), m.display)
         case Tool =>
           && e.id == (if m.toolCallId != "" then m.toolCallId else HistoryId(i, "effect"))
           && e.body.Effect? && e.body.title == (if m.name != "" then m.name else "tool")
           && e.body.detail == m.generic && StateSays(e.body.state, m.generic, m)
         case Assistant =>
           if k == 0 && m.reasoning != "" then
             e.id == Named(m.reasoningId, i, "reasoning") && e.body == Reasoning(m.reasoning, Arr([]))
           else if k < Texts(m) then
             e.id == Named(m.messageId, i, "assistant")
             && e.body == Message("assistant", [Text(m.content)], Str("harness"), Null)
           else
             var c := m.toolCalls[k - Texts(m)];
             && e.id == CallId(c, i) && e.body.Effect? && e.body.title == (if c.name != "" then c.name else "unknown")
             && e.body.detail == c.detail
             && StateShown(e.body.state, c.detail, ms, LastResult(ms, t, i, k - Texts(m)))
  }

  predicate ShownAt(ms: seq<Stored>, t: nat, i: nat, k: nat, es: seq<Entry>, sessionId: string, start: int)
    requires i < |ms| && t <= |ms| && k < Width(ms, i)
  {
    First(ms, i) + k < |es| && EntryShown(ms, t, i, k, es[First(ms, i) + k], sessionId, start)
  }

  ghost predicate AllShown(ms: seq<Stored>, t: nat, es: seq<Entry>, sessionId: string, start: int)
    requires t <= |ms|
  {
    && |es| == First(ms, t)
    && forall i, k :: 0 <= i < t && 0 <= k < Width(ms, i) ==> ShownAt(ms, t, i, k, es, sessionId, start)
  }

  // ---- the proof -----------------------------------------------------------

  lemma {:induction false} FirstGrows(ms: seq<Stored>, i: nat, t: nat)
    requires i <= t <= |ms|
    ensures First(ms, i) <= First(ms, t)
    decreases t
  {
    if i < t { FirstGrows(ms, i, t - 1); }
  }

  /** Entries of different messages are at different places. */
  lemma Apart(ms: seq<Stored>, i: nat, k: nat, i': nat, k': nat)
    requires i < |ms| && i' < |ms| && k < Width(ms, i) && k' < Width(ms, i')
    ensures First(ms, i) + k == First(ms, i') + k' <==> i == i' && k == k'
  {
    hide Width;
    if i < i' { FirstGrows(ms, i + 1, i'); }
    if i' < i { FirstGrows(ms, i' + 1, i); }
  }

  /** The projection knows the calls before message t, and where they are. */
  ghost predicate Places(ms: seq<Stored>, t: nat, calls: map<string, nat>)
    requires t <= |ms|
  {
    forall id ::
      match CallAt(ms, t, id)
      case None => id !in calls
      case Some(call) => id in calls && calls[id] == First(ms, call.0) + Texts(ms[call.0]) + call.1
  }

  lemma {:induction false} WithCallsIs(p: Projected, sessionId: string, calls: seq<ToolCall>, index: nat, at: int)
    ensures var q := WithCalls(p, sessionId, calls, index, at);
            && |q.entries| == |p.entries| + |calls| && q.entries[..|p.entries|] == p.entries
            && (forall j :: 0 <= j < |calls| ==>
                  q.entries[|p.entries| + j]
                  == EffectEntry(sessionId, CallId(calls[j], index),
                                 if calls[j].name != "" then calls[j].name else "unknown", calls[j].detail, at, None))
            && (forall id :: match LastIn(calls, index, id)
                             case None => (id in q.calls <==> id in p.calls)
                                          && (id in p.calls ==> q.calls[id] == p.calls[id])
                             case Some(j) => id in q.calls && q.calls[id] == |p.entries| + j)
    decreases |calls|
  {
    hide EffectEntry;
    if calls != [] {
      var c := calls[0];
      var e := EffectEntry(sessionId, CallId(c, index), if c.name != "" then c.name else "unknown", c.detail, at, None);
      var p1 := Projected(p.entries + [e], p.calls[CallId(c, index) := |p.entries|]);
      var q := WithCalls(p, sessionId, calls, index, at);
      assert q == WithCalls(p1, sessionId, calls[1..], index, at);
      WithCallsIs(p1, sessionId, calls[1..], index, at);
      assert q.entries[..|p.entries|] == q.entries[..|p1.entries|][..|p.entries|];
      assert q.entries[|p.entries|] == q.entries[..|p1.entries|][|p.entries|];
      forall j | 0 < j < |calls|
        ensures q.entries[|p.entries| + j]
             == EffectEntry(sessionId, CallId(calls[j], index),
                            if calls[j].name != "" then calls[j].name else "unknown", calls[j].detail, at, None)
      {
        assert calls[j] == calls[1..][j - 1];
        assert q.entries[|p1.entries| + (j - 1)] == q.entries[|p.entries| + j];
      }
    }
  }

  lemma ResultSays(detail: Json, m: Stored)
    ensures StateSays(ResultState(detail, Some(m)), detail, m)
  {
  }

  lemma NoResultSays(detail: Json, ms: seq<Stored>)
    ensures StateShown(ResultState(detail, None), detail, ms, None)
  {
  }

  /** A message that does not answer its call leaves an entry as it is. */
  lemma ShownKeeps(ms: seq<Stored>, t: nat, i: nat, k: nat, e: Entry, sessionId: string, start: int)
    requires i < t < |ms| && k < Width(ms, i) && EntryShown(ms, t, i, k, e, sessionId, start)
    requires Calling(ms[i]) && k >= Texts(ms[i]) ==> !ResultFor(ms, i, k - Texts(ms[i]), t)
    ensures EntryShown(ms, t + 1, i, k, e, sessionId, start)
  {
    hide StateSays, HistoryId, CallAt;
  }

  lemma ShownAnswered(ms: seq<Stored>, t: nat, i: nat, j: nat, e: Entry, sessionId: string, start: int)
    requires i < t < |ms| && Calling(ms[i]) && j < |ms[i].toolCalls| && ResultFor(ms, i, j, t)
    requires EntryShown(ms, t, i, Texts(ms[i]) + j, e, sessionId, start)
    ensures EntryShown(ms, t + 1, i, Texts(ms[i]) + j, WithResult(e, ms[t]), sessionId, start)
  {
    hide StateSays, HistoryId, CallAt, ResultState;
    ResultSays(e.body.detail, ms[t]);
  }

  /** Entries added behind those there are, none of them answered. */
  lemma ShownBehind(ms: seq<Stored>, t: nat, es: seq<Entry>, added: seq<Entry>, sessionId: string, start: int)
    requires t < |ms| && AllShown(ms, t, es, sessionId, start) && |added| == Width(ms, t)
    requires forall k :: 0 <= k < |added| ==> EntryShown(ms, t + 1, t, k, added[k], sessionId, start)
    requires IsResult(ms[t]) ==> CallAt(ms, t, ms[t].toolCallId).None?
    ensures AllShown(ms, t + 1, es + added, sessionId, start)
  {
    hide EntryShown, Width, CallAt;
    var n, all := t + 1, es + added;
    forall i, k | 0 <= i < n && 0 <= k < Width(ms, i) ensures ShownAt(ms, n, i, k, all, sessionId, start) {
      if i < t {
        assert ShownAt(ms, t, i, k, es, sessionId, start);
        ShownKeeps(ms, t, i, k, es[First(ms, i) + k], sessionId, start);
      }
    }
  }

  lemma OtherPlaces(ms: seq<Stored>, t: nat, calls: map<string, nat>)
    requires t < |ms| && Places(ms, t, calls) && !Calling(ms[t])
    ensures Places(ms, t + 1, calls)
  {
    forall id ensures CallAt(ms, t + 1, id) == CallAt(ms, t, id) {}
  }

  lemma TextsShown(ms: seq<Stored>, t: nat, k: nat, sessionId: string, start: int)
    requires t < |ms| && Calling(ms[t]) && k < Texts(ms[t])
    ensures var texts := AssistantEntries(ms[t], sessionId, t, start + t);
            |texts| == Texts(ms[t]) && k < Width(ms, t) && EntryShown(ms, t + 1, t, k, texts[k], sessionId, start)
  {
    hide HistoryId, StateShown;
  }

  lemma CallShown(ms: seq<Stored>, t: nat, j: nat, sessionId: string, start: int)
    requires t < |ms| && Calling(ms[t]) && j < |ms[t].toolCalls|
    ensures var c := ms[t].toolCalls[j];
            && Texts(ms[t]) + j < Width(ms, t)
            && EntryShown(ms, t + 1, t, Texts(ms[t]) + j,
                          EffectEntry(sessionId, CallId(c, t), if c.name != "" then c.name else "unknown", c.detail,
                                      start + t, None), sessionId, start)
  {
    hide HistoryId, StateShown, ResultState, LastResult;
    NotYet(ms, t, j);
    NoResultSays(ms[t].toolCalls[j].detail, ms);
  }

  /** What a calling message adds. */
  lemma CallingAdds(p: Projected, ms: seq<Stored>, t: nat, sessionId: string, start: int) returns (added: seq<Entry>)
    requires t < |ms| && Calling(ms[t])
    ensures One(p, sessionId, ms[t], t, start + t).entries == p.entries + added && |added| == Width(ms, t)
    ensures forall k :: 0 <= k < |added| ==> EntryShown(ms, t + 1, t, k, added[k], sessionId, start)
    ensures forall id :: match LastIn(ms[t].toolCalls, t, id)
                         case None => (id in One(p, sessionId, ms[t], t, start + t).calls <==> id in p.calls)
                                      && (id in p.calls ==>
                                            One(p, sessionId, ms[t], t, start + t).calls[id] == p.calls[id])
                         case Some(j) => id in One(p, sessionId, ms[t], t, start + t).calls
                                         && One(p, sessionId, ms[t], t, start + t).calls[id]
                                            == |p.entries| + Texts(ms[t]) + j
  {
    hide HistoryId, ResultState, EntryShown, LastIn, AssistantEntries, EffectEntry;
    var m, texts := ms[t], AssistantEntries(ms[t], sessionId, t, start + t);
    assert |texts| == Texts(m) by { TextsAre(ms, t, sessionId, start); }
    var p1, q := p.(entries := p.entries + texts), One(p, sessionId, m, t, start + t);
    WithCallsIs(p1, sessionId, m.toolCalls, t, start + t);
    added := q.entries[|p.entries|..];
    assert q.entries == p1.entries + q.entries[|p1.entries|..];
    forall k | 0 <= k < |added| ensures EntryShown(ms, t + 1, t, k, added[k], sessionId, start) {
      if k < |texts| {
        TextsShown(ms, t, k, sessionId, start);
      } else {
        CallShown(ms, t, k - |texts|, sessionId, start);
        assert added[k] == q.entries[|p1.entries| + (k - |texts|)];
      }
    }
  }

  lemma TextsAre(ms: seq<Stored>, t: nat, sessionId: string, start: int)
    requires t < |ms|
    ensures |AssistantEntries(ms[t], sessionId, t, start + t)| == Texts(ms[t])
  {
    hide HistoryId;
  }

  lemma CallingShown(p: Projected, ms: seq<Stored>, t: nat, sessionId: string, start: int)
    requires t < |ms| && AllShown(ms, t, p.entries, sessionId, start) && Places(ms, t, p.calls) && Calling(ms[t])
    ensures var q := One(p, sessionId, ms[t], t, start + t);
            AllShown(ms, t + 1, q.entries, sessionId, start) && Places(ms, t + 1, q.calls)
  {
    hide AllShown, Places, One, Width, EntryShown, LastIn, First;
    ShownIs(ms, t, p.entries, sessionId, start);
    var added := CallingAdds(p, ms, t, sessionId, start);
    ShownBehind(ms, t, p.entries, added, sessionId, start);
    CallingPlaces(ms, t, p.calls, One(p, sessionId, ms[t], t, start + t).calls);
  }

  lemma ShownIs(ms: seq<Stored>, t: nat, es: seq<Entry>, sessionId: string, start: int)
    requires t <= |ms| && AllShown(ms, t, es, sessionId, start)
    ensures |es| == First(ms, t)
  {
  }

  /** No message before a call answers it, and itself does not. */
  lemma {:induction false} NotBefore(ms: seq<Stored>, t: nat, i: nat, j: nat)
    requires t <= i + 1 <= |ms| && Calling(ms[i])
    ensures LastResult(ms, t, i, j) == None
    decreases t
  {
    hide CallAt;
    if t > 0 { NotBefore(ms, t - 1, i, j); }
  }

  lemma NotYet(ms: seq<Stored>, t: nat, j: nat)
    requires t < |ms| && Calling(ms[t])
    ensures LastResult(ms, t + 1, t, j) == None
  {
    NotBefore(ms, t + 1, t, j);
  }

  lemma CallingPlaces(ms: seq<Stored>, t: nat, calls: map<string, nat>, calls': map<string, nat>)
    requires t < |ms| && Places(ms, t, calls) && Calling(ms[t])
    requires forall id :: match LastIn(ms[t].toolCalls, t, id)
                          case None => (id in calls' <==> id in calls) && (id in calls ==> calls'[id] == calls[id])
                          case Some(j) => id in calls' && calls'[id] == First(ms, t) + Texts(ms[t]) + j
    ensures Places(ms, t + 1, calls')
  {
    hide LastIn, First, Texts;
  }

  lemma ResultShown(p: Projected, ms: seq<Stored>, t: nat, sessionId: string, start: int)
    requires t < |ms| && AllShown(ms, t, p.entries, sessionId, start) && Places(ms, t, p.calls) && IsResult(ms[t])
    ensures var q := One(p, sessionId, ms[t], t, start + t);
            AllShown(ms, t + 1, q.entries, sessionId, start) && Places(ms, t + 1, q.calls)
  {
    hide EntryShown, HistoryId, ResultState, WithResult, First, Width, CallAt;
    var m, call := ms[t], CallAt(ms, t, ms[t].toolCallId);
    OtherPlaces(ms, t, p.calls);
    if call.None? {
      UnknownShown(ms, t, sessionId, start);
      var e := EffectEntry(sessionId, if m.toolCallId != "" then m.toolCallId else HistoryId(t, "effect"),
                           if m.name != "" then m.name else "tool", m.generic, start + t, Some(m));
      ShownBehind(ms, t, p.entries, [e], sessionId, start);
    } else {
      var i, j := call.value.0, call.value.1;
      CallWidth(ms, t, i, j);
      assert ShownAt(ms, t, i, Texts(ms[i]) + j, p.entries, sessionId, start);
      var at := First(ms, i) + (Texts(ms[i]) + j);
      var es := p.entries[at := WithResult(p.entries[at], m)];
      NothingAdded(ms, t);
      var n := t + 1;
      forall i', k | 0 <= i' < n && 0 <= k < Width(ms, i')
        ensures ShownAt(ms, n, i', k, es, sessionId, start)
      {
        assert ShownAt(ms, t, i', k, p.entries, sessionId, start);
        Apart(ms, i, Texts(ms[i]) + j, i', k);
        if i' == i && k == Texts(ms[i]) + j {
          ShownAnswered(ms, t, i, j, p.entries[at], sessionId, start);
        } else {
          ShownKeeps(ms, t, i', k, p.entries[First(ms, i') + k], sessionId, start);
        }
      }
      assert One(p, sessionId, m, t, start + t) == p.(entries := es);
    }
  }

  lemma CallWidth(ms: seq<Stored>, t: nat, i: nat, j: nat)
    requires i < t < |ms| && Calling(ms[i]) && j < |ms[i].toolCalls|
    ensures Texts(ms[i]) + j < Width(ms, i)
  {
  }

  lemma NothingAdded(ms: seq<Stored>, t: nat)
    requires t < |ms| && IsResult(ms[t]) && CallAt(ms, t, ms[t].toolCallId).Some?
    ensures Width(ms, t) == 0 && First(ms, t + 1) == First(ms, t)
  {
  }

  lemma UnknownShown(ms: seq<Stored>, t: nat, sessionId: string, start: int)
    requires t < |ms| && IsResult(ms[t]) && CallAt(ms, t, ms[t].toolCallId).None?
    ensures var m := ms[t];
            Width(ms, t) == 1 &&
            EntryShown(ms, t + 1, t, 0,
                       EffectEntry(sessionId, if m.toolCallId != "" then m.toolCallId else HistoryId(t, "effect"),
                                   if m.name != "" then m.name else "tool", m.generic, start + t, Some(m)),
                       sessionId, start)
  {
    hide HistoryId, ResultState, StateSays;
    ResultSays(ms[t].generic, ms[t]);
  }

  /** Messages that neither call nor answer. */
  lemma PlainShown(p: Projected, ms: seq<Stored>, t: nat, sessionId: string, start: int)
    requires t < |ms| && AllShown(ms, t, p.entries, sessionId, start) && Places(ms, t, p.calls)
    requires !Calling(ms[t]) && !IsResult(ms[t])
    ensures var q := One(p, sessionId, ms[t], t, start + t);
            AllShown(ms, t + 1, q.entries, sessionId, start) && Places(ms, t + 1, q.calls)
  {
    hide AllShown, HistoryId, Places;
    OtherPlaces(ms, t, p.calls);
    var q := One(p, sessionId, ms[t], t, start + t);
    var added := if Width(ms, t) == 0 then [] else [q.entries[|q.entries| - 1]];
    assert q.entries == p.entries + added;
    ShownBehind(ms, t, p.entries, added, sessionId, start);
  }

  lemma OneShown(p: Projected, ms: seq<Stored>, t: nat, sessionId: string, start: int)
    requires t < |ms| && AllShown(ms, t, p.entries, sessionId, start) && Places(ms, t, p.calls)
    ensures var q := One(p, sessionId, ms[t], t, start + t);
            AllShown(ms, t + 1, q.entries, sessionId, start) && Places(ms, t + 1, q.calls)
  {
    hide AllShown, Places, One;
    if Calling(ms[t]) { CallingShown(p, ms, t, sessionId, start); }
    else if IsResult(ms[t]) { ResultShown(p, ms, t, sessionId, start); }
    else { PlainShown(p, ms, t, sessionId, start); }
  }

  lemma {:induction false} FromShown(p: Projected, ms: seq<Stored>, t: nat, sessionId: string, start: int)
    requires t <= |ms| && AllShown(ms, t, p.entries, sessionId, start) && Places(ms, t, p.calls)
    ensures AllShown(ms, |ms|, From(p, sessionId, ms[t..], t, start).entries, sessionId, start)
    decreases |ms| - t
  {
    hide AllShown, Places, One;
    if t < |ms| {
      assert ms[t..][0] == ms[t] && ms[t..][1..] == ms[t + 1..];
      OneShown(p, ms, t, sessionId, start);
      FromShown(One(p, sessionId, ms[t], t, start + t), ms, t + 1, sessionId, start);
    }
  }

  /** Main result: of any stored messages a loaded session shows, in order and
      without a gap, exactly the entries each stands for: nothing of a system
      message or an injected one without a shell; the shell of one that has it;
      the blocks and the display of a user's; of an assistant's its reasoning, its
      content and its calls; and a result whose call is unknown.  A call is in the
      state that the last result for it says, or cancelled without one. */
  lemma HistoryShows(sessionId: string, messages: seq<Stored>, start: int)
    ensures AllShown(messages, |messages|, From(NOTHING, sessionId, messages, 0, start).entries, sessionId, start)
  {
    assert messages[0..] == messages;
    FromShown(NOTHING, messages, 0, sessionId, start);
  }

  // ---- ids of entries without one ------------------------------------------

  lemma {:induction false} DigitsAre(n: nat)
    ensures IsIndex(Digits(n)) && Decimal(Digits(n)) == n && (n > 0 ==> Digits(n)[0] != '0')
  {
    var d := Digits(n);
    if n < 10 {
      assert d[..0] == "" && IsDigit(d[0]);
    } else {
      DigitsAre(n / 10);
      var front := Digits(n / 10);
      assert d[..|d| - 1] == front && IsDigit(d[|d| - 1]);
      forall i | 0 <= i < |d| ensures IsDigit(d[i]) { if i < |front| { assert d[i] == front[i]; } }
      assert d[0] == front[0];
    }
  }

  /** An id made up for an entry names the place of its message, without a sign or a
      leading zero, and what it is; so no two messages get the same. */
  lemma MadeUpIds(i: nat, j: nat, what: string)
    ensures exists digits :: IsIndex(digits) && Decimal(digits) == i
                             && HistoryId(i, what) == "history:" + digits + ":" + what
    ensures HistoryId(i, what) == HistoryId(j, what) ==> i == j
  {
    DigitsAre(i);
    DigitsAre(j);
    assert HistoryId(i, what) == "history:" + Digits(i) + ":" + what;
    if HistoryId(i, what) == HistoryId(j, what) {
      var a, b := HistoryId(i, what), HistoryId(j, what);
      assert |Digits(i)| == |Digits(j)|;
      assert a[8..8 + |Digits(i)|] == Digits(i) && b[8..8 + |Digits(j)|] == Digits(j);
    }
  }
}
