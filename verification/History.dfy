/** Building the public history from stored messages, and cutting it at a user
    message instead of building it again. */
module History {
  import opened Prelude
  import opened Json
  import opened Entries
  import opened Projection

  datatype Role = System | User | Assistant | Tool

  datatype ToolCall = ToolCall(id: string, name: string, detail: Json)

  datatype Tag = CancellationTag | ErrorTag | NoTag

  /** A stored snapshot of how a result was presented: the kind of effect, its
      display with its message, and what was shown of the output, if anything. */
  datatype Presentation = Presentation(kind: string, display: Json, message: string, projected: Option<Json>)

  /** The stored outcome of a tool call.  `shown` has its output as each kind of
      effect shows it. */
  datatype Persisted = Persisted(cancelled: bool, presentation: Option<Presentation>, shown: map<string, Json>)

  datatype Shell = Shell(operationId: string, createdAt: int, detail: Json, state: EffectState)

  /** A stored message.  `text` is the content without its tag; ids may be absent. */
  datatype Stored = Stored(
    role: Role, injected: bool, shell: Option<Shell>,
    messageId: Option<string>, reasoningId: Option<string>, reasoning: string,
    content: string, blocks: seq<Block>, display: Json,
    toolCalls: seq<ToolCall>, toolCallId: string, name: string, generic: Json,
    tag: Tag, text: string, persisted: Option<Persisted>)

  datatype Projected = Projected(entries: seq<Entry>, calls: map<string, nat>)

  function Digits(n: nat): string {
    if n < 10 then [('0' as int + n) as char] else Digits(n / 10) + [('0' as int + n % 10) as char]
  }

  function HistoryId(index: nat, what: string): string { "history:" + Digits(index) + ":" + what }

  function IdOr(id: Option<string>, index: nat, what: string): string {
    if Given(id) then id.value else HistoryId(index, what)
  }

  function UserId(m: Stored, index: nat): string { IdOr(m.messageId, index, "user") }

  function Plain(sessionId: string, id: string, at: int, body: Body): Entry {
    Entry(id, sessionId, None, at, at, Complete, None, body)
  }

  function ReasonShown(reason: string): Json { Obj(map["success" := Bool(false), "message" := Str(reason)]) }

  const UNFINISHED := "Tool did not complete before the session ended"

  function Field(detail: Json, name: string): string {
    if detail.Obj? && name in detail.fields && detail.fields[name].Str? then detail.fields[name].s else ""
  }

  function Display(p: Persisted, message: string): Json {
    match p.presentation
    case Some(shown) => shown.display
    case None => Obj(map["success" := Bool(true), "message" := Str(message)])
  }

  function OutputOf(p: Persisted, kind: string): Json { if kind in p.shown then p.shown[kind] else Null }

  /** The state an effect gets from its result, or from having none.  It depends
      on the effect's detail and on the result, never on the state before. */
  function ResultState(detail: Json, result: Option<Stored>): EffectState {
    match result
    case None => Cancelled(UNFINISHED, "", ReasonShown(UNFINISHED))
    case Some(m) =>
      var shown := if m.text != "" then m.text else Field(detail, "toolName") + " completed";
      if m.tag.CancellationTag? then Cancelled(shown, m.text, ReasonShown(shown))
      else if m.tag.ErrorTag? then Failed(Obj(map["message" := Str(shown)]), m.text, ReasonShown(shown))
      else match m.persisted
        case None => Finished(Null, m.text, Obj(map["success" := Bool(true), "message" := Str(shown)]))
        case Some(p) =>
          var display := Display(p, shown);
          if p.cancelled then
            Cancelled(if p.presentation.Some? then p.presentation.value.message else shown, m.text, display)
          else
            (match p.presentation
             case Some(q) =>
               Finished(if q.projected.Some? then q.projected.value else OutputOf(p, q.kind), m.text, display)
             case None => Finished(OutputOf(p, Field(detail, "kind")), m.text, display))
  }

  function EffectEntry(sessionId: string, id: string, name: string, detail: Json, at: int,
                       result: Option<Stored>): Entry {
    Plain(sessionId, id, at, Effect(name, detail, ResultState(detail, result)))
  }

  function WithCalls(p: Projected, sessionId: string, calls: seq<ToolCall>, index: nat, at: int): Projected
    decreases |calls|
  {
    if calls == [] then p
    else
      var c := calls[0];
      var id := if c.id != "" then c.id else HistoryId(index, "effect");
      var name := if c.name != "" then c.name else "unknown";
      WithCalls(Projected(p.entries + [EffectEntry(sessionId, id, name, c.detail, at, None)],
          p.calls[id := |p.entries|]),
                sessionId, calls[1..], index, at)
  }

  function AssistantEntries(m: Stored, sessionId: string, index: nat, at: int): seq<Entry> {
    (if m.reasoning != "" then [Plain(sessionId, IdOr(m.reasoningId, index, "reasoning"), at, Reasoning(m.reasoning,
        Arr([])))] else [])
    + (if m.content != "" then [Plain(sessionId, IdOr(m.messageId, index, "assistant"), at,
                                      Message("assistant", [Text(m.content)], Str("harness"), Null))] else [])
  }

  predicate AnswersKnown(p: Projected, m: Stored) {
    m.toolCallId in p.calls && p.calls[m.toolCallId] < |p.entries|
  }

  function WithResult(e: Entry, m: Stored): Entry {
    if e.body.Effect? then e.(body := Effect(e.body.title, e.body.detail, ResultState(e.body.detail, Some(m)))) else e
  }

  function One(p: Projected, sessionId: string, m: Stored, index: nat, at: int): Projected {
    if m.role.System? then p
    else if m.injected then
      if m.shell.None? then p
      else p.(entries := p.entries + [Plain(sessionId, m.shell.value.operationId, m.shell.value.createdAt,
                                            Effect("shell", m.shell.value.detail, m.shell.value.state))])
    else match m.role
      case User => p.(entries := p.entries + [Plain(sessionId, UserId(m, index), at, Message("user", m.blocks,
          Str("harness"), m.display))])
      case Assistant =>
        WithCalls(p.(entries := p.entries + AssistantEntries(m, sessionId, index, at)), sessionId, m.toolCalls,
            index, at)
      case Tool =>
        if AnswersKnown(p, m) then
          p.(entries := p.entries[p.calls[m.toolCallId] := WithResult(p.entries[p.calls[m.toolCallId]], m)])
        else
          p.(entries := p.entries + [EffectEntry(sessionId, if m.toolCallId != "" then m.toolCallId
              else HistoryId(index, "effect"),
                                                 if m.name != "" then m.name else "tool", m.generic, at, Some(m))])
  }

  /** The messages from an index on, projected onto what came before. */
  function From(p: Projected, sessionId: string, ms: seq<Stored>, index: nat, start: int): Projected
    decreases |ms|
  {
    if ms == [] then p else From(One(p, sessionId, ms[0], index, start + index), sessionId, ms[1..], index + 1, start)
  }

  const NOTHING := Projected([], map[])

  method ProjectMessageHistory(sessionId: string, messages: seq<Stored>, start: int) returns (entries: seq<Entry>)
    ensures entries == From(NOTHING, sessionId, messages, 0, start).entries
  {
    var p := NOTHING;
    assert messages[0..] == messages;
    for i := 0 to |messages|
      invariant From(NOTHING, sessionId, messages, 0, start) == From(p, sessionId, messages[i..], i, start)
    {
      assert messages[i..][0] == messages[i] && messages[i..][1..] == messages[i + 1..];
      p := One(p, sessionId, messages[i], i, start + i);
    }
    assert messages[|messages|..] == [];
    return p.entries;
  }

  predicate Rewindable(m: Stored) { m.role.User? && !m.injected }

  /** The first user message that was not injected and has the entry's id. */
  method HistoryUserMessageIndex(messages: seq<Stored>, entryId: string) returns (r: Option<nat>)
    ensures match r
            case None =>
              forall i :: 0 <= i < |messages| && Rewindable(messages[i]) ==> UserId(messages[i], i) != entryId
            case Some(k) => && k < |messages| && Rewindable(messages[k]) && UserId(messages[k], k) == entryId
                            && forall i :: 0 <= i < k && Rewindable(messages[i]) ==> UserId(messages[i], i) != entryId
  {
    for i := 0 to |messages|
      invariant forall j :: 0 <= j < i && Rewindable(messages[j]) ==> UserId(messages[j], j) != entryId
    {
      if !Rewindable(messages[i]) { continue; }
      if UserId(messages[i], i) == entryId { return Some(i); }
    }
    return None;
  }

  // ---- what later messages do to earlier entries ---------------------------

  lemma {:induction false} FromSplits(p: Projected, sessionId: string, a: seq<Stored>, b: seq<Stored>, index: nat,
                                      start: int)
    ensures From(p, sessionId, a + b, index, start) == From(From(p, sessionId, a, index, start), sessionId, b,
        index + |a|, start)
    decreases |a|
  {
    if a == [] {
      assert a + b == b;
    } else {
      assert (a + b)[0] == a[0] && (a + b)[1..] == a[1..] + b;
      FromSplits(One(p, sessionId, a[0], index, start + index), sessionId, a[1..], b, index + 1, start);
    }
  }

  lemma {:induction false} WithCallsGrows(p: Projected, sessionId: string, calls: seq<ToolCall>, index: nat, at: int)
    ensures p.entries <= WithCalls(p, sessionId, calls, index, at).entries
    decreases |calls|
  {
    if calls != [] {
      var c := calls[0];
      var id := if c.id != "" then c.id else HistoryId(index, "effect");
      var name := if c.name != "" then c.name else "unknown";
      WithCallsGrows(Projected(p.entries + [EffectEntry(sessionId, id, name, c.detail, at, None)],
          p.calls[id := |p.entries|]),
                     sessionId, calls[1..], index, at);
    }
  }

  /** The message answers the call at position k. */
  predicate Answers(p: Projected, m: Stored, k: nat) {
    m.role.Tool? && !m.injected && AnswersKnown(p, m) && p.calls[m.toolCallId] == k
  }

  lemma OneAt(p: Projected, sessionId: string, m: Stored, index: nat, at: int, k: nat)
    requires k < |p.entries|
    ensures var q := One(p, sessionId, m, index, at);
            && |p.entries| <= |q.entries|
            && q.entries[k] == if Answers(p, m, k) then WithResult(p.entries[k], m) else p.entries[k]
  {
    if m.role.Assistant? && !m.injected {
      WithCallsGrows(p.(entries := p.entries + AssistantEntries(m, sessionId, index, at)), sessionId, m.toolCalls,
          index, at);
    }
  }

  /** The last of the messages that answers the call at position k. */
  function LastAnswer(p: Projected, sessionId: string, ms: seq<Stored>, index: nat, start: int, k: nat): Option<Stored>
    decreases |ms|
  {
    if ms == [] then None
    else
      var later := LastAnswer(One(p, sessionId, ms[0], index, start + index), sessionId, ms[1..], index + 1, start, k);
      if later.Some? then later else if Answers(p, ms[0], k) then Some(ms[0]) else None
  }

  lemma ResultTwice(e: Entry, m: Stored, n: Stored)
    ensures WithResult(WithResult(e, m), n) == WithResult(e, n)
  {
  }

  lemma {:induction false} FromAt(p: Projected, sessionId: string, ms: seq<Stored>, index: nat, start: int, k: nat)
    requires k < |p.entries|
    ensures var q := From(p, sessionId, ms, index, start);
            && |p.entries| <= |q.entries|
            && q.entries[k] == match LastAnswer(p, sessionId, ms, index, start, k)
                               case None => p.entries[k]
                               case Some(m) => WithResult(p.entries[k], m)
    decreases |ms|
  {
    hide WithResult, One, Answers;
    if ms != [] {
      var p1 := One(p, sessionId, ms[0], index, start + index);
      OneAt(p, sessionId, ms[0], index, start + index, k);
      FromAt(p1, sessionId, ms[1..], index + 1, start, k);
      var later := LastAnswer(p1, sessionId, ms[1..], index + 1, start, k);
      if later.Some? { ResultTwice(p.entries[k], ms[0], later.value); }
    }
  }

  // ---- truncation ----------------------------------------------------------

  function Before(sessionId: string, messages: seq<Stored>, i: nat, start: int): Projected
    requires i <= |messages|
  {
    From(NOTHING, sessionId, messages[..i], 0, start)
  }

  /** No result after message i gives an earlier call a state it does not have
      without the messages from i on. */
  predicate LateResultsAgree(sessionId: string, messages: seq<Stored>, i: nat, start: int)
    requires i < |messages|
  {
    var p := Before(sessionId, messages, i, start);
    forall k :: 0 <= k < |p.entries| ==>
      var m := LastAnswer(p, sessionId, messages[i..], i, start, k);
      m.Some? ==> WithResult(p.entries[k], m.value) == p.entries[k]
  }

  /** Main result.  At a user message, the full history splits into the entries
      of the earlier messages, results apart, and the message's own entry.  The
      first entry with the message's id is that one exactly when no earlier entry
      has the id; and cutting there gives what projecting the earlier messages
      alone gives exactly when the later results change no earlier call. */
  lemma TruncationCommutes(sessionId: string, messages: seq<Stored>, i: nat, start: int)
    requires i < |messages| && Rewindable(messages[i])
    ensures var full := From(NOTHING, sessionId, messages, 0, start).entries;
            var before := Before(sessionId, messages, i, start).entries;
            && |before| < |full| && full[|before|].id == UserId(messages[i], i)
            && (IndexOf(full, UserId(messages[i], i)) == |before| <==> !Has(before, UserId(messages[i], i)))
            && (full[..|before|] == before <==> LateResultsAgree(sessionId, messages, i, start))
  {
    hide One, WithResult, Answers, From, LastAnswer;
    var p := Before(sessionId, messages, i, start);
    var q := From(NOTHING, sessionId, messages, 0, start);
    var n, id := |p.entries|, UserId(messages[i], i);
    assert messages == messages[..i] + messages[i..];
    FromSplits(NOTHING, sessionId, messages[..i], messages[i..], 0, start);
    assert q == From(p, sessionId, messages[i..], i, start);
    UserEntryAt(p, sessionId, messages, i, start);
    forall k | 0 <= k < n ensures q.entries[k].id == p.entries[k].id
    {
      FromAt(p, sessionId, messages[i..], i, start, k);
      var last := LastAnswer(p, sessionId, messages[i..], i, start, k);
      IdStays(p.entries[k], if last.Some? then last.value else messages[i]);
    }
    CutAt(q.entries, p.entries, id);
    forall k | 0 <= k < n
      ensures q.entries[k] == p.entries[k]
         <==> (LastAnswer(p, sessionId, messages[i..], i, start, k).Some? ==>
                 WithResult(p.entries[k], LastAnswer(p, sessionId, messages[i..], i, start, k).value) == p.entries[k])
    {
      FromAt(p, sessionId, messages[i..], i, start, k);
    }
    if LateResultsAgree(sessionId, messages, i, start) { assert q.entries[..n] == p.entries; }
    if q.entries[..n] == p.entries {
      forall k | 0 <= k < n ensures q.entries[k] == p.entries[k] { assert q.entries[..n][k] == p.entries[k]; }
    }
  }

  lemma IdStays(e: Entry, m: Stored)
    ensures WithResult(e, m).id == e.id
  {
  }

  lemma CutAt(full: seq<Entry>, before: seq<Entry>, id: string)
    requires |before| < |full| && full[|before|].id == id
    requires forall k :: 0 <= k < |before| ==> full[k].id == before[k].id
    ensures IndexOf(full, id) == |before| <==> !Has(before, id)
  {
    var n := |before|;
    assert Has(full, id);
    if Has(before, id) {
      var k :| 0 <= k < n && before[k].id == id;
      assert full[k].id == id;
    } else {
      forall k | 0 <= k < n ensures full[k].id != id { assert before[k].id != id; }
    }
  }

  lemma UserEntryAt(p: Projected, sessionId: string, messages: seq<Stored>, i: nat, start: int)
    requires i < |messages| && Rewindable(messages[i])
    ensures var q := From(p, sessionId, messages[i..], i, start);
            |p.entries| < |q.entries| && q.entries[|p.entries|].id == UserId(messages[i], i)
  {
    hide WithResult, UserId;
    var p1 := One(p, sessionId, messages[i], i, start + i);
    assert messages[i..][0] == messages[i] && messages[i..][1..] == messages[i + 1..];
    FromAt(p1, sessionId, messages[i + 1..], i + 1, start, |p.entries|);
    var m := LastAnswer(p1, sessionId, messages[i + 1..], i + 1, start, |p.entries|);
    if m.Some? { IdStays(p1.entries[|p.entries|], m.value); }
  }

  /** The public history: what the first b messages gave when the session was
      loaded, and what has been projected since. */
  function AllHistory(sessionId: string, messages: seq<Stored>, b: nat, start: int, live: seq<Entry>): seq<Entry>
    requires b <= |messages|
  {
    From(NOTHING, sessionId, messages[..b], 0, start).entries + live
  }

  lemma IndexInFront(a: seq<Entry>, b: seq<Entry>, id: string)
    ensures Has(a, id) ==> IndexOf(a + b, id) == IndexOf(a, id)
    ensures !Has(a, id) ==> IndexOf(a + b, id) == |a| + IndexOf(b, id)
  {
    if Has(a, id) {
      assert (a + b)[IndexOf(a, id)].id == id;
    } else {
      forall k | 0 <= k < |a| ensures (a + b)[k].id != id { assert a[k].id != id; }
      if Has(b, id) {
        assert (a + b)[|a| + IndexOf(b, id)].id == id;
        assert forall k :: 0 <= k < IndexOf(b, id) ==> (a + b)[|a| + k].id == b[k].id;
      }
    }
  }

  /** Main result: rewinding to a stored user message by cutting the public
      history, whatever has been projected since, leaves what projecting the
      messages before it gives if and only if no earlier entry has its id and no
      later stored result changes an earlier call. */
  lemma RewindMayCut(sessionId: string, messages: seq<Stored>, b: nat, i: nat, start: int, live: seq<Entry>)
    requires i < b <= |messages| && Rewindable(messages[i])
    ensures var all, id := AllHistory(sessionId, messages, b, start, live), UserId(messages[i], i);
            var before := From(NOTHING, sessionId, messages[..i], 0, start).entries;
            && IndexOf(all, id) < |all|
            && (all[..IndexOf(all, id)] == before
                <==> !Has(before, id) && LateResultsAgree(sessionId, messages[..b], i, start))
  {
    hide From, LateResultsAgree, UserId;
    var stored, id := messages[..b], UserId(messages[i], i);
    assert stored[..i] == messages[..i] && stored[i] == messages[i];
    TruncationCommutes(sessionId, stored, i, start);
    var full, before := From(NOTHING, sessionId, stored, 0, start).entries, Before(sessionId, stored, i, start).entries;
    assert Has(full, id);
    IndexInFront(full, live, id);
    var k := IndexOf(full, id);
    assert (full + live)[..k] == full[..k];
    if k != |before| { assert |full[..k]| != |before|; }
  }

  /** Rewinding to a message that came since keeps what was loaded whole, and what
      was projected up to its entry, if and only if no loaded entry has its id. */
  lemma RewindKeepsLoaded(sessionId: string, messages: seq<Stored>, b: nat, start: int, live: seq<Entry>, id: string)
    requires b <= |messages| && Has(live, id)
    ensures var all := AllHistory(sessionId, messages, b, start, live);
            var loaded := From(NOTHING, sessionId, messages[..b], 0, start).entries;
            && IndexOf(all, id) < |all|
            && (all[..IndexOf(all, id)] == loaded + live[..IndexOf(live, id)] <==> !Has(loaded, id))
  {
    hide From;
    var loaded := From(NOTHING, sessionId, messages[..b], 0, start).entries;
    IndexInFront(loaded, live, id);
    var k, all := IndexOf(loaded + live, id), loaded + live;
    if Has(loaded, id) {
      assert |all[..k]| < |loaded + live[..IndexOf(live, id)]|;
    } else {
      assert all[..k] == loaded + live[..IndexOf(live, id)];
    }
  }

  /** A result that comes after the message it is cut at: the full history shows
      the call answered, the shorter one shows it unfinished. */
  lemma LateResultShows(sessionId: string, call: Stored, user: Stored, result: Stored, start: int)
    requires call.role.Assistant? && !call.injected && call.reasoning == "" && call.content == ""
        && |call.toolCalls| == 1
    requires call.toolCalls[0].id != "" && result.toolCallId == call.toolCalls[0].id
    requires Rewindable(user) && result.role.Tool? && !result.injected && result.tag.NoTag? && result.persisted.None?
    ensures !LateResultsAgree(sessionId, [call, user, result], 1, start)
  {
    var messages := [call, user, result];
    var c := call.toolCalls[0];
    var e := EffectEntry(sessionId, c.id, if c.name != "" then c.name else "unknown", c.detail, start, None);
    var p := Projected([e], map[c.id := 0]);
    assert messages[..1] == [call] && [call][1..] == [] && call.toolCalls[1..] == [];
    assert AssistantEntries(call, sessionId, 0, start) == [];
    assert NOTHING.entries + [] + [e] == [e] && NOTHING.calls[c.id := 0] == p.calls;
    assert One(NOTHING, sessionId, call, 0, start) == p by {
      assert NOTHING.entries + AssistantEntries(call, sessionId, 0, start) == [];
      assert WithCalls(p, sessionId, call.toolCalls[1..], 0, start) == p;
    }
    assert From(p, sessionId, [], 1, start) == p;
    assert Before(sessionId, messages, 1, start) == p;
    assert messages[1..] == [user, result] && [user, result][1..] == [result] && [result][1..] == [];
    var p1 := One(p, sessionId, user, 1, start + 1);
    assert p1.calls == p.calls && |p1.entries| == 2;
    assert Answers(p1, result, 0);
    var p2 := One(p1, sessionId, result, 2, start + 2);
    assert LastAnswer(p2, sessionId, [], 3, start, 0) == None;
    assert LastAnswer(p1, sessionId, [result], 2, start, 0) == Some(result);
    assert LastAnswer(p, sessionId, [user, result], 1, start, 0) == Some(result);
    assert WithResult(e, result).body.state.Finished?;
    assert p.entries[0] == e;
  }
}
