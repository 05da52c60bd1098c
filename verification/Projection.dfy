/** The event projector: what one core event or harness action does to a
    projector's history, and which updates it hands out. */
module Projection {
  import opened Prelude
  import opened Json
  import opened Entries
  import opened Changes

  // ---- histories -----------------------------------------------------------

  predicate UniqueIds(h: seq<Entry>) {
    forall i, j :: 0 <= i < j < |h| ==> h[i].id != h[j].id
  }

  predicate Has(h: seq<Entry>, id: string) { exists i :: 0 <= i < |h| && h[i].id == id }

  /** Position of the first entry with the id, or |h|. */
  function IndexOf(h: seq<Entry>, id: string): (i: nat)
    ensures i <= |h| && (i < |h| ==> h[i].id == id)
    ensures forall j :: 0 <= j < i ==> h[j].id != id
    ensures i < |h| <==> Has(h, id)
  {
    if h == [] then 0
    else if h[0].id == id then assert h[0].id == id; 0
    else
      var i := IndexOf(h[1..], id);
      assert forall j :: 0 < j < |h| ==> h[j] == h[1..][j - 1];
      assert i < |h[1..]| ==> h[i + 1].id == id;
      i + 1
  }

  function ById(h: seq<Entry>): map<string, Entry> {
    map id | id in (set i | 0 <= i < |h| :: h[i].id) :: h[IndexOf(h, id)]
  }

  function Rebind(h: seq<Entry>, sessionId: string): seq<Entry> {
    seq(|h|, i requires 0 <= i < |h| => h[i].(sessionId := sessionId))
  }

  // ---- updates and their replay --------------------------------------------

  datatype Update =
    | Added(sessionId: string, entry: Entry)
    | Updated(sessionId: string, entryId: string, patch: seq<Op>)
    | SessionPatched(sessionId: string)

  /** The reducer's view of one update on a whole history: a duplicate add or a
      patch of a completed entry is an error, a patch of an unknown entry is
      ignored. */
  function ReplayOne(h: seq<Entry>, u: Update): Option<seq<Entry>> {
    match u
    case SessionPatched(_) => Some(h)
    case Added(_, e) => if Has(h, e.id) then None else Some(h + [e])
    case Updated(_, id, patch) =>
      if !Has(h, id) then Some(h)
      else
        var i := IndexOf(h, id);
        if h[i].status.Complete? then None
        else match Patched(h[i], patch)
          case None => None
          case Some(e) => Some(h[i := e])
  }

  function Replay(h: seq<Entry>, us: seq<Update>): Option<seq<Entry>>
    decreases |us|
  {
    if us == [] then Some(h)
    else match ReplayOne(h, us[0])
      case None => None
      case Some(h') => Replay(h', us[1..])
  }

  lemma {:induction false} ReplayConcat(h: seq<Entry>, a: seq<Update>, b: seq<Update>)
    ensures Replay(h, a + b) == match Replay(h, a) case None => None case Some(h') => Replay(h', b)
    decreases |a|
  {
    if a == [] {
      assert a + b == b;
    } else {
      assert (a + b)[0] == a[0] && (a + b)[1..] == a[1..] + b;
      match ReplayOne(h, a[0]) { case None => case Some(h') => ReplayConcat(h', a[1..], b); }
    }
  }

  // ---- the projector -------------------------------------------------------

  datatype Table = Assistant | Reasonings | Effects | Checkpoints | Callbacks

  datatype State = State(
    sessionId: string, turnId: Option<string>, preview: string,
    history: seq<Entry>, entries: map<string, Entry>,
    ids: map<(Table, string), string>)

  datatype Error =
    | Duplicate | Frozen | IdentityFrozen | BadPatch | MissingEntry
    | EffectNotFound | MissingPresentation | AlreadyLinked | OtherChild | NotASubagent

  function Fresh(sessionId: string, turnId: Option<string>, preview: string): State {
    State(sessionId, turnId, preview, [], map[], map[])
  }

  /** The elementary actions an event is made of. */
  datatype Cmd =
    | Remember(table: Table, key: string, id: string)
    | SetPreview(preview: string)
    | Create(entry: Entry)
    | CreateSilently(entry: Entry)      // the update is dropped by the caller
    | Patch(id: string, change: Change, now: int)
    | PatchSession
    | Raise(error: Error)

  datatype Outcome = Outcome(state: State, updates: seq<Update>, error: Option<Error>)

  function AddTo(s: State, e: Entry): State {
    s.(history := s.history + [e], entries := s.entries[e.id := e])
  }

  function PatchIn(s: State, id: string, ops: seq<Op>): Outcome {
    if id !in s.entries then Outcome(s, [], Some(MissingEntry))
    else if s.entries[id].status.Complete? then Outcome(s, [], Some(Frozen))
    else match Patched(s.entries[id], ops)
      case None => Outcome(s, [], Some(BadPatch))
      case Some(e) =>
        if SameIdentity(s.entries[id], e) then
          Outcome(PutIn(s, id, e), [Updated(s.sessionId, id, ops)], None)
        else Outcome(s, [], Some(IdentityFrozen))
  }

  function PutIn(s: State, id: string, e: Entry): State {
    var i := IndexOf(s.history, id);
    s.(entries := s.entries[id := e], history := if i < |s.history| then s.history[i := e] else s.history)
  }

  /** Kind, id, session, turn and creation time never change. */
  predicate SameIdentity(a: Entry, b: Entry) {
    && KindOf(a.body) == KindOf(b.body) && a.id == b.id && a.sessionId == b.sessionId
    && a.turnId == b.turnId && a.createdAt == b.createdAt
  }

  function Step(s: State, c: Cmd): Outcome {
    match c
    case Remember(t, key, id) => Outcome(s.(ids := s.ids[(t, key) := id]), [], None)
    case SetPreview(p) => Outcome(s.(preview := p), [], None)
    case Create(e) =>
      if e.id in s.entries then Outcome(s, [], Some(Duplicate))
      else Outcome(AddTo(s, e), [Added(s.sessionId, e)], None)
    case CreateSilently(e) =>
      if e.id in s.entries then Outcome(s, [], Some(Duplicate)) else Outcome(AddTo(s, e), [], None)
    case Patch(id, change, now) => PatchIn(s, id, Ops(change, now))
    case PatchSession => Outcome(s, [SessionPatched(s.sessionId)], None)
    case Raise(error) => Outcome(s, [], Some(error))
  }

  /** The commands in order, up to the first error. */
  function Exec(s: State, cs: seq<Cmd>): Outcome
    decreases |cs|
  {
    if cs == [] then Outcome(s, [], None)
    else
      var first := Step(s, cs[0]);
      if first.error.Some? then first
      else
        var rest := Exec(first.state, cs[1..]);
        Outcome(rest.state, first.updates + rest.updates, rest.error)
  }

  // ---- events and harness actions ------------------------------------------

  /** How a tool ended; the last case is a success without the presentation
      snapshot that successes require. */
  datatype ToolOutcome =
    | ToolCancelled(reason: string, display: Json)
    | ToolSkipped(reason: string, display: Json)
    | ToolFailed(error: Json, display: Json)
    | ToolSucceeded(output: Json, display: Json)
    | ToolUnpresented

  datatype Action =
    | UserMessage(userMessageId: string, content: seq<Block>, source: Json, display: Json, text: string)
    | AssistantText(chunk: string, messageId: Option<string>)
    | ReasoningText(chunk: string, messageId: Option<string>)
    | ToolCall(callId: string, title: string, presented: Option<Json>)
    | ToolStream(callId: string, chunk: string)
    | ToolResult(callId: string, title: string, generic: Json, outcome: ToolOutcome)
    | CompactStart(callId: string, details: Json)
    | CompactEnd(callId: string, details: Json)
    | NoticeShown(message: string, detail: Json)
    | TitleUpdated(message: string, detail: Json)
    | OtherEvent
    | StartEffect(callId: string, title: string, detail: Json)
    | CompleteEffect(callId: string, state: EffectState)
    | OpenCallback(callbackId: string, title: string, detail: Json, related: Option<string>)
    | ResolveCallback(callbackId: string, output: Json)
    | LinkSubagent(callId: string, child: string)
    | ReplaceSubagent(callId: string, child: string, newChild: string)
    | UnlinkSubagent(callId: string, child: string)
    | Finalize(cancelled: bool)

  predicate Given(id: Option<string>) { id.Some? && id.value != "" }

  function Fields(s: State, id: string, status: Status, related: Option<string>, body: Body, now: int): Entry {
    Entry(id, s.sessionId, s.turnId, now, now, status, related, body)
  }

  function EntryOutput(e: Entry): string {
    if e.body.Effect? && (e.body.state.Running? || e.body.state.Blocked?) then e.body.state.outputText else ""
  }

  function OutcomeState(o: ToolOutcome, text: string): Option<EffectState> {
    match o
    case ToolCancelled(r, d) => Some(Cancelled(r, text, d))
    case ToolSkipped(r, d) => Some(Skipped(r, d))
    case ToolFailed(e, d) => Some(Failed(e, text, d))
    case ToolSucceeded(v, d) => Some(Finished(v, text, d))
    case ToolUnpresented => None
  }

  function ReasonDisplay(reason: string): Json { Obj(map["success" := Bool(false), "message" := Str(reason)]) }

  function ReasonError(reason: string): Json { Obj(map["message" := Str(reason)]) }

  function EndReason(cancelled: bool): string { if cancelled then "Turn interrupted" else "Turn ended" }

  /** The change that closes an entry when its turn ends. */
  function Closing(e: Entry, cancelled: bool): Change {
    var reason := EndReason(cancelled);
    match e.body
    case Effect(_, _, _) =>
      SettleEffect(if cancelled then Cancelled(reason, EntryOutput(e), ReasonDisplay(reason))
                   else Failed(ReasonError(reason), EntryOutput(e), ReasonDisplay(reason)))
    case Callback(_, _, _, _) => SettleCallback(Withdrawn(reason))
    case _ => Finish
  }

  function ClosingCmds(h: seq<Entry>, cancelled: bool, now: int): seq<Cmd> {
    if h == [] then []
    else
      var first := if h[0].status.Complete? then [] else [Patch(h[0].id, Closing(h[0], cancelled), now)];
      first + ClosingCmds(h[1..], cancelled, now)
  }

  predicate Streamed(s: State, id: string) {
    exists k :: k in s.ids && (k.0.Assistant? || k.0.Reasonings?) && s.ids[k] == id
  }

  function FinishCmds(s: State, h: seq<Entry>, now: int): seq<Cmd> {
    if h == [] then []
    else
      var first := if Streamed(s, h[0].id) && h[0].status.InProgress? then [Patch(h[0].id, Finish, now)] else [];
      first + FinishCmds(s, h[1..], now)
  }

  function EffectCmds(s: State, callId: string, title: string, detail: Json, now: int): seq<Cmd> {
    if (Effects, callId) in s.ids && s.ids[(Effects, callId)] != "" then
      [Patch(s.ids[(Effects, callId)], Detail(detail), now)]
    else
      [Remember(Effects, callId, callId),
       Create(Fields(s, callId, InProgress, None, Effect(title, detail, Running("")), now))]
  }

  function CallbackEntryId(callbackId: string): string { "callback:" + callbackId }

  /** What a linked child must look like for the subagent actions. */
  function SubagentCmds(s: State, callId: string, then': (string, Json) -> seq<Cmd>): seq<Cmd> {
    if (Effects, callId) !in s.ids then [Raise(EffectNotFound)]
    else if s.ids[(Effects, callId)] !in s.entries then [Raise(MissingEntry)]
    else
      var e := s.entries[s.ids[(Effects, callId)]];
      if e.body.Effect? && HasChild(e.body.detail) then then'(e.id, e.body.detail.fields["childSessionId"])
      else [Raise(NotASubagent)]
  }

  /** The commands of an action; `newId` is the id drawn for an entry that has none. */
  function Commands(s: State, a: Action, newId: string, now: int): seq<Cmd> {
    match a
    case UserMessage(id, content, source, display, text) =>
      [Create(Fields(s, id, Complete, None, Message("user", content, source, display), now))]
      + (if s.preview != "" || text == "" then []
         else [SetPreview(if |text| > 160 then text[..160] else text), PatchSession])
    case AssistantText(chunk, messageId) =>
      var key := if Given(messageId) then messageId.value else "assistant";
      if (Assistant, key) in s.ids then [Patch(s.ids[(Assistant, key)], Content(chunk), now)]
      else
        var id := if Given(messageId) then messageId.value else newId;
        [Remember(Assistant, key, id),
         Create(Fields(s, id, InProgress, None, Message("assistant", [Text(chunk)], Null, Null), now))]
    case ReasoningText(chunk, messageId) =>
      var key := if Given(messageId) then messageId.value else "reasoning";
      if (Reasonings, key) in s.ids then [Patch(s.ids[(Reasonings, key)], Reason(chunk), now)]
      else
        var id := if Given(messageId) then messageId.value else newId;
        [Remember(Reasonings, key, id),
         Create(Fields(s, id, InProgress, None, Reasoning(chunk, Arr([])), now))]
    case ToolCall(callId, title, presented) =>
      FinishCmds(s, s.history, now)
      + (match presented
         case None => [Raise(MissingPresentation)]
         case Some(detail) => EffectCmds(s, callId, title, detail, now))
    case ToolStream(callId, chunk) =>
      if (Effects, callId) !in s.ids then [Raise(EffectNotFound)]
      else [Patch(s.ids[(Effects, callId)], Output(chunk), now)]
    case ToolResult(callId, title, generic, outcome) =>
      var known := (Effects, callId) in s.ids;
      var id := if known then s.ids[(Effects, callId)] else callId;
      (if known then (if id in s.entries then [] else [Raise(MissingEntry)])
       else [Remember(Effects, callId, callId),
             Create(Fields(s, callId, InProgress, None, Effect(title, generic, Running("")), now))])
      + (match OutcomeState(outcome, if known && id in s.entries then EntryOutput(s.entries[id]) else "")
         case None => [Raise(MissingPresentation)]
         case Some(state) => [Patch(id, SettleEffect(state), now)])
    case CompactStart(callId, details) =>
      [Remember(Checkpoints, callId, callId),
       Create(Fields(s, callId, InProgress, None, Checkpoint("compaction", Str("Compacting context"), details), now))]
    case CompactEnd(callId, details) =>
      var id := if (Checkpoints, callId) in s.ids then s.ids[(Checkpoints, callId)] else callId;
      (if id in s.entries then []
       else [Remember(Checkpoints, callId, id),
             CreateSilently(Fields(s, id, InProgress, None, Checkpoint("compaction", Null, Null), now))])
      + [Patch(id, Compacted(details), now)]
    case NoticeShown(message, detail) =>
      [Create(Fields(s, newId, Complete, None, Notice("info", message, detail), now))]
    case TitleUpdated(message, detail) =>
      [Create(Fields(s, newId, Complete, None, Notice("info", message, detail), now)), PatchSession]
    case OtherEvent => []
    case StartEffect(callId, title, detail) => EffectCmds(s, callId, title, detail, now)
    case CompleteEffect(callId, state) =>
      if (Effects, callId) !in s.ids then [Raise(EffectNotFound)]
      else [Patch(s.ids[(Effects, callId)], SettleEffect(state), now)]
    case OpenCallback(callbackId, title, detail, related) =>
      var id := CallbackEntryId(callbackId);
      [Remember(Callbacks, callbackId, id),
       Create(Fields(s, id, InProgress, related, Callback(callbackId, title, detail, Open), now))]
      + (if related.Some? && (related.value in s.entries || related.value == id)
         then [Patch(related.value, EffectTo(Blocked(callbackId, "")), now)] else [])
    case ResolveCallback(callbackId, output) =>
      if (Callbacks, callbackId) !in s.ids then []
      else
        var id := s.ids[(Callbacks, callbackId)];
        [Patch(id, SettleCallback(Answered(output)), now)]
        + (if id in s.entries && s.entries[id].related.Some? && s.entries[id].related.value in s.entries
              && s.entries[s.entries[id].related.value].body.Effect?
           then
             var effect := s.entries[s.entries[id].related.value];
             var output := if effect.body.state.Blocked? then effect.body.state.outputText else "";
             [Patch(effect.id, EffectTo(Running(output)), now)]
           else [])
    case LinkSubagent(callId, child) =>
      SubagentCmds(s, callId, (id: string, current: Json) =>
        if current == Str(child) then []
        else if current != Null then [Raise(AlreadyLinked)]
        else [Patch(id, Adopt(Str(child)), now)])
    case ReplaceSubagent(callId, child, newChild) =>
      SubagentCmds(s, callId, (id: string, current: Json) =>
        if current != Str(child) then [Raise(OtherChild)]
        else [Patch(id, Adopt(Str(newChild)), now)])
    case UnlinkSubagent(callId, child) =>
      SubagentCmds(s, callId, (id: string, current: Json) =>
        if current == Null then []
        else if current != Str(child) then [Raise(OtherChild)]
        else [Patch(id, Adopt(Null), now)])
    case Finalize(cancelled) => ClosingCmds(s.history, cancelled, now)
  }

  /** One action.  When it raises, its updates are lost but the state it had
      reached is kept. */
  function Project(s: State, a: Action, newId: string, now: int): Outcome {
    var o := Exec(s, Commands(s, a, newId, now));
    if o.error.Some? then o.(updates := []) else o
  }
}
