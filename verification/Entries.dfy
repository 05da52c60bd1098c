/** Public history entries, their wire form, and patching an entry through it:
    dump, apply the operations, validate. */
module Entries {
  import opened Prelude
  import opened Json

  datatype Status = InProgress | Complete

  datatype Block = Text(text: string) | Image(attachment: Json) | Resource(resource: Json)

  datatype EffectState =
    | Pending
    | Running(outputText: string)
    | Blocked(callbackId: string, outputText: string)
    | Finished(output: Json, outputText: string, display: Json)
    | Failed(error: Json, outputText: string, display: Json)
    | Cancelled(reason: string, outputText: string, display: Json)
    | Skipped(reason: string, display: Json)

  datatype CallbackState = Open | Answered(output: Json) | Withdrawn(reason: string) | Expired(reason: string)

  datatype Body =
    | Message(role: string, content: seq<Block>, source: Json, displayContent: Json)
    | Reasoning(text: string, summary: Json)
    | Effect(title: string, detail: Json, state: EffectState)
    | Callback(callbackId: string, title: string, detail: Json, callbackState: CallbackState)
    | Checkpoint(kind: string, message: Json, details: Json)
    | Notice(level: string, notice: string, detail: Json)

  datatype Entry = Entry(
    id: string, sessionId: string, turnId: Option<string>, createdAt: int, updatedAt: int,
    status: Status, related: Option<string>, body: Body)

  // ---- dumping -------------------------------------------------------------

  function DumpName(s: Option<string>): Json { if s.None? then Null else Str(s.value) }

  function DumpStatus(s: Status): Json { Str(if s.Complete? then "completed" else "in_progress") }

  function DumpBlock(b: Block): Json {
    match b
    case Text(t) => Obj(map["type" := Str("text"), "text" := Str(t)])
    case Image(a) => Obj(map["type" := Str("image"), "attachment" := a])
    case Resource(r) => Obj(map["type" := Str("resource"), "resource" := r])
  }

  function DumpBlocks(bs: seq<Block>): seq<Json> {
    seq(|bs|, i requires 0 <= i < |bs| => DumpBlock(bs[i]))
  }

  function DumpEffectState(s: EffectState): Json {
    match s
    case Pending => Obj(map["status" := Str("pending")])
    case Running(t) => Obj(map["status" := Str("running"), "outputText" := Str(t)])
    case Blocked(c, t) => Obj(map["status" := Str("blocked"), "callbackId" := Str(c), "outputText" := Str(t)])
    case Finished(o, t, d) =>
      Obj(map["status" := Str("completed"), "output" := o, "outputText" := Str(t), "display" := d])
    case Failed(e, t, d) =>
      Obj(map["status" := Str("failed"), "error" := e, "outputText" := Str(t), "display" := d])
    case Cancelled(r, t, d) =>
      Obj(map["status" := Str("cancelled"), "reason" := Str(r), "outputText" := Str(t), "display" := d])
    case Skipped(r, d) => Obj(map["status" := Str("skipped"), "reason" := Str(r), "display" := d])
  }

  function DumpCallbackState(s: CallbackState): Json {
    match s
    case Open => Obj(map["status" := Str("open")])
    case Answered(o) => Obj(map["status" := Str("answered"), "output" := o])
    case Withdrawn(r) => Obj(map["status" := Str("cancelled"), "reason" := Str(r)])
    case Expired(r) => Obj(map["status" := Str("expired"), "reason" := Str(r)])
  }

  function DumpBody(b: Body): map<string, Json> {
    match b
    case Message(r, c, s, d) =>
      map["type" := Str("message"), "role" := Str(r), "content" := Arr(DumpBlocks(c)),
          "source" := s, "userDisplayContent" := d]
    case Reasoning(t, s) => map["type" := Str("reasoning"), "text" := Str(t), "summary" := s]
    case Effect(t, d, s) =>
      map["type" := Str("effect"), "title" := Str(t), "detail" := d, "state" := DumpEffectState(s)]
    case Callback(c, t, d, s) =>
      map["type" := Str("callback"), "callbackId" := Str(c), "title" := Str(t), "detail" := d,
          "state" := DumpCallbackState(s)]
    case Checkpoint(k, m, d) =>
      map["type" := Str("checkpoint"), "kind" := Str(k), "message" := m, "details" := d]
    case Notice(l, m, d) =>
      map["type" := Str("notice"), "level" := Str(l), "message" := Str(m), "detail" := d]
  }

  function DumpHeader(e: Entry): map<string, Json> {
    map["id" := Str(e.id), "sessionId" := Str(e.sessionId), "turnId" := DumpName(e.turnId),
        "createdAt" := Num(e.createdAt), "updatedAt" := Num(e.updatedAt),
        "generationStatus" := DumpStatus(e.status), "relatedEntryId" := DumpName(e.related)]
  }

  function Dump(e: Entry): Json { Obj(DumpHeader(e) + DumpBody(e.body)) }

  // ---- validating ----------------------------------------------------------

  function StrAt(m: map<string, Json>, k: string): Option<string> {
    if k in m && m[k].Str? then Some(m[k].s) else None
  }

  function ReadBlock(j: Json): Option<Block> {
    if !j.Obj? then None
    else match StrAt(j.fields, "type")
      case None => None
      case Some(t) =>
        if t == "text" && j.fields.Keys == {"type", "text"} && j.fields["text"].Str? then Some(Text(j.fields["text"].s))
        else if t == "image" && j.fields.Keys == {"type", "attachment"} then Some(Image(j.fields["attachment"]))
        else if t == "resource" && j.fields.Keys == {"type", "resource"} then Some(Resource(j.fields["resource"]))
        else None
  }

  function ReadBlocks(js: seq<Json>): Option<seq<Block>> {
    if js == [] then Some([])
    else match (ReadBlock(js[0]), ReadBlocks(js[1..]))
      case (Some(b), Some(bs)) => Some([b] + bs)
      case _ => None
  }

  lemma {:induction false} ReadDumpedBlocks(bs: seq<Block>)
    ensures ReadBlocks(DumpBlocks(bs)) == Some(bs)
  {
    if bs != [] {
      assert DumpBlocks(bs)[1..] == DumpBlocks(bs[1..]);
      ReadDumpedBlocks(bs[1..]);
      assert ReadBlock(DumpBlock(bs[0])) == Some(bs[0]);
      assert [bs[0]] + bs[1..] == bs;
    }
  }

  function ReadEffectState(j: Json): Option<EffectState> {
    if !j.Obj? then None else
    var m := j.fields;
    match StrAt(m, "status")
    case None => None
    case Some(status) =>
      if status == "pending" && m.Keys == {"status"} then Some(Pending)
      else if status == "running" && m.Keys == {"status", "outputText"} && m["outputText"].Str? then
        Some(Running(m["outputText"].s))
      else if status == "blocked" && m.Keys == {"status", "callbackId", "outputText"}
           && m["callbackId"].Str? && m["outputText"].Str? then
        Some(Blocked(m["callbackId"].s, m["outputText"].s))
      else if status == "completed" && m.Keys == {"status", "output", "outputText", "display"}
          && m["outputText"].Str? then
        Some(Finished(m["output"], m["outputText"].s, m["display"]))
      else if status == "failed" && m.Keys == {"status", "error", "outputText", "display"} && m["outputText"].Str? then
        Some(Failed(m["error"], m["outputText"].s, m["display"]))
      else if status == "cancelled" && m.Keys == {"status", "reason", "outputText", "display"}
           && m["reason"].Str? && m["outputText"].Str? then
        Some(Cancelled(m["reason"].s, m["outputText"].s, m["display"]))
      else if status == "skipped" && m.Keys == {"status", "reason", "display"} && m["reason"].Str? then
        Some(Skipped(m["reason"].s, m["display"]))
      else None
  }

  function ReadCallbackState(j: Json): Option<CallbackState> {
    if !j.Obj? then None else
    var m := j.fields;
    match StrAt(m, "status")
    case None => None
    case Some(status) =>
      if status == "open" && m.Keys == {"status"} then Some(Open)
      else if status == "answered" && m.Keys == {"status", "output"} then Some(Answered(m["output"]))
      else if status == "cancelled" && m.Keys == {"status", "reason"} && m["reason"].Str? then
        Some(Withdrawn(m["reason"].s))
      else if status == "expired" && m.Keys == {"status", "reason"} && m["reason"].Str? then
        Some(Expired(m["reason"].s))
      else None
  }

  function BodyKeys(kind: string): set<string> {
    if kind == "message" then {"type", "role", "content", "source", "userDisplayContent"}
    else if kind == "reasoning" then {"type", "text", "summary"}
    else if kind == "effect" then {"type", "title", "detail", "state"}
    else if kind == "callback" then {"type", "callbackId", "title", "detail", "state"}
    else if kind == "checkpoint" then {"type", "kind", "message", "details"}
    else {"type", "level", "message", "detail"}
  }

  /** The body of a document known to have the members of its kind. */
  function ReadBody(m: map<string, Json>, kind: string): Option<Body>
    requires BodyKeys(kind) <= m.Keys
  {
    if kind == "message" then
      if !m["role"].Str? || !m["content"].Arr? then None
      else match ReadBlocks(m["content"].items)
        case None => None
        case Some(content) => Some(Message(m["role"].s, content, m["source"], m["userDisplayContent"]))
    else if kind == "reasoning" then
      if m["text"].Str? then Some(Reasoning(m["text"].s, m["summary"])) else None
    else if kind == "effect" then
      if !m["title"].Str? then None
      else match ReadEffectState(m["state"])
        case None => None
        case Some(state) => Some(Effect(m["title"].s, m["detail"], state))
    else if kind == "callback" then
      if !m["title"].Str? || !m["callbackId"].Str? then None
      else match ReadCallbackState(m["state"])
        case None => None
        case Some(state) => Some(Callback(m["callbackId"].s, m["title"].s, m["detail"], state))
    else if kind == "checkpoint" then
      if m["kind"].Str? && (m["message"].Str? || m["message"].Null?) then
        Some(Checkpoint(m["kind"].s, m["message"], m["details"]))
      else None
    else if kind == "notice" then
      if m["level"].Str? && m["message"].Str? then Some(Notice(m["level"].s, m["message"].s, m["detail"])) else None
    else None
  }

  const HEADER_KEYS := {"id", "sessionId", "turnId", "createdAt", "updatedAt", "generationStatus", "relatedEntryId"}

  predicate NameOrNull(j: Json) { j.Str? || j.Null? }

  function ReadName(j: Json): Option<string> { if j.Str? then Some(j.s) else None }

  predicate HeaderTyped(m: map<string, Json>)
    requires HEADER_KEYS <= m.Keys
  {
    && m["id"].Str? && m["sessionId"].Str? && NameOrNull(m["turnId"]) && m["createdAt"].Num? && m["updatedAt"].Num?
    && (m["generationStatus"] == DumpStatus(InProgress) || m["generationStatus"] == DumpStatus(Complete))
    && NameOrNull(m["relatedEntryId"])
  }

  /** Schema validation: exactly the members of the kind, each of its type. */
  function Validate(j: Json): Option<Entry> {
    if !j.Obj? then None else
    var m := j.fields;
    match StrAt(m, "type")
    case None => None
    case Some(kind) =>
      if m.Keys != HEADER_KEYS + BodyKeys(kind) || !HeaderTyped(m) then None
      else match ReadBody(m, kind)
        case None => None
        case Some(body) =>
          Some(Entry(m["id"].s, m["sessionId"].s, ReadName(m["turnId"]), m["createdAt"].n, m["updatedAt"].n,
                     if m["generationStatus"] == DumpStatus(Complete) then Complete else InProgress,
                     ReadName(m["relatedEntryId"]), body))
  }

  function KindOf(b: Body): string {
    match b
    case Message(_, _, _, _) => "message"
    case Reasoning(_, _) => "reasoning"
    case Effect(_, _, _) => "effect"
    case Callback(_, _, _, _) => "callback"
    case Checkpoint(_, _, _) => "checkpoint"
    case Notice(_, _, _) => "notice"
  }

  predicate WellTyped(e: Entry) { e.body.Checkpoint? ==> NameOrNull(e.body.message) }

  lemma ReadDumpedEffectState(s: EffectState)
    ensures ReadEffectState(DumpEffectState(s)) == Some(s)
  {
  }

  lemma ReadDumpedCallbackState(s: CallbackState)
    ensures ReadCallbackState(DumpCallbackState(s)) == Some(s)
  {
  }

  lemma DumpBodyKeys(b: Body)
    ensures DumpBody(b).Keys == BodyKeys(KindOf(b))
    ensures DumpBody(b)["type"] == Str(KindOf(b))
  {
  }

  lemma HeaderApart(b: Body)
    ensures HEADER_KEYS !! BodyKeys(KindOf(b))
  {
    match b {
      case Message(_, _, _, _) =>
      case Reasoning(_, _) =>
      case Effect(_, _, _) =>
      case Callback(_, _, _, _) =>
      case Checkpoint(_, _, _) =>
      case Notice(_, _, _) =>
    }
  }

  lemma ReadDumpedBody(b: Body)
    requires b.Checkpoint? ==> NameOrNull(b.message)
    ensures BodyKeys(KindOf(b)) <= DumpBody(b).Keys
    ensures ReadBody(DumpBody(b), KindOf(b)) == Some(b)
  {
    DumpBodyKeys(b);
    match b {
      case Message(_, c, _, _) => ReadDumpedBlocks(c);
      case Effect(_, _, s) => ReadDumpedEffectState(s);
      case Callback(_, _, _, s) => ReadDumpedCallbackState(s);
      case _ =>
    }
  }

  lemma ReadBodyFrame(h: map<string, Json>, b: map<string, Json>, kind: string)
    requires BodyKeys(kind) <= b.Keys
    ensures ReadBody(h + b, kind) == ReadBody(b, kind)
  {
  }

  lemma HeaderFrame(e: Entry, b: map<string, Json>)
    requires HEADER_KEYS !! b.Keys
    ensures var m := DumpHeader(e) + b;
            && HEADER_KEYS <= m.Keys && HeaderTyped(m)
            && m["id"] == Str(e.id) && m["sessionId"] == Str(e.sessionId) && m["turnId"] == DumpName(e.turnId)
            && m["createdAt"] == Num(e.createdAt) && m["updatedAt"] == Num(e.updatedAt)
            && m["generationStatus"] == DumpStatus(e.status) && m["relatedEntryId"] == DumpName(e.related)
  {
  }

  lemma StatusesDiffer()
    ensures DumpStatus(InProgress) != DumpStatus(Complete)
  {
    assert "completed"[0] != "in_progress"[0];
  }

  /** Validation is a left inverse of dumping. */
  lemma ValidateDump(e: Entry)
    requires WellTyped(e)
    ensures Validate(Dump(e)) == Some(e)
  {
    var kind, b, m := KindOf(e.body), DumpBody(e.body), Dump(e).fields;
    DumpBodyKeys(e.body);
    HeaderApart(e.body);
    HeaderFrame(e, b);
    ReadDumpedBody(e.body);
    ReadBodyFrame(DumpHeader(e), b, kind);
    assert "type" in b && StrAt(m, "type") == Some(kind);
    assert m.Keys == HEADER_KEYS + BodyKeys(kind);
    StatusesDiffer();
    assert ReadName(DumpName(e.turnId)) == e.turnId && ReadName(DumpName(e.related)) == e.related;
  }
}
