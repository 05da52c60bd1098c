/** The patches the projector sends, as operations on the dumped entry, and
    what each of them means on the entry itself. */
module Changes {
  import opened Prelude
  import opened Json
  import opened Entries

  datatype Change =
    | Content(text: string)            // streamed assistant text
    | Reason(text: string)             // streamed reasoning text
    | Output(text: string)             // streamed effect output
    | EffectTo(state: EffectState)     // a new effect state, still in progress
    | SettleEffect(state: EffectState) // a terminal effect state
    | SettleCallback(callbackState: CallbackState)
    | Finish                           // nothing but the generation status
    | Detail(detail: Json)
    | Adopt(child: Json)               // the child session of a subagent effect
    | Compacted(details: Json)

  const COMPLETED := Str("completed")
  const CONTEXT_COMPACTED := Str("Context compacted")

  function CoreOps(c: Change): seq<Op> {
    match c
    case Content(t) => [Append(["content", "0", "text"], Str(t))]
    case Reason(t) => [Append(["text"], Str(t))]
    case Output(t) => [Append(["state", "outputText"], Str(t))]
    case EffectTo(s) => [Replace(["state"], DumpEffectState(s))]
    case SettleEffect(s) => [Replace(["state"], DumpEffectState(s)), Replace(["generationStatus"], COMPLETED)]
    case SettleCallback(s) => [Replace(["state"], DumpCallbackState(s)), Replace(["generationStatus"], COMPLETED)]
    case Finish => [Replace(["generationStatus"], COMPLETED)]
    case Detail(d) => [Replace(["detail"], d)]
    case Adopt(x) => [Replace(["detail", "childSessionId"], x)]
    case Compacted(d) =>
      [Replace(["message"], CONTEXT_COMPACTED), Replace(["details"], d), Replace(["generationStatus"], COMPLETED)]
  }

  /** Every patch also stamps the entry. */
  function Ops(c: Change, now: int): seq<Op> { CoreOps(c) + [Replace(["updatedAt"], Num(now))] }

  /** Dump, apply, validate. */
  function Patched(e: Entry, ops: seq<Op>): Option<Entry> {
    match Apply(Dump(e), ops) case None => None case Some(j) => Validate(j)
  }

  function OutputText(s: EffectState): Option<string> {
    match s
    case Pending => None
    case Running(t) => Some(t)
    case Blocked(_, t) => Some(t)
    case Finished(_, t, _) => Some(t)
    case Failed(_, t, _) => Some(t)
    case Cancelled(_, t, _) => Some(t)
    case Skipped(_, _) => None
  }

  function WithOutputText(s: EffectState, t: string): EffectState {
    match s
    case Running(_) => Running(t)
    case Blocked(c, _) => Blocked(c, t)
    case Finished(o, _, d) => Finished(o, t, d)
    case Failed(e, _, d) => Failed(e, t, d)
    case Cancelled(r, _, d) => Cancelled(r, t, d)
    case _ => s
  }

  /** The change on the body; None where the wire patch is rejected. */
  function ChangedBody(b: Body, c: Change): Option<Body> {
    match (b, c)
    case (_, Finish) => Some(b)
    case (Message(r, content, s, d), Content(t)) =>
      if content != [] && content[0].Text?
      then Some(Message(r, [Text(content[0].text + t)] + content[1..], s, d)) else None
    case (Reasoning(text, s), Reason(t)) => Some(Reasoning(text + t, s))
    case (Effect(n, d, s), Output(t)) =>
      if OutputText(s).Some? then Some(Effect(n, d, WithOutputText(s, OutputText(s).value + t))) else None
    case (Effect(n, d, _), EffectTo(s)) => Some(Effect(n, d, s))
    case (Effect(n, d, _), SettleEffect(s)) => Some(Effect(n, d, s))
    case (Callback(c, n, d, _), SettleCallback(s)) => Some(Callback(c, n, d, s))
    case (Effect(n, _, s), Detail(d)) => Some(Effect(n, d, s))
    case (Callback(c, n, _, s), Detail(d)) => Some(Callback(c, n, d, s))
    case (Notice(l, n, _), Detail(d)) => Some(Notice(l, n, d))
    case (Effect(n, d, s), Adopt(x)) => if HasChild(d) then Some(Effect(n, WithChildSession(d, x), s)) else None
    case (Callback(c, n, d, s), Adopt(x)) =>
      if HasChild(d) then Some(Callback(c, n, WithChildSession(d, x), s)) else None
    case (Notice(l, n, d), Adopt(x)) => if HasChild(d) then Some(Notice(l, n, WithChildSession(d, x))) else None
    case (Checkpoint(k, _, _), Compacted(d)) => Some(Checkpoint(k, CONTEXT_COMPACTED, d))
    case _ => None
  }

  predicate HasChild(d: Json) { d.Obj? && "childSessionId" in d.fields }

  function WithChildSession(d: Json, x: Json): Json
    requires HasChild(d)
  {
    Obj(d.fields["childSessionId" := x])
  }

  predicate Completes(c: Change) { c.SettleEffect? || c.SettleCallback? || c.Finish? || c.Compacted? }

  function Changed(e: Entry, c: Change, now: int): Option<Entry> {
    match ChangedBody(e.body, c)
    case None => None
    case Some(b) => Some(e.(body := b, updatedAt := now, status := if Completes(c) then Complete else e.status))
  }

  // ---- editing a member of a dumped object ---------------------------------

  lemma PutMember(m: map<string, Json>, k: string, v: Json)
    ensures EditAt(Obj(m), [k], Put(v)) == if k in m then Some(Obj(m[k := v])) else None
  {
    if k in m { assert EditAt(m[k], [], Put(v)) == Some(v); }
  }

  lemma PutInMember(m: map<string, Json>, k: string, rest: Pointer, v: Json)
    ensures EditAt(Obj(m), [k] + rest, Put(v))
         == if k !in m then None
            else match EditAt(m[k], rest, Put(v)) case None => None case Some(x) => Some(Obj(m[k := x]))
    ensures Resolve(Obj(m), [k] + rest) == if k in m then Resolve(m[k], rest) else None
  {
    assert ([k] + rest)[1..] == rest;
  }

  /** The dumped entry with some members of its body replaced. */
  lemma DumpWithBody(e: Entry, b: Body)
    requires KindOf(b) == KindOf(e.body)
    ensures Dump(e.(body := b)).fields == Dump(e).fields + DumpBody(b)
  {
    DumpBodyKeys(b);
    DumpBodyKeys(e.body);
  }

  /** Putting one member of the body. */
  lemma PutBody(e: Entry, b: Body, k: string, v: Json)
    requires KindOf(b) == KindOf(e.body)
    requires k in DumpBody(e.body) && DumpBody(b) == DumpBody(e.body)[k := v]
    ensures k in Dump(e).fields && Dump(e).fields[k := v] == Dump(e.(body := b)).fields
  {
    DumpWithBody(e, b);
    assert (DumpHeader(e) + DumpBody(e.body))[k := v] == DumpHeader(e) + DumpBody(e.body)[k := v];
  }

  lemma PutStatus(e: Entry)
    ensures "generationStatus" in Dump(e).fields
    ensures Dump(e).fields["generationStatus" := COMPLETED] == Dump(e.(status := Complete)).fields
  {
    DumpBodyKeys(e.body);
    HeaderApart(e.body);
    assert "generationStatus" in HEADER_KEYS;
    assert DumpHeader(e)["generationStatus" := COMPLETED] == DumpHeader(e.(status := Complete));
  }

  lemma PutStamp(e: Entry, now: int)
    ensures "updatedAt" in Dump(e).fields
    ensures Dump(e).fields["updatedAt" := Num(now)] == Dump(e.(updatedAt := now)).fields
  {
    DumpBodyKeys(e.body);
    HeaderApart(e.body);
    assert "updatedAt" in HEADER_KEYS;
    assert DumpHeader(e)["updatedAt" := Num(now)] == DumpHeader(e.(updatedAt := now));
  }

  function Core(e: Entry, c: Change): Entry
    requires ChangedBody(e.body, c).Some?
  {
    e.(body := ChangedBody(e.body, c).value, status := if Completes(c) then Complete else e.status)
  }

  lemma ApplyOne(d: Json, a: Op)
    ensures Apply(d, [a]) == ApplyOp(d, a)
  {
    assert [a][1..] == [];
  }

  lemma {:induction false} ApplyMore(d: Json, a: Op, rest: seq<Op>)
    ensures Apply(d, [a] + rest) == match ApplyOp(d, a) case None => None case Some(d') => Apply(d', rest)
  {
    assert ([a] + rest)[1..] == rest;
  }

  /** Replace one member of the body, then complete the entry. */
  lemma ReplaceBody(e: Entry, b: Body, k: string, v: Json)
    requires KindOf(b) == KindOf(e.body)
    requires k in DumpBody(e.body) && DumpBody(b) == DumpBody(e.body)[k := v]
    ensures ApplyOp(Dump(e), Replace([k], v)) == Some(Dump(e.(body := b)))
  {
    PutBody(e, b, k, v);
    PutMember(Dump(e).fields, k, v);
  }

  lemma ReplaceStatus(e: Entry)
    ensures ApplyOp(Dump(e), Replace(["generationStatus"], COMPLETED)) == Some(Dump(e.(status := Complete)))
  {
    PutStatus(e);
    PutMember(Dump(e).fields, "generationStatus", COMPLETED);
  }

  lemma DumpedBlock(t: string, rest: seq<Block>)
    ensures DumpBlocks([Text(t)] + rest) == [DumpBlock(Text(t))] + DumpBlocks(rest)
  {
  }

  lemma FirstBlock(content: seq<Block>, t: string)
    requires content != []
    ensures var d := Arr(DumpBlocks(content));
            if content[0].Text?
            then && Resolve(d, ["0", "text"]) == Some(Str(content[0].text))
                 && EditAt(d, ["0", "text"], Put(Str(t))) == Some(Arr(DumpBlocks([Text(t)] + content[1..])))
            else Resolve(d, ["0", "text"]) == None
  {
    var d := Arr(DumpBlocks(content));
    assert Decimal("0") == 0 && IsIndex("0") by { assert "0"[..0] == ""; }
    assert Child(d, "0") == Some(DumpBlock(content[0]));
    PutInMember(DumpBlock(content[0]).fields, "text", [], Str(t));
    assert ["text"] + [] == ["text"] && ["0", "text"][1..] == ["text"];
    assert Resolve(d, ["0", "text"]) == Resolve(DumpBlock(content[0]), ["text"]);
    if content[0].Text? {
      assert DumpBlock(content[0]).fields["text" := Str(t)] == DumpBlock(Text(t)).fields;
      DumpedBlock(t, content[1..]);
      assert DumpBlocks(content)[0 := DumpBlock(Text(t))] == DumpBlocks([Text(t)] + content[1..]);
    }
  }

  /** Appending to a text somewhere below one member of an object. */
  lemma AppendInMember(m: map<string, Json>, k: string, rest: Pointer, t: string)
    ensures Apply(Obj(m), [Append([k] + rest, Str(t))])
         == if k !in m || !Resolve(m[k], rest).Some? || !Resolve(m[k], rest).value.Str? then None
            else match EditAt(m[k], rest, Put(Str(Resolve(m[k], rest).value.s + t)))
                 case None => None
                 case Some(x) => Some(Obj(m[k := x]))
  {
    ApplyOne(Obj(m), Append([k] + rest, Str(t)));
    PutInMember(m, k, rest, Null);
    if k in m && Resolve(m[k], rest).Some? && Resolve(m[k], rest).value.Str? {
      PutInMember(m, k, rest, Str(Resolve(m[k], rest).value.s + t));
    }
  }

  /** Which kinds of entry have the members the projector patches. */
  lemma MembersOf(b: Body)
    ensures "content" in DumpBody(b) <==> b.Message?
    ensures "text" in DumpBody(b) <==> b.Reasoning?
    ensures "state" in DumpBody(b) <==> b.Effect? || b.Callback?
    ensures "detail" in DumpBody(b) <==> b.Effect? || b.Callback? || b.Notice?
    ensures "details" in DumpBody(b) <==> b.Checkpoint?
  {
    match b {
      case Message(_, _, _, _) =>
      case Reasoning(_, _) =>
      case Effect(_, _, _) =>
      case Callback(_, _, _, _) =>
      case Checkpoint(_, _, _) =>
      case Notice(_, _, _) =>
    }
  }

  lemma DumpMember(e: Entry, k: string)
    requires k !in HEADER_KEYS
    ensures k in Dump(e).fields <==> k in DumpBody(e.body)
    ensures k in DumpBody(e.body) ==> Dump(e).fields[k] == DumpBody(e.body)[k]
  {
    assert DumpHeader(e).Keys == HEADER_KEYS;
  }

  lemma ContentMeans(e: Entry, t: string)
    ensures Apply(Dump(e), CoreOps(Content(t)))
         == if ChangedBody(e.body, Content(t)).Some? then Some(Dump(Core(e, Content(t)))) else None
  {
    DumpMember(e, "content");
    MembersOf(e.body);
    assert ["content", "0", "text"] == ["content"] + ["0", "text"];
    AppendInMember(Dump(e).fields, "content", ["0", "text"], t);
    if e.body.Message? {
      ContentOfMessage(e, t);
    }
  }

  lemma ContentOfMessage(e: Entry, t: string)
    requires e.body.Message?
    ensures var d := Arr(DumpBlocks(e.body.content));
            match ChangedBody(e.body, Content(t))
            case None => Resolve(d, ["0", "text"]) == None
            case Some(b) =>
              && Resolve(d, ["0", "text"]) == Some(Str(e.body.content[0].text))
              && EditAt(d, ["0", "text"], Put(Str(e.body.content[0].text + t))) == Some(Arr(DumpBlocks(b.content)))
              && Dump(e).fields["content" := Arr(DumpBlocks(b.content))] == Dump(e.(body := b)).fields
  {
    var content := e.body.content;
    var d := Arr(DumpBlocks(content));
    if content == [] {
      assert Child(d, "0") == None;
    } else {
      FirstBlock(content, "");
      if content[0].Text? {
        FirstBlock(content, content[0].text + t);
        var b := ChangedBody(e.body, Content(t)).value;
        PutBody(e, b, "content", Arr(DumpBlocks(b.content)));
      }
    }
  }

  lemma ReasonMeans(e: Entry, t: string)
    ensures Apply(Dump(e), CoreOps(Reason(t)))
         == if ChangedBody(e.body, Reason(t)).Some? then Some(Dump(Core(e, Reason(t)))) else None
  {
    DumpMember(e, "text");
    MembersOf(e.body);
    assert ["text"] == ["text"] + [];
    AppendInMember(Dump(e).fields, "text", [], t);
    if e.body.Reasoning? {
      var b := ChangedBody(e.body, Reason(t)).value;
      assert DumpBody(e.body)["text"] == Str(e.body.text);
      assert DumpBody(b) == DumpBody(e.body)["text" := Str(b.text)];
      PutBody(e, b, "text", Str(b.text));
    }
  }

  lemma OutputOfState(s: EffectState, t: string)
    ensures Resolve(DumpEffectState(s), ["outputText"])
         == if OutputText(s).Some? then Some(Str(OutputText(s).value)) else None
    ensures OutputText(s).Some? ==>
            EditAt(DumpEffectState(s), ["outputText"], Put(Str(t))) == Some(DumpEffectState(WithOutputText(s, t)))
  {
    var m := DumpEffectState(s).fields;
    assert ["outputText"] == ["outputText"] + [];
    PutInMember(m, "outputText", [], Str(t));
    if OutputText(s).Some? {
      assert m["outputText" := Str(t)] == DumpEffectState(WithOutputText(s, t)).fields;
    }
  }

  lemma NoOutputInCallback(s: CallbackState)
    ensures Resolve(DumpCallbackState(s), ["outputText"]) == None
  {
    assert ["outputText"] == ["outputText"] + [];
    PutInMember(DumpCallbackState(s).fields, "outputText", [], Null);
  }

  lemma PutState(e: Entry, b: Body)
    requires e.body.Effect? && b.Effect? && b.title == e.body.title && b.detail == e.body.detail
    ensures "state" in DumpBody(e.body) && DumpBody(e.body)["state"] == DumpEffectState(e.body.state)
    ensures Dump(e).fields["state" := DumpEffectState(b.state)] == Dump(e.(body := b)).fields
  {
    assert DumpBody(b) == DumpBody(e.body)["state" := DumpEffectState(b.state)];
    PutBody(e, b, "state", DumpEffectState(b.state));
  }

  lemma OutputMeans(e: Entry, t: string)
    ensures Apply(Dump(e), CoreOps(Output(t)))
         == if ChangedBody(e.body, Output(t)).Some? then Some(Dump(Core(e, Output(t)))) else None
  {
    DumpMember(e, "state");
    MembersOf(e.body);
    assert ["state", "outputText"] == ["state"] + ["outputText"];
    AppendInMember(Dump(e).fields, "state", ["outputText"], t);
    if e.body.Effect? {
      var s := e.body.state;
      OutputOfState(s, if OutputText(s).Some? then OutputText(s).value + t else "");
      PutState(e, if OutputText(s).Some? then ChangedBody(e.body, Output(t)).value else e.body);
    } else if e.body.Callback? {
      NoOutputInCallback(e.body.callbackState);
    }
  }

  lemma PutDetail(e: Entry, d: Json)
    requires e.body.Effect? || e.body.Callback? || e.body.Notice?
    ensures "detail" in DumpBody(e.body) && DumpBody(e.body)["detail"] == e.body.detail
    ensures Dump(e).fields["detail" := d] == Dump(e.(body := ChangedBody(e.body, Detail(d)).value)).fields
  {
    var b := ChangedBody(e.body, Detail(d)).value;
    assert DumpBody(b) == DumpBody(e.body)["detail" := d];
    PutBody(e, b, "detail", d);
  }

  /** Adopting a child is putting the detail with it. */
  lemma AdoptIsDetail(b: Body, x: Json)
    ensures ChangedBody(b, Adopt(x))
         == if (b.Effect? || b.Callback? || b.Notice?)
             && HasChild(b.detail) then ChangedBody(b, Detail(WithChildSession(b.detail, x))) else None
  {
  }

  lemma AdoptMeans(e: Entry, x: Json)
    ensures Apply(Dump(e), CoreOps(Adopt(x)))
         == if ChangedBody(e.body, Adopt(x)).Some? then Some(Dump(Core(e, Adopt(x)))) else None
  {
    hide DumpBody, DumpHeader, ChangedBody;
    ApplyOne(Dump(e), Replace(["detail", "childSessionId"], x));
    AdoptIsDetail(e.body, x);
    DumpMember(e, "detail");
    MembersOf(e.body);
    assert ["detail", "childSessionId"] == ["detail"] + ["childSessionId"];
    PutInMember(Dump(e).fields, "detail", ["childSessionId"], x);
    if e.body.Effect? || e.body.Callback? || e.body.Notice? {
      var d := e.body.detail;
      if d.Obj? {
        PutMember(d.fields, "childSessionId", x);
      } else {
        assert Child(d, "childSessionId") == None;
      }
      DetailDefined(e.body, if HasChild(d) then WithChildSession(d, x) else d);
      PutDetail(e, if HasChild(d) then WithChildSession(d, x) else d);
    }
  }

  lemma DetailDefined(b: Body, d: Json)
    requires b.Effect? || b.Callback? || b.Notice?
    ensures ChangedBody(b, Detail(d)).Some?
  {
  }

  lemma ReplaceMember(m: map<string, Json>, k: string, v: Json)
    ensures Apply(Obj(m), [Replace([k], v)]) == if k in m then Some(Obj(m[k := v])) else None
  {
    ApplyOne(Obj(m), Replace([k], v));
    PutMember(m, k, v);
  }

  lemma DetailMeans(e: Entry, d: Json)
    ensures Apply(Dump(e), CoreOps(Detail(d)))
         == if ChangedBody(e.body, Detail(d)).Some? then Some(Dump(Core(e, Detail(d)))) else None
  {
    ReplaceMember(Dump(e).fields, "detail", d);
    DumpMember(e, "detail");
    MembersOf(e.body);
    if e.body.Effect? || e.body.Callback? || e.body.Notice? { PutDetail(e, d); }
  }

  lemma FinishMeans(e: Entry)
    ensures Apply(Dump(e), CoreOps(Finish)) == Some(Dump(e.(status := Complete)))
  {
    ApplyOne(Dump(e), Replace(["generationStatus"], COMPLETED));
    ReplaceStatus(e);
  }

  lemma EffectToMeans(e: Entry, s: EffectState)
    requires e.body.Effect?
    ensures Apply(Dump(e), CoreOps(EffectTo(s))) == Some(Dump(e.(body := Effect(e.body.title, e.body.detail, s))))
  {
    ReplaceMember(Dump(e).fields, "state", DumpEffectState(s));
    DumpMember(e, "state");
    PutState(e, Effect(e.body.title, e.body.detail, s));
  }

  lemma SettleEffectMeans(e: Entry, s: EffectState)
    requires e.body.Effect?
    ensures Apply(Dump(e), CoreOps(SettleEffect(s)))
         == Some(Dump(e.(body := Effect(e.body.title, e.body.detail, s), status := Complete)))
  {
    var first, last := Replace(["state"], DumpEffectState(s)), Replace(["generationStatus"], COMPLETED);
    assert CoreOps(SettleEffect(s)) == [first] + [last];
    ApplyMore(Dump(e), first, [last]);
    ApplyOne(Dump(e), first);
    EffectToMeans(e, s);
    FinishMeans(e.(body := Effect(e.body.title, e.body.detail, s)));
  }

  lemma PutCallbackState(e: Entry, b: Body)
    requires e.body.Callback? && b.Callback? && b.callbackId == e.body.callbackId
    requires b.title == e.body.title && b.detail == e.body.detail
    ensures "state" in DumpBody(e.body)
    ensures Dump(e).fields["state" := DumpCallbackState(b.callbackState)] == Dump(e.(body := b)).fields
  {
    assert DumpBody(b) == DumpBody(e.body)["state" := DumpCallbackState(b.callbackState)];
    PutBody(e, b, "state", DumpCallbackState(b.callbackState));
  }

  lemma SettleCallbackMeans(e: Entry, s: CallbackState)
    requires e.body.Callback?
    ensures Apply(Dump(e), CoreOps(SettleCallback(s)))
         == Some(Dump(e.(body := Callback(e.body.callbackId, e.body.title, e.body.detail, s), status := Complete)))
  {
    hide DumpBody, DumpHeader;
    var first, last := Replace(["state"], DumpCallbackState(s)), Replace(["generationStatus"], COMPLETED);
    assert CoreOps(SettleCallback(s)) == [first] + [last];
    ApplyMore(Dump(e), first, [last]);
    ApplyOne(Dump(e), first);
    ReplaceMember(Dump(e).fields, "state", DumpCallbackState(s));
    DumpMember(e, "state");
    var b := Callback(e.body.callbackId, e.body.title, e.body.detail, s);
    PutCallbackState(e, b);
    FinishMeans(e.(body := b));
  }

  lemma ReplaceTwoMembers(m: map<string, Json>, k: string, v: Json, l: string, w: Json, last: Op)
    requires k != l
    ensures Apply(Obj(m), [Replace([k], v), Replace([l], w), last])
         == if k in m && l in m then Apply(Obj(m[k := v][l := w]), [last]) else None
  {
    assert [Replace([k], v), Replace([l], w), last] == [Replace([k], v)] + ([Replace([l], w)] + [last]);
    ApplyMore(Obj(m), Replace([k], v), [Replace([l], w)] + [last]);
    PutMember(m, k, v);
    if k in m {
      ApplyMore(Obj(m[k := v]), Replace([l], w), [last]);
      PutMember(m[k := v], l, w);
    }
  }

  lemma {:induction false} ApplyThree(d: Json, a: Op, b: Op, c: Op, d1: Json, d2: Json, d3: Json)
    requires ApplyOp(d, a) == Some(d1) && ApplyOp(d1, b) == Some(d2) && ApplyOp(d2, c) == Some(d3)
    ensures Apply(d, [a, b, c]) == Some(d3)
  {
    assert [a, b, c] == [a] + ([b] + [c]);
    ApplyMore(d, a, [b] + [c]);
    ApplyMore(d1, b, [c]);
    ApplyOne(d2, c);
  }

  lemma CheckpointMessage(e: Entry, text: Json)
    requires e.body.Checkpoint?
    ensures ApplyOp(Dump(e), Replace(["message"], text))
         == Some(Dump(e.(body := Checkpoint(e.body.kind, text, e.body.details))))
  {
    var b := Checkpoint(e.body.kind, text, e.body.details);
    assert DumpBody(b) == DumpBody(e.body)["message" := text];
    ReplaceBody(e, b, "message", text);
  }

  lemma CheckpointDetails(e: Entry, d: Json)
    requires e.body.Checkpoint?
    ensures ApplyOp(Dump(e), Replace(["details"], d))
         == Some(Dump(e.(body := Checkpoint(e.body.kind, e.body.message, d))))
  {
    var b := Checkpoint(e.body.kind, e.body.message, d);
    assert DumpBody(b) == DumpBody(e.body)["details" := d];
    ReplaceBody(e, b, "details", d);
  }

  lemma CompactedCheckpoint(e: Entry, d: Json, text: Json, a: Op, b: Op, c: Op)
    requires e.body.Checkpoint?
    requires a == Replace(["message"], text) && b == Replace(["details"], d)
        && c == Replace(["generationStatus"], COMPLETED)
    ensures Apply(Dump(e), [a, b, c])
         == Some(Dump(e.(body := Checkpoint(e.body.kind, text, d), status := Complete)))
  {
    var e1 := e.(body := Checkpoint(e.body.kind, text, e.body.details));
    var e2 := e.(body := Checkpoint(e.body.kind, text, d));
    CheckpointMessage(e, text);
    CheckpointDetails(e1, d);
    assert e1.(body := Checkpoint(e1.body.kind, e1.body.message, d)) == e2;
    ReplaceStatus(e2);
    ApplyThree(Dump(e), a, b, c, Dump(e1), Dump(e2), Dump(e2.(status := Complete)));
  }

  lemma CompactedOther(m: map<string, Json>, d: Json)
    requires "details" !in m
    ensures Apply(Obj(m), CoreOps(Compacted(d))) == None
  {
    ReplaceTwoMembers(m, "message", CONTEXT_COMPACTED, "details", d, Replace(["generationStatus"], COMPLETED));
  }

  lemma CompactedMeans(e: Entry, d: Json)
    ensures Apply(Dump(e), CoreOps(Compacted(d)))
         == if e.body.Checkpoint?
            then Some(Dump(e.(body := Checkpoint(e.body.kind, CONTEXT_COMPACTED, d), status := Complete)))
            else None
  {
    hide Apply, DumpBody, DumpHeader;
    if e.body.Checkpoint? {
      CompactedCheckpoint(e, d, CONTEXT_COMPACTED, Replace(["message"], CONTEXT_COMPACTED), Replace(["details"], d),
                          Replace(["generationStatus"], COMPLETED));
    } else {
      DumpMember(e, "details");
      MembersOf(e.body);
      CompactedOther(Dump(e).fields, d);
    }
  }

  // ---- a state of the wrong kind -------------------------------------------

  lemma EffectIsNoCallback(s: EffectState)
    ensures ReadCallbackState(DumpEffectState(s)) == None
  {
    var m := DumpEffectState(s).fields;
    if s.Pending? {
      assert |"pending"| != |"open"|;
      assert m.Keys == {"status"} && "output" !in m.Keys && "reason" !in m.Keys;
    } else if s.Skipped? {
      assert "display" in m.Keys;
      assert m.Keys != {"status"} && m.Keys != {"status", "output"} && m.Keys != {"status", "reason"};
    } else {
      assert "outputText" in m.Keys && |"outputText"| != |"output"|;
      assert m.Keys != {"status"} && m.Keys != {"status", "output"} && m.Keys != {"status", "reason"};
    }
  }

  lemma CallbackIsNoEffect(s: CallbackState)
    ensures ReadEffectState(DumpCallbackState(s)) == None
  {
    var m := DumpCallbackState(s).fields;
    assert |"outputText"| != |"output"|;
    assert "outputText" !in m.Keys && "display" !in m.Keys;
    if s.Open? { assert |"pending"| != |"open"|; } else { assert "output" in m.Keys || "reason" in m.Keys; }
  }

  /** An effect state on a callback entry, or the reverse, survives the patch
      but not the validation. */
  predicate WrongKind(b: Body, c: Change) {
    (b.Callback? && (c.EffectTo? || c.SettleEffect?)) || (b.Effect? && c.SettleCallback?)
  }

  lemma WrongKindRejected(e: Entry, c: Change, now: int)
    requires WrongKind(e.body, c)
    ensures Patched(e, Ops(c, now)) == None
  {
    var v := if c.SettleCallback? then DumpCallbackState(c.callbackState) else DumpEffectState(c.state);
    DumpMember(e, "state");
    DumpMember(e, "type");
    DumpBodyKeys(e.body);
    MembersOf(e.body);
    if c.SettleCallback? { CallbackIsNoEffect(c.callbackState); } else { EffectIsNoCallback(c.state); }
    assert Ops(c, now) == WrongKindOps(v, c.EffectTo?, now);
    WrongKindDocument(Dump(e).fields, v, c.EffectTo?, now);
    match Apply(Dump(e), Ops(c, now)) {
      case None =>
      case Some(j) => WrongKindInvalid(e, j, v);
    }
  }

  function WrongKindOps(v: Json, open: bool, now: int): seq<Op> {
    [Replace(["state"], v)] + (if open then [] else [Replace(["generationStatus"], COMPLETED)])
    + [Replace(["updatedAt"], Num(now))]
  }

  /** The patched document still holds the foreign state and its own kind. */
  lemma WrongKindDocument(m: map<string, Json>, v: Json, open: bool, now: int)
    requires "type" in m && "state" in m
    ensures match Apply(Obj(m), WrongKindOps(v, open, now))
            case None => true
            case Some(j) => j.Obj? && "state" in j.fields && j.fields["state"] == v
                            && "type" in j.fields && j.fields["type"] == m["type"]
  {
    var done, stamp := Replace(["generationStatus"], COMPLETED), Replace(["updatedAt"], Num(now));
    var m1 := m["state" := v];
    PutMember(m, "state", v);
    if open {
      assert WrongKindOps(v, open, now) == [Replace(["state"], v)] + [stamp];
      ApplyMore(Obj(m), Replace(["state"], v), [stamp]);
      ReplaceMember(m1, "updatedAt", Num(now));
    } else {
      assert WrongKindOps(v, open, now) == [Replace(["state"], v)] + ([done] + [stamp]);
      ApplyMore(Obj(m), Replace(["state"], v), [done] + [stamp]);
      ApplyMore(Obj(m1), done, [stamp]);
      PutMember(m1, "generationStatus", COMPLETED);
      if "generationStatus" in m1 {
        ReplaceMember(m1["generationStatus" := COMPLETED], "updatedAt", Num(now));
      }
    }
  }

  lemma WrongKindInvalid(e: Entry, j: Json, v: Json)
    requires j.Obj? && "state" in j.fields && j.fields["state"] == v
    requires "type" in j.fields && j.fields["type"] == Str(KindOf(e.body))
    requires e.body.Effect? ==> ReadEffectState(v) == None
    requires e.body.Callback? ==> ReadCallbackState(v) == None
    requires e.body.Effect? || e.body.Callback?
    ensures Validate(j) == None
  {
    assert StrAt(j.fields, "type") == Some(KindOf(e.body));
    if j.fields.Keys == HEADER_KEYS + BodyKeys(KindOf(e.body)) {
      assert ReadBody(j.fields, KindOf(e.body)) == None;
    }
  }

  // ---- the theorem ---------------------------------------------------------

  lemma {:induction false} ApplyConcat(d: Json, a: seq<Op>, b: seq<Op>)
    ensures Apply(d, a + b) == match Apply(d, a) case None => None case Some(d') => Apply(d', b)
    decreases |a|
  {
    if a == [] {
      assert a + b == b;
    } else {
      assert (a + b)[0] == a[0] && (a + b)[1..] == a[1..] + b;
      match ApplyOp(d, a[0]) { case None => case Some(d') => ApplyConcat(d', a[1..], b); }
    }
  }

  lemma StateAbsent(e: Entry, c: Change)
    requires c.EffectTo? || c.SettleEffect? || c.SettleCallback?
    requires !e.body.Effect? && !e.body.Callback?
    ensures Apply(Dump(e), CoreOps(c)) == None
  {
    DumpMember(e, "state");
    MembersOf(e.body);
    PutMember(Dump(e).fields, "state", CoreOps(c)[0].value);
    assert CoreOps(c) == [CoreOps(c)[0]] + CoreOps(c)[1..];
    ApplyMore(Dump(e), CoreOps(c)[0], CoreOps(c)[1..]);
  }

  lemma CoreMeans(e: Entry, c: Change)
    requires !WrongKind(e.body, c)
    ensures Apply(Dump(e), CoreOps(c)) == if ChangedBody(e.body, c).Some? then Some(Dump(Core(e, c))) else None
  {
    match c {
      case Content(t) => ContentMeans(e, t);
      case Reason(t) => ReasonMeans(e, t);
      case Output(t) => OutputMeans(e, t);
      case EffectTo(s) => if e.body.Effect? { EffectToMeans(e, s); } else { StateAbsent(e, c); }
      case SettleEffect(s) => if e.body.Effect? { SettleEffectMeans(e, s); } else { StateAbsent(e, c); }
      case SettleCallback(s) => if e.body.Callback? { SettleCallbackMeans(e, s); } else { StateAbsent(e, c); }
      case Finish => FinishMeans(e);
      case Detail(d) => DetailMeans(e, d);
      case Adopt(x) => AdoptMeans(e, x);
      case Compacted(d) => CompactedMeans(e, d);
    }
  }

  lemma StampMeans(e: Entry, now: int)
    ensures Apply(Dump(e), [Replace(["updatedAt"], Num(now))]) == Some(Dump(e.(updatedAt := now)))
  {
    PutStamp(e, now);
    ReplaceMember(Dump(e).fields, "updatedAt", Num(now));
  }

  /** Main result: dumping an entry, applying one of the projector's patches to
      the document and validating the outcome is exactly the typed change; the
      wire patch is rejected exactly when the change is undefined. */
  lemma PatchMeansChange(e: Entry, c: Change, now: int)
    requires WellTyped(e)
    ensures Patched(e, Ops(c, now)) == Changed(e, c, now)
  {
    if WrongKind(e.body, c) {
      WrongKindRejected(e, c, now);
    } else {
      CoreMeans(e, c);
      ApplyConcat(Dump(e), CoreOps(c), [Replace(["updatedAt"], Num(now))]);
      if ChangedBody(e.body, c).Some? {
        var core := Core(e, c);
        StampMeans(core, now);
        ValidateDump(core.(updatedAt := now));
      }
    }
  }
}
