/** What every action, and so every run of actions, keeps. */
module ProjectorFacts {
  import opened Prelude
  import opened Json
  import opened Entries
  import opened Changes
  import opened Projection

  // ---- unique ids and the index --------------------------------------------

  lemma IndexUnique(h: seq<Entry>, i: nat)
    requires UniqueIds(h) && i < |h|
    ensures Has(h, h[i].id) && IndexOf(h, h[i].id) == i
  {
    assert h[i].id == h[i].id;
    var j := IndexOf(h, h[i].id);
    assert j <= i;
  }

  lemma HasAppend(h: seq<Entry>, e: Entry, id: string)
    ensures Has(h + [e], id) <==> Has(h, id) || e.id == id
  {
    if Has(h, id) { var i :| 0 <= i < |h| && h[i].id == id; assert (h + [e])[i].id == id; }
    if e.id == id { assert (h + [e])[|h|].id == id; }
    if Has(h + [e], id) {
      var i :| 0 <= i < |h + [e]| && (h + [e])[i].id == id;
      if i < |h| { assert h[i].id == id; }
    }
  }

  lemma UniqueAppend(h: seq<Entry>, e: Entry)
    requires UniqueIds(h) && !Has(h, e.id)
    ensures UniqueIds(h + [e])
  {
    var h' := h + [e];
    forall i, j | 0 <= i < j < |h'| ensures h'[i].id != h'[j].id {
      if j == |h| { assert h[i] == h'[i]; }
    }
  }

  lemma ByIdAppend(h: seq<Entry>, e: Entry)
    requires UniqueIds(h) && !Has(h, e.id)
    ensures ById(h + [e]) == ById(h)[e.id := e]
  {
    UniqueAppend(h, e);
    ByIdIs(h);
    ByIdIs(h + [e]);
    forall id ensures id in ById(h + [e]) <==> id in ById(h)[e.id := e] { HasAppend(h, e, id); }
    forall id | id in ById(h + [e]) ensures ById(h + [e])[id] == ById(h)[e.id := e][id] {
      var i := IndexOf(h + [e], id);
      HasAppend(h, e, id);
      if i < |h| {
        IndexUnique(h, i);
        assert h[i].id == id;
      }
    }
  }

  lemma ByIdIs(h: seq<Entry>)
    ensures forall id :: id in ById(h) <==> Has(h, id)
    ensures forall id :: id in ById(h) ==> IndexOf(h, id) < |h| && ById(h)[id] == h[IndexOf(h, id)]
  {
    var ids := set i | 0 <= i < |h| :: h[i].id;
    forall id ensures id in ids <==> Has(h, id) {
      if Has(h, id) { var i :| 0 <= i < |h| && h[i].id == id; assert h[i].id in ids; }
    }
  }

  lemma UniqueUpdate(h: seq<Entry>, i: nat, e: Entry)
    requires UniqueIds(h) && i < |h| && e.id == h[i].id
    ensures UniqueIds(h[i := e])
    ensures forall id :: Has(h[i := e], id) <==> Has(h, id)
  {
    var h' := h[i := e];
    forall j, k | 0 <= j < k < |h'| ensures h'[j].id != h'[k].id { assert h[j].id != h[k].id; }
    forall id ensures Has(h', id) <==> Has(h, id) {
      if Has(h, id) { var j :| 0 <= j < |h| && h[j].id == id; assert h'[j].id == id; }
      if Has(h', id) { var j :| 0 <= j < |h'| && h'[j].id == id; assert h[j].id == id; }
    }
  }

  /** In a history of unique ids the index is the history read by id. */
  lemma ByIdAt(h: seq<Entry>, i: nat)
    requires UniqueIds(h) && i < |h|
    ensures h[i].id in ById(h) && ById(h)[h[i].id] == h[i]
  {
    IndexUnique(h, i);
    ByIdIs(h);
  }

  lemma ByIdUpdateAt(h: seq<Entry>, i: nat, e: Entry, j: nat)
    requires UniqueIds(h) && i < |h| && e.id == h[i].id && j < |h|
    ensures h[j].id in ById(h[i := e])
    ensures ById(h[i := e])[h[j].id] == if j == i then e else h[j]
  {
    UniqueUpdate(h, i, e);
    ByIdAt(h[i := e], j);
  }

  lemma ByIdUpdateKey(h: seq<Entry>, i: nat, e: Entry, id: string)
    requires UniqueIds(h) && i < |h| && e.id == h[i].id
    ensures id in ById(h[i := e]) <==> id in ById(h)[e.id := e]
    ensures id in ById(h) ==> ById(h[i := e])[id] == ById(h)[e.id := e][id]
  {
    UniqueUpdate(h, i, e);
    ByIdIs(h);
    ByIdIs(h[i := e]);
    ByIdAt(h, i);
    if id in ById(h) {
      var j := IndexOf(h, id);
      ByIdUpdateAt(h, i, e, j);
    }
  }

  lemma ByIdUpdate(h: seq<Entry>, i: nat, e: Entry)
    requires UniqueIds(h) && i < |h| && e.id == h[i].id
    ensures ById(h[i := e]) == ById(h)[e.id := e]
  {
    var m, m' := ById(h)[e.id := e], ById(h[i := e]);
    ByIdAt(h, i);
    forall id ensures (id in m' <==> id in m) && (id in m ==> m'[id] == m[id]) { ByIdUpdateKey(h, i, e, id); }
  }

  // ---- the invariant -------------------------------------------------------

  /** Holds in every state a projector can be in, also after an action raised. */
  ghost predicate Valid(s: State) {
    && UniqueIds(s.history)
    && s.entries == ById(s.history)
    && Owned(s.history, s.sessionId, s.turnId)
  }

  ghost predicate Owned(h: seq<Entry>, sessionId: string, turnId: Option<string>) {
    forall i :: 0 <= i < |h| ==> EntryOk(h[i], sessionId, turnId)
  }

  ghost predicate EntryOk(e: Entry, sessionId: string, turnId: Option<string>) {
    && WellTyped(e)
    && e.sessionId == sessionId && e.turnId == turnId
    && (e.body.Callback? ==> e.id == CallbackEntryId(e.body.callbackId))
  }

  lemma FreshIsValid(sessionId: string, turnId: Option<string>, preview: string)
    ensures Valid(Fresh(sessionId, turnId, preview))
  {
    assert ById([]) == map[];
  }

  /** What a command may bring in. */
  ghost predicate CmdOk(s: State, c: Cmd) {
    && (c.Create? || c.CreateSilently? ==> EntryOk(c.entry, s.sessionId, s.turnId))
  }

  lemma ChangedKeeps(e: Entry, c: Change, now: int)
    requires WellTyped(e) && Changed(e, c, now).Some?
    ensures var e' := Changed(e, c, now).value;
            && WellTyped(e') && SameIdentity(e, e') && e'.related == e.related
            && (e.body.Callback? ==> e'.body.Callback? && e'.body.callbackId == e.body.callbackId)
  {
  }

  /** A successful patch, in full. */
  lemma PatchStep(s: State, id: string, change: Change, now: int)
    requires Valid(s)
    ensures var o := Step(s, Patch(id, change, now));
            var i := IndexOf(s.history, id);
            if id in s.entries && s.entries[id].status.InProgress? && Changed(s.entries[id], change, now).Some? then
              && i < |s.history| && s.history[i] == s.entries[id] && o.error == None
              && o.state == s.(history := s.history[i := Changed(s.history[i], change, now).value],
                               entries := s.entries[id := Changed(s.history[i], change, now).value])
              && o.updates == [Updated(s.sessionId, id, Ops(change, now))]
            else o.error.Some? && o.state == s && o.updates == []
  {
    ByIdIs(s.history);
    if id in s.entries {
      var e := s.entries[id];
      assert EntryOk(s.history[IndexOf(s.history, id)], s.sessionId, s.turnId);
      PatchMeansChange(e, change, now);
      if Changed(e, change, now).Some? { ChangedKeeps(e, change, now); }
    }
  }

  lemma AddKeepsValid(s: State, e: Entry)
    requires Valid(s) && e.id !in s.entries && EntryOk(e, s.sessionId, s.turnId)
    ensures Valid(AddTo(s, e))
  {
    ByIdIs(s.history);
    UniqueAppend(s.history, e);
    ByIdAppend(s.history, e);
  }

  lemma UpdateKeepsValid(s: State, i: nat, e: Entry)
    requires Valid(s) && i < |s.history| && s.history[i].id == e.id && EntryOk(e, s.sessionId, s.turnId)
    ensures Valid(s.(history := s.history[i := e], entries := s.entries[e.id := e]))
  {
    UniqueUpdate(s.history, i, e);
    ByIdUpdate(s.history, i, e);
  }

  lemma PatchKeepsValid(s: State, id: string, change: Change, now: int)
    requires Valid(s)
    ensures Valid(Step(s, Patch(id, change, now)).state)
    ensures Step(s, Patch(id, change, now)).state.sessionId == s.sessionId
    ensures Step(s, Patch(id, change, now)).state.turnId == s.turnId
  {
    PatchStep(s, id, change, now);
    var t := Step(s, Patch(id, change, now)).state;
    if id in s.entries && s.entries[id].status.InProgress? && Changed(s.entries[id], change, now).Some? {
      PatchedIsValid(s, t, id, change, now);
    } else {
      assert t == s;
    }
  }

  lemma PatchedIsValid(s: State, t: State, id: string, change: Change, now: int)
    requires Valid(s) && id in s.entries
    requires var i := IndexOf(s.history, id);
             && i < |s.history| && s.history[i] == s.entries[id] && Changed(s.history[i], change, now).Some?
             && t == s.(history := s.history[i := Changed(s.history[i], change, now).value],
                        entries := s.entries[id := Changed(s.history[i], change, now).value])
    ensures Valid(t)
  {
    hide Changed, ById, Valid;
    var i := IndexOf(s.history, id);
    var e := s.history[i];
    assert EntryOk(e, s.sessionId, s.turnId) by { OwnedIn(s, i); }
    ChangedKeeps(e, change, now);
    UpdateKeepsValid(s, i, Changed(e, change, now).value);
  }

  lemma OwnedIn(s: State, i: nat)
    requires Valid(s) && i < |s.history|
    ensures EntryOk(s.history[i], s.sessionId, s.turnId)
  {
  }

  /** Commands that leave the history alone, and those that add to it. */
  lemma OtherKeepsValid(s: State, c: Cmd)
    requires Valid(s) && CmdOk(s, c) && !c.Patch?
    ensures Valid(Step(s, c).state)
    ensures Step(s, c).state.sessionId == s.sessionId && Step(s, c).state.turnId == s.turnId
  {
    if (c.Create? || c.CreateSilently?) && c.entry.id !in s.entries { AddKeepsValid(s, c.entry); }
  }

  lemma StepKeepsValid(s: State, c: Cmd)
    requires Valid(s) && CmdOk(s, c)
    ensures Valid(Step(s, c).state)
    ensures Step(s, c).state.sessionId == s.sessionId && Step(s, c).state.turnId == s.turnId
  {
    if c.Patch? { PatchKeepsValid(s, c.id, c.change, c.now); } else { OtherKeepsValid(s, c); }
  }

  lemma {:induction false} ExecKeepsValid(s: State, cs: seq<Cmd>)
    requires Valid(s) && forall i :: 0 <= i < |cs| ==> CmdOk(s, cs[i])
    ensures Valid(Exec(s, cs).state)
    ensures Exec(s, cs).state.sessionId == s.sessionId && Exec(s, cs).state.turnId == s.turnId
    decreases |cs|
  {
    if cs != [] {
      StepKeepsValid(s, cs[0]);
      assert CmdOk(s, cs[0]);
      if Step(s, cs[0]).error.None? {
        forall i | 0 <= i < |cs[1..]| ensures CmdOk(Step(s, cs[0]).state, cs[1..][i]) { assert CmdOk(s, cs[i + 1]); }
        ExecKeepsValid(Step(s, cs[0]).state, cs[1..]);
      }
    }
  }

  // ---- the shape of an action's commands -----------------------------------

  predicate Streaming(t: Table) { t.Assistant? || t.Reasonings? }

  /** The table and key a streamed chunk goes to. */
  function Target(a: Action): Option<(Table, string)> {
    match a
    case AssistantText(_, m) => Some((Assistant, if Given(m) then m.value else "assistant"))
    case ReasoningText(_, m) => Some((Reasonings, if Given(m) then m.value else "reasoning"))
    case _ => None
  }

  /** A compaction that ends without having started. */
  predicate Unannounced(s: State, a: Action) {
    a.CompactEnd? &&
    var known := (Checkpoints, a.callId) in s.ids;
    (if known then s.ids[(Checkpoints, a.callId)] else a.callId) !in s.entries
  }

  predicate NewEntry(s: State, e: Entry) {
    && e.sessionId == s.sessionId && e.turnId == s.turnId && WellTyped(e)
    && (e.body.Callback? ==> e.id == CallbackEntryId(e.body.callbackId) && e.status.InProgress?)
  }

  /** An entry of the history that is streamed, or no callback. */
  predicate Finishable(s: State, id: string) {
    exists i :: 0 <= i < |s.history| && s.history[i].id == id && (Streamed(s, id) || !s.history[i].body.Callback?)
  }

  /** Entries are new ones of this session and turn; only chunks extend texts or
      touch the streaming tables; only finishable entries are merely finished;
      callbacks are settled for good; nothing is added silently except by a
      compaction that was not announced. */
  predicate Shaped(s: State, a: Action, c: Cmd) {
    match c
    case Remember(t, _, _) => Streaming(t) ==> Target(a).Some?
    case Create(e) => NewEntry(s, e)
    case CreateSilently(e) => NewEntry(s, e) && Unannounced(s, a)
    case Patch(id, change, _) =>
      && (change.Content? || change.Reason? ==> Target(a).Some?)
      && (change.SettleCallback? ==> !change.callbackState.Open?)
      && (change.Finish? ==> Finishable(s, id))
    case _ => true
  }

  ghost predicate AllShaped(s: State, a: Action, cs: seq<Cmd>) {
    forall i :: 0 <= i < |cs| ==> Shaped(s, a, cs[i])
  }

  lemma ShapedJoin(s: State, a: Action, cs: seq<Cmd>, ds: seq<Cmd>)
    requires AllShaped(s, a, cs) && AllShaped(s, a, ds)
    ensures AllShaped(s, a, cs + ds)
  {
  }

  lemma {:induction false} ClosingShaped(s: State, a: Action, h: seq<Entry>, cancelled: bool, now: int, k: nat)
    requires k <= |s.history| && h == s.history[k..]
    ensures AllShaped(s, a, ClosingCmds(h, cancelled, now))
    decreases |h|
  {
    if h != [] {
      assert h[0] == s.history[k] && h[1..] == s.history[k + 1..];
      ClosingShaped(s, a, h[1..], cancelled, now, k + 1);
      var c := Closing(h[0], cancelled);
      if c.Finish? { assert Finishable(s, h[0].id) by { assert s.history[k].id == h[0].id; } }
      var first := if h[0].status.Complete? then [] else [Patch(h[0].id, c, now)];
      ShapedJoin(s, a, first, ClosingCmds(h[1..], cancelled, now));
    }
  }

  lemma {:induction false} FinishShaped(s: State, a: Action, h: seq<Entry>, now: int, k: nat)
    requires k <= |s.history| && h == s.history[k..]
    ensures AllShaped(s, a, FinishCmds(s, h, now))
    decreases |h|
  {
    hide Streamed;
    if h != [] {
      assert h[0] == s.history[k] && h[1..] == s.history[k + 1..];
      FinishShaped(s, a, h[1..], now, k + 1);
      var takes := Streamed(s, h[0].id) && h[0].status.InProgress?;
      if takes { assert Finishable(s, h[0].id) by { assert s.history[k].id == h[0].id; } }
      var first := if takes then [Patch(h[0].id, Finish, now)] else [];
      ShapedJoin(s, a, first, FinishCmds(s, h[1..], now));
    }
  }

  lemma EffectShaped(s: State, a: Action, callId: string, title: string, detail: Json, now: int)
    ensures AllShaped(s, a, EffectCmds(s, callId, title, detail, now))
  {
  }

  /** Calls, streams and results of tools, and effects of the harness. */
  lemma EffectsShaped(s: State, a: Action, newId: string, now: int)
    requires a.ToolStream? || a.ToolResult? || a.StartEffect? || a.CompleteEffect?
    ensures AllShaped(s, a, Commands(s, a, newId, now))
  {
    hide EffectCmds;
    if a.StartEffect? { EffectShaped(s, a, a.callId, a.title, a.detail, now); }
  }

  lemma CallShaped(s: State, a: Action, newId: string, now: int)
    requires a.ToolCall?
    ensures AllShaped(s, a, Commands(s, a, newId, now))
  {
    hide EffectCmds, FinishCmds, AllShaped, Shaped;
    assert s.history[0..] == s.history;
    FinishShaped(s, a, s.history, now, 0);
    var rest := match a.presented
      case None => [Raise(MissingPresentation)]
      case Some(detail) => EffectCmds(s, a.callId, a.title, detail, now);
    if a.presented.Some? { EffectShaped(s, a, a.callId, a.title, a.presented.value, now); }
        else { RaiseShaped(s, a, MissingPresentation); }
    ShapedJoin(s, a, FinishCmds(s, s.history, now), rest);
  }

  lemma RaiseShaped(s: State, a: Action, error: Error)
    ensures AllShaped(s, a, [Raise(error)])
  {
  }

  lemma MessagesShaped(s: State, a: Action, newId: string, now: int)
    requires a.UserMessage? || a.AssistantText? || a.ReasoningText? || a.NoticeShown? || a.TitleUpdated?
        || a.OtherEvent?
    ensures AllShaped(s, a, Commands(s, a, newId, now))
  {
  }

  lemma CompactionShaped(s: State, a: Action, newId: string, now: int)
    requires a.CompactStart? || a.CompactEnd?
    ensures AllShaped(s, a, Commands(s, a, newId, now))
  {
  }

  lemma CallbackShaped(s: State, a: Action, newId: string, now: int)
    requires a.OpenCallback? || a.ResolveCallback?
    ensures AllShaped(s, a, Commands(s, a, newId, now))
  {
  }

  lemma SubagentShaped(s: State, a: Action, newId: string, now: int)
    requires a.LinkSubagent? || a.ReplaceSubagent? || a.UnlinkSubagent?
    ensures AllShaped(s, a, Commands(s, a, newId, now))
  {
  }

  lemma CommandsShaped(s: State, a: Action, newId: string, now: int)
    ensures AllShaped(s, a, Commands(s, a, newId, now))
  {
    hide Commands, AllShaped;
    match a {
      case Finalize(cancelled) =>
        assert s.history[0..] == s.history;
        ClosingShaped(s, a, s.history, cancelled, now, 0);
        FinalizeIs(s, cancelled, newId, now);
      case ToolCall(_, _, _) => CallShaped(s, a, newId, now);
      case ToolStream(_, _) => EffectsShaped(s, a, newId, now);
      case ToolResult(_, _, _, _) => EffectsShaped(s, a, newId, now);
      case StartEffect(_, _, _) => EffectsShaped(s, a, newId, now);
      case CompleteEffect(_, _) => EffectsShaped(s, a, newId, now);
      case CompactStart(_, _) => CompactionShaped(s, a, newId, now);
      case CompactEnd(_, _) => CompactionShaped(s, a, newId, now);
      case OpenCallback(_, _, _, _) => CallbackShaped(s, a, newId, now);
      case ResolveCallback(_, _) => CallbackShaped(s, a, newId, now);
      case LinkSubagent(_, _) => SubagentShaped(s, a, newId, now);
      case ReplaceSubagent(_, _, _) => SubagentShaped(s, a, newId, now);
      case UnlinkSubagent(_, _) => SubagentShaped(s, a, newId, now);
      case _ => MessagesShaped(s, a, newId, now);
    }
  }

  lemma FinalizeIs(s: State, cancelled: bool, newId: string, now: int)
    ensures Commands(s, Finalize(cancelled), newId, now) == ClosingCmds(s.history, cancelled, now)
  {
  }

  lemma CommandsOk(s: State, a: Action, newId: string, now: int)
    ensures forall i :: 0 <= i < |Commands(s, a, newId, now)| ==> CmdOk(s, Commands(s, a, newId, now)[i])
  {
    hide Commands;
    CommandsShaped(s, a, newId, now);
    forall i | 0 <= i < |Commands(s, a, newId, now)| ensures CmdOk(s, Commands(s, a, newId, now)[i]) {
      assert Shaped(s, a, Commands(s, a, newId, now)[i]);
    }
  }

  /** Every action keeps the invariant, whether or not it raises. */
  lemma ProjectKeepsValid(s: State, a: Action, newId: string, now: int)
    requires Valid(s)
    ensures Valid(Project(s, a, newId, now).state)
    ensures Project(s, a, newId, now).state.sessionId == s.sessionId
    ensures Project(s, a, newId, now).state.turnId == s.turnId
  {
    CommandsOk(s, a, newId, now);
    ExecKeepsValid(s, Commands(s, a, newId, now));
  }

  // ---- append only, frozen when complete -----------------------------------

  predicate Advances(a: Entry, b: Entry) {
    SameIdentity(a, b) && (a.status.Complete? ==> b == a)
  }

  /** The old entries, in place, followed by new ones. */
  predicate Grows(h: seq<Entry>, h': seq<Entry>) {
    |h| <= |h'| && forall i :: 0 <= i < |h| ==> Advances(h[i], h'[i])
  }

  lemma StepGrows(s: State, c: Cmd)
    requires Valid(s)
    ensures Grows(s.history, Step(s, c).state.history)
  {
    hide PatchIn, Changed, Valid;
    if c.Patch? {
      PatchStep(s, c.id, c.change, c.now);
      if Step(s, c).error.None? {
        OwnedIn(s, IndexOf(s.history, c.id));
        ChangedKeeps(s.entries[c.id], c.change, c.now);
      }
    }
  }

  lemma {:induction false} ExecGrows(s: State, cs: seq<Cmd>)
    requires Valid(s) && forall i :: 0 <= i < |cs| ==> CmdOk(s, cs[i])
    ensures Grows(s.history, Exec(s, cs).state.history)
    decreases |cs|
  {
    if cs != [] {
      assert CmdOk(s, cs[0]);
      StepGrows(s, cs[0]);
      StepKeepsValid(s, cs[0]);
      var s1 := Step(s, cs[0]).state;
      if Step(s, cs[0]).error.None? {
        forall i | 0 <= i < |cs[1..]| ensures CmdOk(s1, cs[1..][i]) { assert CmdOk(s, cs[i + 1]); }
        ExecGrows(s1, cs[1..]);
        GrowsTransitive(s.history, s1.history, Exec(s1, cs[1..]).state.history);
      }
    }
  }

  lemma GrowsTransitive(a: seq<Entry>, b: seq<Entry>, c: seq<Entry>)
    requires Grows(a, b) && Grows(b, c)
    ensures Grows(a, c)
  {
    forall i | 0 <= i < |a| ensures Advances(a[i], c[i]) { assert Advances(a[i], b[i]) && Advances(b[i], c[i]); }
  }

  // ---- the updates tell the whole story ------------------------------------

  lemma StepReplays(s: State, c: Cmd)
    requires Valid(s) && !c.CreateSilently?
    ensures Replay(s.history, Step(s, c).updates) == Some(Step(s, c).state.history)
  {
    hide PatchIn, Valid, ById;
    if c.Patch? {
      PatchReplays(s, c.id, c.change, c.now);
    } else {
      KnownIsHad(s);
      var o := Step(s, c);
      if |o.updates| == 1 { assert o.updates[1..] == []; }
    }
  }

  lemma KnownIsHad(s: State)
    requires Valid(s)
    ensures forall id :: id in s.entries <==> Has(s.history, id)
  {
    ByIdIs(s.history);
  }

  lemma PatchReplays(s: State, id: string, change: Change, now: int)
    requires Valid(s)
    ensures var o := Step(s, Patch(id, change, now)); Replay(s.history, o.updates) == Some(o.state.history)
  {
    hide Step, Valid, Patched, Changed;
    PatchStep(s, id, change, now);
    var o := Step(s, Patch(id, change, now));
    if o.error.None? {
      var i := IndexOf(s.history, id);
      OwnedIn(s, i);
      PatchMeansChange(s.history[i], change, now);
      assert o.updates[1..] == [];
    }
  }

  lemma {:induction false} ExecReplays(s: State, cs: seq<Cmd>)
    requires Valid(s) && forall i :: 0 <= i < |cs| ==> CmdOk(s, cs[i]) && !cs[i].CreateSilently?
    ensures Replay(s.history, Exec(s, cs).updates) == Some(Exec(s, cs).state.history)
    decreases |cs|
  {
    if cs != [] {
      assert CmdOk(s, cs[0]);
      var first := Step(s, cs[0]);
      StepReplays(s, cs[0]);
      StepKeepsValid(s, cs[0]);
      if first.error.None? {
        forall i | 0 <= i < |cs[1..]| ensures CmdOk(first.state, cs[1..][i]) && !cs[1..][i].CreateSilently? {
          assert CmdOk(s, cs[i + 1]);
        }
        ExecReplays(first.state, cs[1..]);
        ReplayConcat(s.history, first.updates, Exec(first.state, cs[1..]).updates);
      }
    }
  }

  lemma NoSilentCreate(s: State, a: Action, newId: string, now: int)
    requires !Unannounced(s, a)
    ensures forall i :: 0 <= i < |Commands(s, a, newId, now)| ==> !Commands(s, a, newId, now)[i].CreateSilently?
  {
    hide Commands, Unannounced;
    CommandsShaped(s, a, newId, now);
    forall i | 0 <= i < |Commands(s, a, newId, now)| ensures !Commands(s, a, newId, now)[i].CreateSilently? {
      assert Shaped(s, a, Commands(s, a, newId, now)[i]);
    }
  }

  /** Main result: what an action that does not raise hands out, replayed on the
      history before it, gives the history after it. */
  lemma UpdatesReplay(s: State, a: Action, newId: string, now: int)
    requires Valid(s) && !Unannounced(s, a)
    requires Project(s, a, newId, now).error.None?
    ensures Replay(s.history, Project(s, a, newId, now).updates) == Some(Project(s, a, newId, now).state.history)
  {
    CommandsOk(s, a, newId, now);
    NoSilentCreate(s, a, newId, now);
    ExecReplays(s, Commands(s, a, newId, now));
  }

  /** A compaction that was never announced adds an entry nobody is told of, so
      its updates do not reproduce the history. */
  lemma {:induction false} UnannouncedIsLost(s: State, a: Action, newId: string, now: int)
    requires Valid(s) && Unannounced(s, a)
    ensures Project(s, a, newId, now).error.None?
    ensures Replay(s.history, Project(s, a, newId, now).updates) == Some(s.history)
    ensures |Project(s, a, newId, now).state.history| == |s.history| + 1
  {
    hide PatchIn, ById;
    var id := if (Checkpoints, a.callId) in s.ids then s.ids[(Checkpoints, a.callId)] else a.callId;
    var e := Fields(s, id, InProgress, None, Checkpoint("compaction", Null, Null), now);
    var remember, create := Remember(Checkpoints, a.callId, id), CreateSilently(e);
    var patch := Patch(id, Compacted(a.details), now);
    assert Commands(s, a, newId, now) == [remember, create, patch];
    var s1 := Step(s, remember).state;
    var s2 := AddTo(s1, e);
    AddedThenPatched(s1, e, a.details, now);
    var last := Step(s2, patch);
    ExecThree(s, remember, create, patch, Step(s, remember), Step(s1, create), last);
    assert [] + [] + last.updates == last.updates;
    ByIdIs(s.history);
    assert last.updates[1..] == [];
    assert ReplayOne(s.history, last.updates[0]) == Some(s.history);
  }

  lemma {:induction false} ExecThree(s: State, a: Cmd, b: Cmd, c: Cmd, oa: Outcome, ob: Outcome, oc: Outcome)
    requires oa == Step(s, a) && oa.error.None?
    requires ob == Step(oa.state, b) && ob.error.None?
    requires oc == Step(ob.state, c)
    ensures Exec(s, [a, b, c]) == Outcome(oc.state, oa.updates + ob.updates + oc.updates, oc.error)
  {
    hide Step;
    assert [a, b, c][1..] == [b, c] && [b, c][1..] == [c] && [c][1..] == [];
    ExecOne(ob.state, c);
    assert Exec(oa.state, [b, c]) == Outcome(oc.state, ob.updates + oc.updates, oc.error);
    assert oa.updates + (ob.updates + oc.updates) == oa.updates + ob.updates + oc.updates;
  }

  lemma {:induction false} ExecOne(s: State, c: Cmd)
    ensures Exec(s, [c]) == Step(s, c)
  {
    assert [c][1..] == [];
    assert Step(s, c).updates + [] == Step(s, c).updates;
  }

  lemma AddedThenPatched(s: State, e: Entry, details: Json, now: int)
    requires Valid(s) && e.id !in s.entries && EntryOk(e, s.sessionId, s.turnId)
    requires e.status.InProgress? && e.body.Checkpoint?
    ensures var o := Step(AddTo(s, e), Patch(e.id, Compacted(details), now));
            && o.error == None && o.updates == [Updated(s.sessionId, e.id, Ops(Compacted(details), now))]
            && |o.state.history| == |s.history| + 1
  {
    hide Step, PatchIn, Valid, ById;
    AddKeepsValid(s, e);
    PatchStep(AddTo(s, e), e.id, Compacted(details), now);
  }
}
