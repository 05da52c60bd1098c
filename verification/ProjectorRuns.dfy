/** Whole runs of a projector: what stays, what a streamed text amounts to, and
    how a turn's end closes everything. */
module ProjectorRuns {
  import opened Prelude
  import opened Entries
  import opened Changes
  import opened Projection
  import opened ProjectorFacts

  /** One action with the id and the time it draws. */
  datatype Call = Call(action: Action, newId: string, now: int)

  function Do(s: State, c: Call): Outcome { Project(s, c.action, c.newId, c.now) }

  /** The state after a run; actions that raise keep what they had done. */
  function After(s: State, calls: seq<Call>): State
    decreases |calls|
  {
    if calls == [] then s else After(Do(s, calls[0]).state, calls[1..])
  }

  lemma DoKeeps(s: State, c: Call)
    requires Valid(s)
    ensures Valid(Do(s, c).state) && Grows(s.history, Do(s, c).state.history)
    ensures Do(s, c).state.sessionId == s.sessionId && Do(s, c).state.turnId == s.turnId
  {
    ProjectKeepsValid(s, c.action, c.newId, c.now);
    CommandsOk(s, c.action, c.newId, c.now);
    ExecGrows(s, Commands(s, c.action, c.newId, c.now));
  }

  /** Main result: over any run, raising actions included, the invariant holds,
      the history only grows at its end, identities never change and completed
      entries are frozen. */
  lemma {:induction false} RunGrows(s: State, calls: seq<Call>)
    requires Valid(s)
    ensures Valid(After(s, calls)) && Grows(s.history, After(s, calls).history)
    decreases |calls|
  {
    if calls != [] {
      var c := calls[0];
      DoKeeps(s, c);
      RunGrows(Do(s, c).state, calls[1..]);
      GrowsTransitive(s.history, Do(s, c).state.history, After(s, calls).history);
    }
  }

  // ---- streamed texts ------------------------------------------------------

  predicate Holds(t: Table, b: Body, text: string) {
    match t
    case Assistant => b.Message? && b.content == [Text(text)]
    case Reasonings => b.Reasoning? && b.text == text
    case _ => false
  }

  /** What a call says to a key. */
  function Says(c: Call, k: (Table, string)): string { if Target(c.action) == Some(k) then c.action.chunk else "" }

  /** All chunks of a run for one key, joined. */
  function Spoken(calls: seq<Call>, k: (Table, string)): string
    decreases |calls|
  {
    if calls == [] then ""
    else Says(calls[0], k) + Spoken(calls[1..], k)
  }

  function Told(texts: map<(Table, string), string>, k: (Table, string)): string {
    if k in texts then texts[k] else ""
  }

  /** The streaming tables name distinct entries that hold the given texts. */
  ghost predicate Tracks(s: State, texts: map<(Table, string), string>) {
    && (forall k :: k in texts <==> k in s.ids && Streaming(k.0))
    && (forall k :: k in texts ==> s.ids[k] in s.entries && Holds(k.0, s.entries[s.ids[k]].body, texts[k]))
    && (forall k, l :: k in texts && l in texts && s.ids[k] == s.ids[l] ==> k == l)
  }

  /** Commands that neither open nor extend a streamed text. */
  predicate Mute(c: Cmd) {
    && (c.Remember? ==> !Streaming(c.table))
    && (c.Patch? ==> !c.change.Content? && !c.change.Reason?)
  }

  lemma MutedKeeps(e: Entry, c: Change, now: int, t: Table, text: string)
    requires !c.Content? && !c.Reason? && Changed(e, c, now).Some?
    requires Holds(t, e.body, text)
    ensures Holds(t, Changed(e, c, now).value.body, text)
  {
  }

  /** Replacing one entry by one that holds the same text. */
  lemma ReplacedTracks(s: State, s': State, texts: map<(Table, string), string>, id: string)
    requires Tracks(s, texts) && id in s.entries && id in s'.entries
    requires s'.ids == s.ids && s'.entries == s.entries[id := s'.entries[id]]
    requires forall t, text :: Holds(t, s.entries[id].body, text) ==> Holds(t, s'.entries[id].body, text)
    ensures Tracks(s', texts)
  {
    forall k | k in texts ensures s'.ids[k] in s'.entries && Holds(k.0, s'.entries[s'.ids[k]].body, texts[k]) {
      assert Holds(k.0, s.entries[s.ids[k]].body, texts[k]);
    }
  }

  lemma PatchTracks(s: State, texts: map<(Table, string), string>, id: string, change: Change, now: int)
    requires Valid(s) && Tracks(s, texts) && !change.Content? && !change.Reason?
    requires Step(s, Patch(id, change, now)).error.None?
    ensures Tracks(Step(s, Patch(id, change, now)).state, texts)
  {
    hide Step, Tracks, Holds, Changed, Valid;
    PatchStep(s, id, change, now);
    var s' := Step(s, Patch(id, change, now)).state;
    assert s'.entries[id] == Changed(s.entries[id], change, now).value;
    forall t, text | Holds(t, s.entries[id].body, text) ensures Holds(t, s'.entries[id].body, text) {
      MutedKeeps(s.entries[id], change, now, t, text);
    }
    ReplacedTracks(s, s', texts, id);
  }

  lemma RememberTracks(s: State, texts: map<(Table, string), string>, t: Table, key: string, id: string)
    requires Tracks(s, texts) && !Streaming(t)
    ensures Tracks(s.(ids := s.ids[(t, key) := id]), texts)
  {
    assert (t, key) !in texts;
  }

  lemma CreateTracks(s: State, texts: map<(Table, string), string>, e: Entry)
    requires Tracks(s, texts) && e.id !in s.entries
    ensures Tracks(AddTo(s, e), texts)
  {
  }

  lemma StepTracks(s: State, texts: map<(Table, string), string>, c: Cmd)
    requires Valid(s) && Tracks(s, texts) && Mute(c) && Step(s, c).error.None?
    ensures Tracks(Step(s, c).state, texts)
  {
    hide PatchIn, Tracks, Valid;
    match c {
      case Patch(id, change, now) => PatchTracks(s, texts, id, change, now);
      case Remember(t, key, id) => RememberTracks(s, texts, t, key, id);
      case Create(e) => CreateTracks(s, texts, e);
      case CreateSilently(e) => CreateTracks(s, texts, e);
      case SetPreview(p) => assert Tracks(s.(preview := p), texts) by { PreviewTracks(s, texts, p); }
      case _ =>
    }
  }

  lemma PreviewTracks(s: State, texts: map<(Table, string), string>, p: string)
    requires Tracks(s, texts)
    ensures Tracks(s.(preview := p), texts)
  {
  }

  lemma {:induction false} ExecTracks(s: State, texts: map<(Table, string), string>, cs: seq<Cmd>)
    requires Valid(s) && Tracks(s, texts) && Exec(s, cs).error.None?
    requires forall i :: 0 <= i < |cs| ==> Mute(cs[i]) && CmdOk(s, cs[i])
    ensures Tracks(Exec(s, cs).state, texts)
    decreases |cs|
  {
    if cs != [] {
      assert Mute(cs[0]) && CmdOk(s, cs[0]);
      StepTracks(s, texts, cs[0]);
      StepKeepsValid(s, cs[0]);
      var s1 := Step(s, cs[0]).state;
      forall i | 0 <= i < |cs[1..]| ensures Mute(cs[1..][i]) && CmdOk(s1, cs[1..][i]) {
        assert Mute(cs[i + 1]) && CmdOk(s, cs[i + 1]);
      }
      ExecTracks(s1, texts, cs[1..]);
    }
  }

  lemma CommandsMute(s: State, c: Call)
    requires Target(c.action).None?
    ensures forall i :: 0 <= i < |Commands(s, c.action, c.newId, c.now)| ==>
              Mute(Commands(s, c.action, c.newId, c.now)[i])
  {
    hide Commands, Target;
    CommandsShaped(s, c.action, c.newId, c.now);
    forall i | 0 <= i < |Commands(s, c.action, c.newId, c.now)| ensures Mute(Commands(s, c.action, c.newId, c.now)[i]) {
      assert Shaped(s, c.action, Commands(s, c.action, c.newId, c.now)[i]);
    }
  }

  function Stream(t: Table, chunk: string): Change { if t.Assistant? then Content(chunk) else Reason(chunk) }

  lemma StreamedHolds(e: Entry, t: Table, text: string, chunk: string, now: int)
    requires Streaming(t) && Holds(t, e.body, text) && Changed(e, Stream(t, chunk), now).Some?
    ensures Holds(t, Changed(e, Stream(t, chunk), now).value.body, text + chunk)
  {
    if t.Assistant? { assert [Text(text + chunk)] + e.body.content[1..] == [Text(text + chunk)]; }
  }

  lemma ExtendedTracks(s: State, s': State, texts: map<(Table, string), string>, k: (Table, string), text: string)
    requires Tracks(s, texts) && k in texts
    requires s.ids[k] in s'.entries && Holds(k.0, s'.entries[s.ids[k]].body, text)
    requires s'.ids == s.ids && s'.entries == s.entries[s.ids[k] := s'.entries[s.ids[k]]]
    ensures Tracks(s', texts[k := text])
  {
    var texts' := texts[k := text];
    forall l | l in texts' ensures s'.ids[l] in s'.entries && Holds(l.0, s'.entries[s'.ids[l]].body, texts'[l]) {
      if l != k { assert s.ids[l] != s.ids[k]; }
    }
  }

  lemma ExtendTracks(s: State, texts: map<(Table, string), string>, k: (Table, string), chunk: string, now: int)
    requires Valid(s) && Tracks(s, texts) && k in texts && k in s.ids && Streaming(k.0)
    requires s.ids[k] in s.entries && Holds(k.0, s.entries[s.ids[k]].body, texts[k])
    requires Step(s, Patch(s.ids[k], Stream(k.0, chunk), now)).error.None?
    ensures Tracks(Step(s, Patch(s.ids[k], Stream(k.0, chunk), now)).state, texts[k := texts[k] + chunk])
  {
    hide Step, Tracks, Holds, Changed, Valid, Stream;
    var id, change := s.ids[k], Stream(k.0, chunk);
    PatchStep(s, id, change, now);
    var s' := Step(s, Patch(id, change, now)).state;
    assert s'.entries[id] == Changed(s.entries[id], change, now).value;
    StreamedHolds(s.entries[id], k.0, texts[k], chunk, now);
    ExtendedTracks(s, s', texts, k, texts[k] + chunk);
  }

  lemma OpenTracks(s: State, texts: map<(Table, string), string>, k: (Table, string), e: Entry, chunk: string)
    requires Tracks(s, texts) && k !in texts && Streaming(k.0)
    requires e.id !in s.entries && Holds(k.0, e.body, chunk)
    ensures Tracks(AddTo(s.(ids := s.ids[k := e.id]), e), texts[k := chunk])
  {
  }

  /** One quiet action extends the text of its target and leaves the others. */
  lemma DoTracks(s: State, texts: map<(Table, string), string>, c: Call)
    requires Valid(s) && Tracks(s, texts) && Do(s, c).error.None?
    ensures Tracks(Do(s, c).state, Heard(texts, c))
  {
    hide PatchIn, Valid, Tracks;
    if Target(c.action).None? {
      CommandsMute(s, c);
      CommandsOk(s, c.action, c.newId, c.now);
      ExecTracks(s, texts, Commands(s, c.action, c.newId, c.now));
    } else {
      ChunkTracks(s, texts, c, Target(c.action).value);
    }
  }

  lemma ChunkTracks(s: State, texts: map<(Table, string), string>, c: Call, k: (Table, string))
    requires Valid(s) && Tracks(s, texts) && Do(s, c).error.None? && Target(c.action) == Some(k)
    ensures Tracks(Do(s, c).state, texts[k := Told(texts, k) + c.action.chunk])
  {
    hide PatchIn, Valid, Streamed;
    var cs, chunk := Commands(s, c.action, c.newId, c.now), c.action.chunk;
    if k in s.ids {
      assert k in texts;
      assert cs == [Patch(s.ids[k], Stream(k.0, chunk), c.now)];
      ExecOne(s, cs[0]);
      ExtendTracks(s, texts, k, chunk, c.now);
    } else {
      var e := cs[1].entry;
      assert cs == [Remember(k.0, k.1, e.id), Create(e)] && cs[1..] == [Create(e)];
      var s1 := Step(s, cs[0]).state;
      assert s1 == s.(ids := s.ids[k := e.id]);
      ExecOne(s1, Create(e));
      assert Exec(s, cs).state == Step(s1, Create(e)).state && Step(s1, Create(e)).error.None?;
      assert k !in texts && "" + chunk == chunk;
      OpenTracks(s, texts, k, e, chunk);
    }
  }

  function Heard(texts: map<(Table, string), string>, c: Call): map<(Table, string), string> {
    var k := Target(c.action);
    if k.None? then texts else texts[k.value := Told(texts, k.value) + Says(c, k.value)]
  }

  lemma FreshTracks(sessionId: string, turnId: Option<string>, preview: string)
    ensures Tracks(Fresh(sessionId, turnId, preview), map[])
  {
  }

  // ---- one text over any run -----------------------------------------------

  /** The entry a chunk goes to: the one its key stands for, or else the one the
      message names or draws. */
  function EntryOf(s: State, c: Call): string
    requires Target(c.action).Some?
  {
    var k := Target(c.action).value;
    if k in s.ids then s.ids[k] else if Given(c.action.messageId) then c.action.messageId.value else c.newId
  }

  /** A chunk of this key, or one of the same kind for the key's entry. */
  predicate Concerns(s: State, c: Call, k: (Table, string)) {
    Target(c.action).Some? &&
    var l := Target(c.action).value;
    l == k || (l.0 == k.0 && k in s.ids && EntryOf(s, c) == s.ids[k])
  }

  /** None of these raises; everything else may. */
  predicate Undisturbed(s: State, calls: seq<Call>, k: (Table, string))
    decreases |calls|
  {
    calls != [] ==>
      && (Concerns(s, calls[0], k) ==> Do(s, calls[0]).error.None?)
      && Undisturbed(Do(s, calls[0]).state, calls[1..], k)
  }

  /** Streaming keys stand for entries, and this one alone, among those of its
      kind, for an entry with this text. */
  ghost predicate Reads(s: State, k: (Table, string), text: string) {
    && (forall l :: l in s.ids && Streaming(l.0) ==> s.ids[l] in s.entries)
    && (if k in s.ids then
          && s.ids[k] in s.entries && Holds(k.0, s.entries[s.ids[k]].body, text)
          && (forall l :: l in s.ids && l.0 == k.0 && l != k ==> s.ids[l] != s.ids[k])
        else text == "")
  }

  lemma PatchReads(s: State, k: (Table, string), text: string, id: string, change: Change, now: int)
    requires Valid(s) && Reads(s, k, text) && Streaming(k.0)
    requires Step(s, Patch(id, change, now)).error.None? && k in s.ids ==>
               id != s.ids[k] || (!change.Content? && !change.Reason?)
    ensures Reads(Step(s, Patch(id, change, now)).state, k, text)
  {
    hide Step, Holds, Changed, Valid;
    PatchStep(s, id, change, now);
    if Step(s, Patch(id, change, now)).error.None? && k in s.ids && id == s.ids[k] {
      MutedKeeps(s.entries[id], change, now, k.0, text);
    }
  }

  lemma StepReads(s: State, k: (Table, string), text: string, c: Cmd)
    requires Valid(s) && Reads(s, k, text) && Streaming(k.0) && Mute(c)
    ensures Reads(Step(s, c).state, k, text)
  {
    hide PatchIn, Holds, Valid;
    if c.Patch? { PatchReads(s, k, text, c.id, c.change, c.now); }
  }

  lemma {:induction false} ExecReads(s: State, k: (Table, string), text: string, cs: seq<Cmd>)
    requires Valid(s) && Reads(s, k, text) && Streaming(k.0)
    requires forall i :: 0 <= i < |cs| ==> Mute(cs[i]) && CmdOk(s, cs[i])
    ensures Reads(Exec(s, cs).state, k, text)
    decreases |cs|
  {
    hide Step, Reads, Valid;
    if cs != [] {
      assert Mute(cs[0]) && CmdOk(s, cs[0]);
      StepReads(s, k, text, cs[0]);
      StepKeepsValid(s, cs[0]);
      var s1 := Step(s, cs[0]).state;
      if Step(s, cs[0]).error.None? {
        forall i | 0 <= i < |cs[1..]| ensures Mute(cs[1..][i]) && CmdOk(s1, cs[1..][i]) {
          assert Mute(cs[i + 1]) && CmdOk(s, cs[i + 1]);
        }
        ExecReads(s1, k, text, cs[1..]);
      }
    }
  }

  /** A text of one kind takes no chunk of the other. */
  lemma OtherKind(e: Entry, t: Table, u: Table, text: string, chunk: string, now: int)
    requires Streaming(t) && Streaming(u) && t != u && Holds(t, e.body, text)
    ensures Changed(e, Stream(u, chunk), now).None?
  {
  }

  lemma KnownChunkReads(s: State, k: (Table, string), text: string, l: (Table, string), chunk: string, now: int)
    requires Valid(s) && Reads(s, k, text) && Streaming(k.0) && Streaming(l.0) && l in s.ids
    requires l == k ==> Step(s, Patch(s.ids[l], Stream(l.0, chunk), now)).error.None?
    ensures Reads(Step(s, Patch(s.ids[l], Stream(l.0, chunk), now)).state, k, text + if l == k then chunk else "")
  {
    hide Step, Holds, Changed, Valid, Stream;
    var id, change := s.ids[l], Stream(l.0, chunk);
    PatchStep(s, id, change, now);
    if l == k {
      StreamedHolds(s.entries[id], k.0, text, chunk, now);
    } else {
      assert text + "" == text;
      if k in s.ids && s.ids[k] == id { OtherKind(s.entries[id], k.0, l.0, text, chunk, now); }
    }
  }

  lemma NewChunkReads(s: State, k: (Table, string), text: string, l: (Table, string), e: Entry, chunk: string)
    requires Reads(s, k, text) && Streaming(k.0) && Streaming(l.0) && l !in s.ids && Holds(l.0, e.body, chunk)
    requires var o := Step(s.(ids := s.ids[l := e.id]), Create(e));
             l == k || (l.0 == k.0 && k in s.ids && e.id == s.ids[k]) ==> o.error.None?
    ensures Reads(Step(s.(ids := s.ids[l := e.id]), Create(e)).state, k, text + if l == k then chunk else "")
  {
    hide Holds;
    if l == k { assert "" + chunk == chunk; } else { assert text + "" == text; }
  }

  lemma ChunkReads(s: State, k: (Table, string), text: string, c: Call, l: (Table, string))
    requires Valid(s) && Reads(s, k, text) && Streaming(k.0) && Target(c.action) == Some(l)
    requires Concerns(s, c, k) ==> Do(s, c).error.None?
    ensures Reads(Do(s, c).state, k, text + Says(c, k))
  {
    hide PatchIn, Valid, Reads;
    var cs, chunk := Commands(s, c.action, c.newId, c.now), c.action.chunk;
    if l in s.ids {
      assert cs == [Patch(s.ids[l], Stream(l.0, chunk), c.now)];
      ExecOne(s, cs[0]);
      KnownChunkReads(s, k, text, l, chunk, c.now);
    } else {
      var e := cs[1].entry;
      assert cs == [Remember(l.0, l.1, e.id), Create(e)] && cs[1..] == [Create(e)];
      var s1 := Step(s, cs[0]).state;
      assert s1 == s.(ids := s.ids[l := e.id]);
      ExecOne(s1, Create(e));
      NewChunkReads(s, k, text, l, e, chunk);
    }
  }

  /** Any action, raising or not, extends the text by its chunk for the key. */
  lemma DoReads(s: State, k: (Table, string), text: string, c: Call)
    requires Valid(s) && Reads(s, k, text) && Streaming(k.0)
    requires Concerns(s, c, k) ==> Do(s, c).error.None?
    ensures Reads(Do(s, c).state, k, text + Says(c, k))
  {
    hide Valid, Reads, Exec, Commands;
    if Target(c.action).None? {
      assert text + "" == text;
      CommandsMute(s, c);
      CommandsOk(s, c.action, c.newId, c.now);
      ExecReads(s, k, text, Commands(s, c.action, c.newId, c.now));
    } else {
      ChunkReads(s, k, text, c, Target(c.action).value);
    }
  }

  lemma {:induction false} RunReads(s: State, k: (Table, string), text: string, calls: seq<Call>)
    requires Valid(s) && Reads(s, k, text) && Streaming(k.0) && Undisturbed(s, calls, k)
    ensures Reads(After(s, calls), k, text + Spoken(calls, k))
    decreases |calls|
  {
    hide Do, Valid, Reads, Concerns, Says;
    if calls == [] {
      assert text + "" == text;
    } else {
      DoReads(s, k, text, calls[0]);
      DoKeeps(s, calls[0]);
      RunReads(Do(s, calls[0]).state, k, text + Says(calls[0], k), calls[1..]);
      assert text + Says(calls[0], k) + Spoken(calls[1..], k) == text + (Says(calls[0], k) + Spoken(calls[1..], k));
    }
  }

  /** Main result: after any run, raising actions included, in which no chunk of a
      key or for its entry raises, the entry holds exactly the chunks of the key,
      joined in the order they came. */
  lemma StreamedTextIsConcatenation(sessionId: string, turnId: Option<string>, preview: string,
                                    calls: seq<Call>, k: (Table, string))
    requires Streaming(k.0) && Undisturbed(Fresh(sessionId, turnId, preview), calls, k)
    requires Spoken(calls, k) != ""
    ensures var s := After(Fresh(sessionId, turnId, preview), calls);
            k in s.ids && s.ids[k] in s.entries && Holds(k.0, s.entries[s.ids[k]].body, Spoken(calls, k))
  {
    hide After, Do, Valid, Holds, Spoken, Undisturbed;
    FreshIsValid(sessionId, turnId, preview);
    RunReads(Fresh(sessionId, turnId, preview), k, "", calls);
    assert "" + Spoken(calls, k) == Spoken(calls, k);
  }

  // ---- the end of a turn ---------------------------------------------------

  predicate AllComplete(h: seq<Entry>) { forall i :: 0 <= i < |h| ==> h[i].status.Complete? }

  lemma InIndex(s: State)
    requires Valid(s)
    ensures UniqueIds(s.history) && s.entries == ById(s.history)
  {
  }
}
