/** When a client's mirror shows a history from some entry on, and how it keeps
    doing so while a projector's commands are told to it. */
module Mirror {
  import opened Prelude
  import opened Json
  import opened Entries
  import opened Changes
  import opened Projection
  import opened ProjectorFacts
  import opened Client

  // ---- the relation --------------------------------------------------------

  /** Which part of a history a client has loaded, and whether that part held
      every callback in progress when it last took a state. */
  datatype View = View(first: nat, covered: bool)

  predicate Named(e: Entry) { e.body.Callback? ==> e.id == CallbackEntryId(e.body.callbackId) }

  predicate Tidy(e: Entry) { e.body.Callback? && e.status.Complete? ==> !IsOpen(e) }

  ghost predicate Sound(h: seq<Entry>) {
    UniqueIds(h) && forall i :: 0 <= i < |h| ==> Named(h[i]) && Tidy(h[i])
  }

  function Before(h: seq<Entry>, first: nat): Option<string> {
    if 0 < first < |h| then Some(h[first].id) else None
  }

  predicate Covered(h: seq<Entry>, first: nat)
    requires first <= |h|
  {
    forall i :: 0 <= i < first && h[i].body.Callback? ==> h[i].status.Complete?
  }

  /** As sets, the callbacks are the open ones of the history. */
  ghost predicate SameOpen(callbacks: seq<Entry>, h: seq<Entry>) {
    forall e :: e in callbacks <==> e in h && IsOpen(e)
  }

  ghost predicate Mirrors(c: Client, h: seq<Entry>, v: View) {
    && v.first <= |h| && (0 < v.first ==> v.first < |h|)
    && c.state.history == h[v.first..]
    && c.entries == ById(c.state.history)
    && c.state.before == Before(h, v.first)
    && (v.covered ==> Covered(h, v.first) && SameOpen(c.state.callbacks, c.state.history))
  }

  // ---- the index -----------------------------------------------------------

  lemma {:induction false} IndexIsById(h: seq<Entry>)
    requires UniqueIds(h)
    ensures Index(h) == ById(h)
    decreases |h|
  {
    if h == [] {
      assert ById(h) == map[];
    } else {
      var front, e := h[..|h| - 1], h[|h| - 1];
      assert h == front + [e];
      forall i | 0 <= i < |front| ensures front[i].id != e.id { assert h[i].id != h[|h| - 1].id; }
      IndexIsById(front);
      ByIdAppend(front, e);
    }
  }

  lemma SuffixHas(h: seq<Entry>, first: nat, id: string)
    requires UniqueIds(h) && first <= |h|
    ensures UniqueIds(h[first..])
    ensures Has(h[first..], id) <==> Has(h, id) && IndexOf(h, id) >= first
    ensures Has(h[first..], id) ==> IndexOf(h[first..], id) == IndexOf(h, id) - first
  {
    var t := h[first..];
    if Has(t, id) {
      var j := IndexOf(t, id);
      assert h[first + j].id == id;
      IndexUnique(h, first + j);
    }
    if Has(h, id) && IndexOf(h, id) >= first {
      assert t[IndexOf(h, id) - first].id == id;
    }
  }

  // ---- an entry added ------------------------------------------------------

  lemma CallbacksGrow(c: Client, h: seq<Entry>, e: Entry)
    requires SameOpen(c.state.callbacks, h) && !Has(h, e.id) && Named(e)
    requires forall i :: 0 <= i < |h| ==> Named(h[i])
    ensures IsOpen(e) ==> !Names(c.state.callbacks, e.body.callbackId)
    ensures SameOpen(if IsOpen(e) then c.state.callbacks + [e] else c.state.callbacks, h + [e])
  {
    var cs := c.state.callbacks;
    if IsOpen(e) {
      forall i | 0 <= i < |cs| && cs[i].body.Callback? ensures cs[i].body.callbackId != e.body.callbackId {
        assert cs[i] in cs;
        var j :| 0 <= j < |h| && h[j] == cs[i];
        assert h[j].id != e.id && Named(h[j]);
      }
    }
    forall j | 0 <= j < |h| ensures h[j] != e { assert h[j].id != e.id; }
  }

  lemma AddMirrored(c: Client, h: seq<Entry>, v: View, e: Entry)
    requires Sound(h) && Mirrors(c, h, v) && !Has(h, e.id) && Named(e)
    ensures AddEntry(c, e).Ok?
    ensures var c' := AddEntry(c, e).value;
            Mirrors(c', h + [e], v) && c' == c.(state := c'.state, entries := c'.entries)
            && c'.state.sessionId == c.state.sessionId && c'.state.turn == c.state.turn
  {
    var t := c.state.history;
    SuffixHas(h, v.first, e.id);
    ByIdIs(t);
    var c' := AddEntry(c, e).value;
    assert (h + [e])[v.first..] == t + [e];
    ByIdAppend(t, e);
    assert Before(h + [e], v.first) == Before(h, v.first);
    if v.covered {
      forall i | 0 <= i < |t| ensures Named(t[i]) { assert t[i] == h[v.first + i]; }
      CallbacksGrow(c, t, e);
    }
  }

  // ---- an entry updated ----------------------------------------------------

  lemma {:induction false} WithoutIs(cs: seq<Entry>, callbackId: string)
    ensures forall e ::
              e in Without(cs, callbackId) <==> e in cs && !(e.body.Callback? && e.body.callbackId == callbackId)
  {
    if cs != [] {
      WithoutIs(cs[1..], callbackId);
      assert forall e :: e in cs <==> e == cs[0] || e in cs[1..];
    }
  }

  /** Replacing one entry by a later version of it. */
  lemma CallbacksFollow(cs: seq<Entry>, h: seq<Entry>, i: nat, e: Entry)
    requires SameOpen(cs, h) && UniqueIds(h) && i < |h| && h[i].id == e.id
    requires forall j :: 0 <= j < |h| ==> Named(h[j])
    requires e.body.Callback? <==> h[i].body.Callback?
    requires e.body.Callback? ==> e.body.callbackId == h[i].body.callbackId
    ensures SameOpen(CallbacksAfter(cs, e), h[i := e])
  {
    var h' := h[i := e];
    forall x ensures x in CallbacksAfter(cs, e) <==> x in h' && IsOpen(x) {
      assert x in h' <==> x == e || exists j :: 0 <= j < |h| && j != i && h[j] == x by { ReplacedIn(h, i, e, x); }
      assert x in h <==> x == h[i] || exists j :: 0 <= j < |h| && j != i && h[j] == x by {
        ReplacedIn(h, i, h[i], x);
        assert h[i := h[i]] == h;
      }
      if e.body.Callback? { WithoutIs(cs, e.body.callbackId); }
      if j: nat :| j < |h| && j != i && h[j] == x { assert h[j].id != h[i].id; }
    }
  }

  lemma ReplacedIn(h: seq<Entry>, i: nat, e: Entry, x: Entry)
    requires i < |h|
    ensures x in h[i := e] <==> x == e || exists j :: 0 <= j < |h| && j != i && h[j] == x
  {
    var h' := h[i := e];
    if x == e { assert h'[i] == x; }
    if j: nat :| j < |h| && j != i && h[j] == x { assert h'[j] == x; }
    if x in h' { var j :| 0 <= j < |h'| && h'[j] == x; if j != i { assert h[j] == x; } }
  }

  /** The entry at index i, in progress, gives way to e by this patch. */
  ghost predicate Moves(h: seq<Entry>, i: nat, patch: seq<Op>, e: Entry) {
    && i < |h| && h[i].status.InProgress? && Patched(h[i], patch) == Some(e)
    && SameIdentity(h[i], e)
    && (e.body.Callback? <==> h[i].body.Callback?)
    && (e.body.Callback? ==> e.body.callbackId == h[i].body.callbackId)
  }

  /** What an update of an entry in the loaded part does to the mirror. */
  lemma LoadedStep(c: Client, t: seq<Entry>, j: nat, patch: seq<Op>, e: Entry)
    requires UniqueIds(t) && Moves(t, j, patch, e) && c.state.history == t && c.entries == ById(t)
    ensures UpdateEntry(c, t[j].id, patch).Ok?
    ensures UpdateEntry(c, t[j].id, patch).value.client
         == c.(entries := ById(t[j := e]),
               state := c.state.(history := t[j := e], callbacks := CallbacksAfter(c.state.callbacks, e)))
  {
    hide Patched, CallbacksAfter, ById;
    IndexUnique(t, j);
    ByIdAt(t, j);
    ByIdUpdate(t, j, e);
  }

  lemma UpdateLoaded(c: Client, h: seq<Entry>, v: View, i: nat, patch: seq<Op>, e: Entry)
    requires Sound(h) && Mirrors(c, h, v) && Moves(h, i, patch, e) && v.first <= i
    ensures UpdateEntry(c, h[i].id, patch).Ok?
    ensures var c' := UpdateEntry(c, h[i].id, patch).value.client;
            Mirrors(c', h[i := e], v) && c' == c.(state := c'.state, entries := c'.entries)
            && c'.state.sessionId == c.state.sessionId && c'.state.turn == c.state.turn
  {
    hide Patched, UpdateEntry, CallbacksAfter, ById, UniqueIds, SameOpen;
    var t, j := c.state.history, i - v.first;
    assert t[j] == h[i];
    SuffixHas(h, v.first, h[i].id);
    LoadedStep(c, t, j, patch, e);
    assert h[i := e][v.first..] == t[j := e];
    assert Before(h[i := e], v.first) == Before(h, v.first);
    if v.covered {
      forall k | 0 <= k < |t| ensures Named(t[k]) { assert t[k] == h[v.first + k]; }
      CallbacksFollow(c.state.callbacks, t, j, e);
      assert Covered(h[i := e], v.first);
    }
  }

  lemma UpdateUnloaded(c: Client, h: seq<Entry>, v: View, i: nat, patch: seq<Op>, e: Entry)
    requires Sound(h) && Mirrors(c, h, v) && Moves(h, i, patch, e) && i < v.first
    ensures UpdateEntry(c, h[i].id, patch) == Ok(Consumed(c, None))
    ensures Mirrors(c, h[i := e], v)
  {
    hide Patched;
    SuffixHas(h, v.first, h[i].id);
    IndexUnique(h, i);
    ByIdIs(c.state.history);
    assert h[i := e][v.first..] == h[v.first..];
    assert Before(h[i := e], v.first) == Before(h, v.first);
  }

  lemma UpdateMirrored(c: Client, h: seq<Entry>, v: View, i: nat, patch: seq<Op>, e: Entry)
    requires Sound(h) && Mirrors(c, h, v) && Moves(h, i, patch, e)
    ensures UpdateEntry(c, h[i].id, patch).Ok?
    ensures var c' := UpdateEntry(c, h[i].id, patch).value.client;
            Mirrors(c', h[i := e], v) && c' == c.(state := c'.state, entries := c'.entries)
            && c'.state.sessionId == c.state.sessionId && c'.state.turn == c.state.turn
  {
    hide Mirrors, Moves, Sound, UpdateEntry;
    if v.first <= i { UpdateLoaded(c, h, v, i, patch, e); } else { UpdateUnloaded(c, h, v, i, patch, e); }
  }

  // ---- events in sequence --------------------------------------------------

  function NoteOf(u: Update): Note {
    match u
    case Added(s, e) => EntryAdded(s, e)
    case Updated(s, id, patch) => EntryUpdated(s, id, patch)
    case SessionPatched(s) => Note.SessionUpdated(s)
  }

  function Notes(us: seq<Update>): seq<Note> { seq(|us|, i requires 0 <= i < |us| => NoteOf(us[i])) }

  /** Notes numbered from the one after w. */
  function Sequenced(w: int, notes: seq<Note>): seq<Packet> {
    seq(|notes|, i requires 0 <= i < |notes| => Event(w + 1 + i, notes[i]))
  }

  lemma SequencedConcat(w: int, a: seq<Note>, b: seq<Note>)
    ensures Sequenced(w, a + b) == Sequenced(w, a) + Sequenced(w + |a|, b)
  {
  }

  /** The mirror shows this history, session and turn up to this event. */
  ghost predicate Agrees(c: Client, sessionId: string, h: seq<Entry>, turn: Option<Turn>, v: View, last: int) {
    Mirrors(c, h, v) && c.state.sessionId == sessionId && c.state.turn == turn && c.lastEventId == last
  }

  /** What a mirror makes of the next notes. */
  ghost predicate Carries(c: Client, last: int, notes: seq<Note>,
                          sessionId: string, h: seq<Entry>, turn: Option<Turn>, v: View) {
    var r := Drain(c, Sequenced(last, notes));
    r.Ok? && Agrees(r.value, sessionId, h, turn, v, last + |notes|)
  }

  lemma CarriesNothing(c: Client, last: int, sessionId: string, h: seq<Entry>, turn: Option<Turn>, v: View)
    requires Agrees(c, sessionId, h, turn, v, last)
    ensures Carries(c, last, [], sessionId, h, turn, v)
  {
  }

  lemma DrainOne(c: Client, p: Packet)
    ensures Drain(c, [p]) == Receive(c, p)
  {
    assert [p][1..] == [];
  }

  lemma CarriesMore(c: Client, last: int, a: seq<Note>, b: seq<Note>, sessionId: string,
                    h1: seq<Entry>, h2: seq<Entry>, turn: Option<Turn>, v: View)
    requires Carries(c, last, a, sessionId, h1, turn, v)
    requires Carries(Drain(c, Sequenced(last, a)).value, last + |a|, b, sessionId, h2, turn, v)
    ensures Carries(c, last, a + b, sessionId, h2, turn, v)
  {
    SequencedConcat(last, a, b);
    DrainConcat(c, Sequenced(last, a), Sequenced(last + |a|, b));
  }

  lemma NextNote(c: Client, last: int, note: Note)
    requires c.lastEventId == last >= 0 && note.sessionId == c.state.sessionId && !note.Handoff? && !note.Snapshot?
    ensures Drain(c, Sequenced(last, [note]))
         == match Reduce(c, note) case Err(r) => Err(r) case Ok(done) => Ok(done.client.(lastEventId := last + 1))
  {
    assert Sequenced(last, [note]) == [Event(last + 1, note)];
    DrainOne(c, Event(last + 1, note));
  }

  // ---- one command ---------------------------------------------------------

  lemma UniqueGrows(p: seq<Entry>, h: seq<Entry>, h': seq<Entry>)
    requires Grows(h, h') && UniqueIds(p + h')
    ensures UniqueIds(p + h)
  {
    forall i, j | 0 <= i < j < |p + h| ensures (p + h)[i].id != (p + h)[j].id {
      forall k | 0 <= k < |p + h| ensures (p + h)[k].id == (p + h')[k].id {
        if k >= |p| { assert Advances(h[k - |p|], h'[k - |p|]); }
      }
      assert (p + h')[i].id != (p + h')[j].id;
    }
  }

  ghost predicate AllTidy(h: seq<Entry>) { forall i :: 0 <= i < |h| ==> Tidy(h[i]) }

  /** Settled entries: named, tidy, and no callback among them in progress. */
  ghost predicate Closed(h: seq<Entry>) {
    forall i :: 0 <= i < |h| ==> Named(h[i]) && Tidy(h[i]) && (h[i].body.Callback? ==> h[i].status.Complete?)
  }

  lemma SoundJoin(settled: seq<Entry>, s: State)
    requires Closed(settled) && Valid(s) && AllTidy(s.history) && UniqueIds(settled + s.history)
    ensures Sound(settled + s.history)
  {
    forall i | 0 <= i < |settled + s.history| ensures Named((settled + s.history)[i])
        && Tidy((settled + s.history)[i]) {
      if i >= |settled| { assert EntryOk(s.history[i - |settled|], s.sessionId, s.turnId); }
    }
  }

  lemma PatchMoves(settled: seq<Entry>, s: State, id: string, change: Change, now: int)
    requires Valid(s) && Step(s, Patch(id, change, now)).error.None?
    ensures var o := Step(s, Patch(id, change, now));
            var i := IndexOf(s.history, id);
            && o.updates == [Updated(s.sessionId, id, Ops(change, now))]
            && i < |s.history| && s.history[i].id == id
            && |o.state.history| == |s.history| && o.state.history == s.history[i := o.state.history[i]]
            && Moves(settled + s.history, |settled| + i, Ops(change, now), o.state.history[i])
            && settled + o.state.history == (settled + s.history)[|settled| + i := o.state.history[i]]
  {
    hide Step, Valid, Patched, Changed;
    PatchStep(s, id, change, now);
    var i := IndexOf(s.history, id);
    var e := s.history[i];
    assert WellTyped(e) by { OwnedIn(s, i); }
    PatchMeansChange(e, change, now);
    ChangedKeeps(e, change, now);
    KindKept(e, change, now);
    assert (settled + s.history)[|settled| + i] == e;
  }

  lemma KindKept(e: Entry, c: Change, now: int)
    requires Changed(e, c, now).Some?
    ensures Changed(e, c, now).value.body.Callback? <==> e.body.Callback?
  {
  }

  lemma StepMirrored(settled: seq<Entry>, s: State, cmd: Cmd, c: Client, turn: Option<Turn>, v: View, last: int)
    requires Closed(settled) && Valid(s) && AllTidy(s.history) && CmdOk(s, cmd) && !cmd.CreateSilently?
    requires Step(s, cmd).error.None? && UniqueIds(settled + Step(s, cmd).state.history)
    requires UniqueIds(settled + s.history)
    requires last >= 0 && Agrees(c, s.sessionId, settled + s.history, turn, v, last)
    ensures Carries(c, last, Notes(Step(s, cmd).updates), s.sessionId, settled + Step(s, cmd).state.history, turn, v)
  {
    hide PatchIn, Valid, Mirrors, AddEntry, UpdateEntry;
    SoundJoin(settled, s);
    var h, o := settled + s.history, Step(s, cmd);
    match cmd {
      case Patch(id, change, now) =>
        PatchMirrored(settled, s, id, change, now, c, turn, v, last);
      case Create(e) =>
        CreateMirrored(settled, s, e, c, turn, v, last);
      case PatchSession =>
        assert Notes(o.updates) == [Note.SessionUpdated(s.sessionId)];
        NextNote(c, last, Note.SessionUpdated(s.sessionId));
        assert Mirrors(c.(lastEventId := last + 1), h, v) by { ApartFromNumber(c, h, v, last + 1); }
      case Remember(_, _, _) =>
        assert Notes(o.updates) == [];
        CarriesNothing(c, last, s.sessionId, h, turn, v);
      case SetPreview(_) =>
        assert Notes(o.updates) == [];
        CarriesNothing(c, last, s.sessionId, h, turn, v);
      case CreateSilently(_) =>
      case Raise(_) =>
    }
  }

  lemma ApartFromNumber(c: Client, h: seq<Entry>, v: View, n: int)
    requires Mirrors(c, h, v)
    ensures Mirrors(c.(lastEventId := n), h, v)
  {
  }

  lemma PatchMirrored(settled: seq<Entry>, s: State, id: string, change: Change, now: int, c: Client,
                      turn: Option<Turn>, v: View, last: int)
    requires Sound(settled + s.history) && Valid(s) && Step(s, Patch(id, change, now)).error.None?
    requires last >= 0 && Agrees(c, s.sessionId, settled + s.history, turn, v, last)
    ensures var o := Step(s, Patch(id, change, now));
            Carries(c, last, Notes(o.updates), s.sessionId, settled + o.state.history, turn, v)
  {
    hide Step, Valid, Mirrors, UpdateEntry, Moves, Sound;
    var h, o, i := settled + s.history, Step(s, Patch(id, change, now)), IndexOf(s.history, id);
    PatchMoves(settled, s, id, change, now);
    var patch := Ops(change, now);
    assert h[|settled| + i].id == id;
    UpdateMirrored(c, h, v, |settled| + i, patch, o.state.history[i]);
    assert Notes(o.updates) == [EntryUpdated(s.sessionId, id, patch)];
    NextNote(c, last, EntryUpdated(s.sessionId, id, patch));
    var c1 := UpdateEntry(c, id, patch).value.client;
    ApartFromNumber(c1, settled + o.state.history, v, last + 1);
  }

  lemma CreateMirrored(settled: seq<Entry>, s: State, e: Entry, c: Client, turn: Option<Turn>, v: View, last: int)
    requires Sound(settled + s.history) && e.id !in s.entries && EntryOk(e, s.sessionId, s.turnId)
    requires UniqueIds(settled + AddTo(s, e).history)
    requires last >= 0 && Agrees(c, s.sessionId, settled + s.history, turn, v, last)
    ensures var o := Step(s, Create(e));
            Carries(c, last, Notes(o.updates), s.sessionId, settled + o.state.history, turn, v)
  {
    hide Mirrors, AddEntry, Sound;
    var h, o := settled + s.history, Step(s, Create(e));
    assert settled + o.state.history == h + [e];
    forall i | 0 <= i < |h| ensures h[i].id != e.id { assert (h + [e])[i].id != (h + [e])[|h|].id; }
    AddMirrored(c, h, v, e);
    assert Notes(o.updates) == [EntryAdded(s.sessionId, e)];
    NextNote(c, last, EntryAdded(s.sessionId, e));
    ApartFromNumber(AddEntry(c, e).value, h + [e], v, last + 1);
  }
}
