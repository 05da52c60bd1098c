/** What happens outside the conditions under which the mirror is exact, and for
    each of these exactly when it does harm. */
module Hazards {
  import opened Prelude
  import opened Json
  import opened Entries
  import opened Changes
  import opened Projection
  import opened ProjectorFacts
  import opened ProjectorRuns
  import opened Client
  import opened Mirror
  import opened Telling
  import opened Paging
  import opened Session
  import opened Working
  import opened Replication

  /** A state that runs ahead of its number: an entry it shows is announced
      again, and the client refuses the announcement.  So it does with any
      entry that reuses the id of a loaded one, and with no other. */
  lemma AnnouncedTwice(sv: Server, callbacks: seq<Entry>, eventId: int, limit: int, e: Entry)
    requires InOrder(sv) && Public(sv) == Truth(sv) && limit >= 1 && eventId >= 0
    ensures var state := StateOf(sv, callbacks, eventId, limit);
            Consume(MirrorOf(state), eventId + 1, EntryAdded(sv.sessionId, e)).Err? <==> Has(state.history, e.id)
  {
    hide ById, HistoryPage, Index, LiveOk;
    var state := StateOf(sv, callbacks, eventId, limit);
    LatestPage(Public(sv), limit);
    SuffixHas(Public(sv), Back(|Public(sv)|, limit), e.id);
    IndexIsById(state.history);
    ByIdIs(state.history);
  }

  /** A chunk the state already shows is appended a second time. */
  lemma ChunkTwice(e: Entry, t: Table, text: string, chunk: string, now: int)
    requires WellTyped(e) && Streaming(t) && Holds(t, e.body, text)
    ensures var change := Stream(t, chunk);
            var once := Changed(e, change, now);
            && once.Some? && Holds(t, once.value.body, text + chunk)
            && var twice := Patched(once.value, Ops(change, now));
               twice.Some? && Holds(t, twice.value.body, text + chunk + chunk)
               && (twice == once <==> chunk == "")
  {
    var change := Stream(t, chunk);
    var once := Changed(e, change, now).value;
    StreamedHolds(e, t, text, chunk, now);
    PatchMeansChange(once, change, now);
    StreamedHolds(once, t, text + chunk, chunk, now);
    var twice := Changed(once, change, now).value;
    if chunk != "" {
      assert |text + chunk + chunk| != |text + chunk|;
      TextDiffers(t, once.body, twice.body, text + chunk, text + chunk + chunk);
    } else {
      assert text + chunk + chunk == text + chunk;
      SameText(e, t, text, now);
    }
  }

  lemma TextDiffers(t: Table, a: Body, b: Body, x: string, y: string)
    requires Holds(t, a, x) && Holds(t, b, y) && x != y
    ensures a != b
  {
    if t.Assistant? { assert a.content[0].text == x && b.content[0].text == y; }
  }

  lemma SameText(e: Entry, t: Table, text: string, now: int)
    requires Streaming(t) && Holds(t, e.body, text)
    ensures var once := Changed(e, Stream(t, ""), now); once.Some? && Changed(once.value, Stream(t, ""), now) == once
  {
    assert text + "" == text;
    if t.Assistant? {
      assert [Text(text)] + e.body.content[1..] == [Text(text)];
      var once := Changed(e, Stream(t, ""), now).value;
      assert once.body.content == [Text(text)];
      assert [Text(text)] + once.body.content[1..] == [Text(text)];
    }
  }

  /** A page shows an entry as an update left it that is still on its way to the
      client.  The update is refused if and only if its entry is on the page and
      complete, or the patch does not apply a second time; it does no harm if and
      only if its entry is not on the page or the patch leaves it as it is. */
  lemma PageOvertakesUpdate(c: Client, h: seq<Entry>, v: View, i: nat, change: Change, now: int, limit: int)
    requires Sound(h) && Mirrors(c, h, v) && i < v.first <= |h| && limit >= 1
    requires WellTyped(h[i]) && h[i].status.InProgress? && Changed(h[i], change, now).Some?
    ensures UpdateEntry(c, h[i].id, Ops(change, now)) == Ok(Consumed(c, None))
    ensures var e := Changed(h[i], change, now).value;
            var h', a := h[i := e], Back(v.first, limit);
            var (c', refusal) := Prepend(c, HistoryPage(h', None, Some(h[v.first].id), None, limit));
            var r := UpdateEntry(c', h[i].id, Ops(change, now));
            && refusal == None && c'.state.history == h'[a..]
            && (r == Err(FrozenEntry) <==> a <= i && e.status.Complete?)
            && (r == Err(RejectedPatch) <==> a <= i && e.status.InProgress? && Changed(e, change, now).None?)
            && (r.Ok? && r.value.client.state.history == h'[a..]
                <==> i < a || (e.status.InProgress? && Changed(e, change, now) == Some(e)))
  {
    hide Mirrors, HistoryPage, Prepend, Moves, UpdateEntry, Sound, Changed;
    FirstLoaded(c, h, v);
    var e := Changed(h[i], change, now).value;
    ChangeMoves(h, i, change, now);
    UpdateUnloaded(c, h, v, i, Ops(change, now), e);
    PageOfChanged(c, h, v, i, e, limit);
    var h', a := h[i := e], Back(v.first, limit);
    assert h'[v.first] == h[v.first];
    var c' := Prepend(c, HistoryPage(h', None, Some(h[v.first].id), None, limit)).0;
    UpdateAgain(c', h', a, i, change, now);
  }

  lemma ChangeMoves(h: seq<Entry>, i: nat, change: Change, now: int)
    requires i < |h| && WellTyped(h[i]) && h[i].status.InProgress? && Changed(h[i], change, now).Some?
    ensures var e := Changed(h[i], change, now).value;
            Moves(h, i, Ops(change, now), e) && e.id == h[i].id && WellTyped(e)
  {
    hide Changed;
    PatchMeansChange(h[i], change, now);
    ChangedKeeps(h[i], change, now);
    KindKept(h[i], change, now);
  }

  /** An update of an entry of a history of which the part from `a` is loaded. */
  lemma UpdateAgain(c: Client, h: seq<Entry>, a: nat, i: nat, change: Change, now: int)
    requires UniqueIds(h) && a <= |h| && i < |h| && WellTyped(h[i])
    requires c.state.history == h[a..] && c.entries == ById(h[a..])
    ensures var e, r := h[i], UpdateEntry(c, h[i].id, Ops(change, now));
            && (r == Err(FrozenEntry) <==> a <= i && e.status.Complete?)
            && (r == Err(RejectedPatch) <==> a <= i && e.status.InProgress? && Changed(e, change, now).None?)
            && (r.Ok? && r.value.client.state.history == h[a..]
                <==> i < a || (e.status.InProgress? && Changed(e, change, now) == Some(e)))
  {
    hide Changed, Patched, ById;
    var e, t := h[i], h[a..];
    SuffixHas(h, a, e.id);
    IndexUnique(h, i);
    ByIdIs(t);
    if a <= i {
      ByIdAt(t, i - a);
      PatchMeansChange(e, change, now);
      if Changed(e, change, now).Some? {
        ChangedKeeps(e, change, now);
        assert PutEntry(t, Changed(e, change, now).value)[i - a] == Changed(e, change, now).value;
      }
      assert t[i - a := e] == t;
    }
  }

  lemma FirstLoaded(c: Client, h: seq<Entry>, v: View)
    requires Mirrors(c, h, v) && 0 < v.first
    ensures v.first < |h|
  {
  }

  lemma PageOfChanged(c: Client, h: seq<Entry>, v: View, i: nat, e: Entry, limit: int)
    requires Sound(h) && Mirrors(c, h, v) && i < v.first && e.id == h[i].id && limit >= 1
    ensures i < |h| && 0 < v.first < |h|
    ensures var page := HistoryPage(h[i := e], None, Some(h[v.first].id), None, limit);
            Prepend(c, page).1 == None && UniqueIds(h[i := e])
            && Prepend(c, page).0.state.history == h[i := e][Back(v.first, limit)..]
            && Prepend(c, page).0.entries == ById(h[i := e][Back(v.first, limit)..])
  {
    hide HistoryPage, ById, Prepend;
    var h' := h[i := e];
    UniqueUpdate(h, i, e);
    assert h'[v.first..] == h[v.first..];
    PageJoins(c, h', v.first, limit);
  }

  /** The closing of a callback reaches the client's open callbacks if and only
      if its entry is loaded; otherwise it passes the client by, and the callback
      stays among them. */
  lemma UnloadedCallbackGoesStale(c: Client, h: seq<Entry>, v: View, i: nat, patch: seq<Op>, e: Entry)
    requires Sound(h) && Mirrors(c, h, v) && Moves(h, i, patch, e)
    requires SameOpen(c.state.callbacks, h) && IsOpen(h[i]) && !IsOpen(e)
    ensures UpdateEntry(c, h[i].id, patch).Ok?
    ensures var c' := UpdateEntry(c, h[i].id, patch).value.client;
            && (SameOpen(c'.state.callbacks, h[i := e]) <==> v.first <= i)
            && (h[i] in c'.state.callbacks <==> i < v.first)
  {
    hide Patched, UpdateEntry, CallbacksAfter;
    assert h[i] in h;
    var h' := h[i := e];
    forall j | 0 <= j < |h'| ensures h'[j] != h[i] { if j != i { assert h[j].id != h[i].id; } }
    if i < v.first {
      UpdateUnloaded(c, h, v, i, patch, e);
    } else {
      var t, j := c.state.history, i - v.first;
      SuffixHas(h, v.first, h[i].id);
      assert t[j] == h[i] && Moves(t, j, patch, e);
      LoadedStep(c, t, j, patch, e);
      CallbacksFollow(c.state.callbacks, h, i, e);
    }
  }

  /** A callback delivered again leaves the client's history right if and only if
      its entry is loaded; otherwise the entry is added at the end. */
  lemma DeliveredAgain(c: Client, h: seq<Entry>, v: View, callback: Entry)
    requires UniqueIds(h) && Mirrors(c, h, v)
    ensures Ensure(c, callback).state.history == h[v.first..] <==> Has(h[v.first..], callback.id)
    ensures !Has(h[v.first..], callback.id) ==> Ensure(c, callback).state.history == h[v.first..] + [callback]
  {
    hide ById;
    ByIdIs(c.state.history);
  }

  /** A callback delivered before its announcement is taken, but then the
      announcement is refused. */
  lemma DeliveredTooEarly(c: Client, callback: Entry, last: int)
    requires c.lastEventId == last >= 0
    ensures Consume(Ensure(c, callback), last + 1, EntryAdded(c.state.sessionId, callback)) == Err(DuplicateEntry)
  {
  }

  // ---- session handoffs ----------------------------------------------------

  /** Events of another session are refused. */
  lemma OthersRefused(c: Client, ps: seq<Packet>, sessionId: string)
    requires OfOne(ps, sessionId) && sessionId != c.state.sessionId
    ensures Drain(c, ps).Ok? <==> ps == []
    ensures ps != [] ==> Drain(c, ps) == Err(OtherSession)
  {
    if ps != [] { assert ps[0].Event? && Plain(ps[0].note, sessionId) && ps[0].id > 0; }
  }

  /** Numbered events of one session, handoffs and snapshots not among them. */
  predicate OfOne(ps: seq<Packet>, sessionId: string) {
    forall i :: 0 <= i < |ps| ==> ps[i].Event? && Plain(ps[i].note, sessionId) && ps[i].id > 0
  }

  /** A handoff as the server sends it. */
  predicate WellFormed(handoff: Note, id: int)
    requires handoff.Handoff?
  {
    && handoff.sessionId != handoff.oldSessionId && handoff.state.sessionId == handoff.sessionId
    && handoff.state.eventId == id > 0
  }

  /** A handoff is numbered at once; notes of the old session that were still
      waiting come after it.  They are taken if and only if there are none. */
  lemma NotesBehindHandoff(c: Client, id: int, handoff: Note, number: nat, waiting: seq<Note>)
    requires handoff.Handoff? && WellFormed(handoff, id) && handoff.oldSessionId == c.state.sessionId
    requires forall i :: 0 <= i < |waiting| ==> Plain(waiting[i], handoff.oldSessionId)
    ensures Drain(c, [Event(id, handoff)] + Sequenced(number, waiting)).Ok? <==> waiting == []
    ensures waiting != [] ==> Drain(c, [Event(id, handoff)] + Sequenced(number, waiting)) == Err(OtherSession)
  {
    var rest := Sequenced(number, waiting);
    DrainOne(c, Event(id, handoff));
    DrainConcat(c, [Event(id, handoff)], rest);
    OthersRefused(MirrorOf(handoff.state), rest, handoff.oldSessionId);
    assert |rest| == |waiting|;
  }

  /** A state taken while attaching is answered before the events held back.  With
      a handoff among these, they are taken if and only if the state was taken
      before the handoff. */
  lemma HeldHandoff(state: PublicState, held: seq<Packet>, id: int, handoff: Note)
    requires handoff.Handoff? && WellFormed(handoff, id)
    requires OfOne(held, handoff.oldSessionId)
    requires state.sessionId == handoff.oldSessionId ==> Replication.Skipped(held, state.sessionId, state.eventId)
    ensures Drain(MirrorOf(state), held + [Event(id, handoff)]).Ok? <==> state.sessionId == handoff.oldSessionId
  {
    var c, last := MirrorOf(state), Event(id, handoff);
    DrainConcat(c, held, [last]);
    if state.sessionId == handoff.oldSessionId {
      SkippedIsSkipped(c, held);
      DrainOne(c, last);
    } else {
      OthersRefused(c, held, handoff.oldSessionId);
      if held == [] { DrainOne(c, last); }
    }
  }

  /** An answer overtakes events of one session that were numbered before its
      state was taken.  They are taken after it if and only if the answer did not
      change the session. */
  lemma AnswerOvertakesEvents(state: PublicState, ps: seq<Packet>, sessionId: string)
    requires OfOne(ps, sessionId)
    requires sessionId == state.sessionId ==> Replication.Skipped(ps, sessionId, state.eventId)
    ensures Drain(MirrorOf(state), ps).Ok? <==> ps == [] || sessionId == state.sessionId
    ensures Drain(MirrorOf(state), ps).Ok? ==> Drain(MirrorOf(state), ps) == Ok(MirrorOf(state))
  {
    var c := MirrorOf(state);
    if sessionId == state.sessionId { SkippedIsSkipped(c, ps); } else { OthersRefused(c, ps, sessionId); }
  }

  /** An answer that changes the session, with notes of the old session waiting for
      their numbers: they are taken after it if and only if there are none. */
  lemma NotesBehindAnswer(c: Client, state: PublicState, number: nat, waiting: seq<Note>, sessionId: string)
    requires sessionId != state.sessionId
    requires forall i :: 0 <= i < |waiting| ==> Plain(waiting[i], sessionId)
    ensures Drain(c, [Answer(state)] + Sequenced(number, waiting)).Ok? <==> waiting == []
  {
    var rest := Sequenced(number, waiting);
    DrainOne(c, Answer(state));
    DrainConcat(c, [Answer(state)], rest);
    OthersRefused(MirrorOf(state), rest, sessionId);
    assert |rest| == |waiting|;
  }

  // ---- what follows a refusal ----------------------------------------------

  /** A client reads the session again when an event is out of sequence; any other
      refusal ends its stream of events. */
  datatype Aftermath = ReadAgain | StreamEnds

  function After(r: Refusal): Aftermath {
    match r
    case BadEventId => ReadAgain
    case OtherSession => ReadAgain
    case Gap => ReadAgain
    case SnapshotMismatch => ReadAgain
    case HandoffMismatch => ReadAgain
    case _ => StreamEnds
  }

  /** The next event of the client's session. */
  predicate InSequence(c: Client, id: int, note: Note) {
    && !note.Handoff? && id == c.lastEventId + 1 > 0 && note.sessionId == c.state.sessionId
    && (note.Snapshot? ==> note.state.sessionId == note.sessionId && note.state.eventId == id)
  }

  /** A refused event ends the stream if and only if it was the next one. */
  lemma EndsIffInSequence(c: Client, id: int, note: Note)
    requires Consume(c, id, note).Err?
    ensures After(Consume(c, id, note).error) == StreamEnds <==> InSequence(c, id, note)
  {
    hide Patched;
  }

  /** Main result: after an event out of sequence, whatever the client showed, the
      state it reads again shows the history, and the events numbered before it
      that are still on their way are skipped. */
  lemma ReadAgainRecovers(c: Client, id: int, note: Note, sv: Server, callbacks: seq<Entry>, number: nat, limit: int,
                          late: seq<Packet>)
    requires Consume(c, id, note).Err? && !InSequence(c, id, note)
    requires InOrder(sv) && Public(sv) == Truth(sv) && SameOpen(callbacks, Public(sv)) && limit >= 1
    requires Replication.Skipped(late, sv.sessionId, number)
    ensures After(Consume(c, id, note).error) == ReadAgain
    ensures var r := Drain(c, [Answer(StateOf(sv, callbacks, number, limit))] + late);
            r.Ok? && Agrees(r.value, sv.sessionId, Truth(sv), sv.turn, ViewOf(sv, limit), number)
  {
    hide InOrder, Truth, Public, Agrees, StateOf, Consume, ViewOf;
    EndsIffInSequence(c, id, note);
    var state := StateOf(sv, callbacks, number, limit);
    StateMirrors(sv, callbacks, number, limit);
    StateHas(sv, callbacks, number, limit);
    SkippedIsSkipped(MirrorOf(state), late);
    DrainOne(c, Answer(state));
    DrainConcat(c, [Answer(state)], late);
  }
}
