/** The client's mirror of a session: what each event, page, answer and turn
    does to it, and when it refuses one. */
module Client {
  import opened Prelude
  import opened Json
  import opened Entries
  import opened Changes
  import opened Projection

  datatype TurnStatus = TurnActive | TurnDone | TurnFailed | TurnInterrupted

  datatype Turn = Turn(id: string, sessionId: string, status: TurnStatus)

  /** The public state a server hands out, and the one a client keeps. */
  datatype PublicState = PublicState(
    eventId: int, sessionId: string, history: seq<Entry>, before: Option<string>,
    callbacks: seq<Entry>, turn: Option<Turn>)

  datatype Page = Page(entries: seq<Entry>, before: Option<string>, after: Option<string>)

  /** Notifications that carry an event id. */
  datatype Note =
    | EntryAdded(sessionId: string, entry: Entry)
    | EntryUpdated(sessionId: string, entryId: string, patch: seq<Op>)
    | SessionUpdated(sessionId: string)
    | StatsUpdated(sessionId: string)
    | TurnStarted(sessionId: string, turn: Turn)
    | TurnCompleted(sessionId: string, turn: Turn)
    | Snapshot(sessionId: string, state: PublicState)
    | Handoff(sessionId: string, oldSessionId: string, state: PublicState)

  datatype Client = Client(state: PublicState, entries: map<string, Entry>, lastEventId: int)

  datatype Refusal =
    | BadEventId | OtherSession | Gap | SnapshotMismatch | HandoffMismatch
    | DuplicateEntry | FrozenEntry | RejectedPatch | ConflictingEntry

  /** What the mirror tells its user about one event. */
  datatype Told =
    | HistoryEntryAdded(entry: Entry)
    | HistoryEntryUpdated(previous: Entry, entry: Entry, patch: seq<Op>)
    | StateReplaced(state: PublicState)
    | TurnBegan(turn: Turn)
    | TurnOver(turn: Turn)
    | SessionChanged
    | StatsChanged

  datatype Consumed = Consumed(client: Client, told: Option<Told>)

  /** Entries by id; a later one wins. */
  function Index(h: seq<Entry>): map<string, Entry> {
    if h == [] then map[] else Index(h[..|h| - 1])[h[|h| - 1].id := h[|h| - 1]]
  }

  function MirrorOf(state: PublicState): Client { Client(state, Index(state.history), state.eventId) }

  predicate IsOpen(e: Entry) { e.body.Callback? && e.body.callbackState.Open? }

  predicate Names(callbacks: seq<Entry>, callbackId: string) {
    exists i :: 0 <= i < |callbacks| && callbacks[i].body.Callback? && callbacks[i].body.callbackId == callbackId
  }

  function Without(callbacks: seq<Entry>, callbackId: string): seq<Entry> {
    if callbacks == [] then []
    else
      var rest := Without(callbacks[1..], callbackId);
      if callbacks[0].body.Callback? && callbacks[0].body.callbackId == callbackId then rest else [callbacks[0]] + rest
  }

  function AddEntry(c: Client, e: Entry): Result<Client, Refusal> {
    if e.id in c.entries then Err(DuplicateEntry)
    else
      var callbacks := if IsOpen(e) && !Names(c.state.callbacks, e.body.callbackId)
                       then c.state.callbacks + [e] else c.state.callbacks;
      Ok(c.(entries := c.entries[e.id := e],
            state := c.state.(history := c.state.history + [e], callbacks := callbacks)))
  }

  function PutEntry(h: seq<Entry>, e: Entry): seq<Entry> {
    var i := IndexOf(h, e.id);
    if i < |h| then h[i := e] else h
  }

  function CallbacksAfter(callbacks: seq<Entry>, e: Entry): seq<Entry> {
    if !e.body.Callback? then callbacks
    else Without(callbacks, e.body.callbackId) + (if IsOpen(e) then [e] else [])
  }

  function UpdateEntry(c: Client, id: string, patch: seq<Op>): Result<Consumed, Refusal> {
    if id !in c.entries then Ok(Consumed(c, None))
    else if c.entries[id].status.Complete? then Err(FrozenEntry)
    else match Patched(c.entries[id], patch)
      case None => Err(RejectedPatch)
      case Some(e) =>
        Ok(Consumed(
             c.(entries := c.entries[e.id := e],
                state := c.state.(history := PutEntry(c.state.history, e),
                                  callbacks := CallbacksAfter(c.state.callbacks, e))),
             Some(HistoryEntryUpdated(c.entries[id], e, patch))))
  }

  function Reduce(c: Client, note: Note): Result<Consumed, Refusal> {
    match note
    case EntryAdded(_, e) =>
      (match AddEntry(c, e) case Err(r) => Err(r) case Ok(c') => Ok(Consumed(c', Some(HistoryEntryAdded(e)))))
    case EntryUpdated(_, id, patch) => UpdateEntry(c, id, patch)
    case SessionUpdated(_) => Ok(Consumed(c, Some(SessionChanged)))
    case StatsUpdated(_) => Ok(Consumed(c, Some(StatsChanged)))
    case TurnStarted(_, turn) => Ok(Consumed(c.(state := c.state.(turn := Some(turn))), Some(TurnBegan(turn))))
    case TurnCompleted(_, turn) => Ok(Consumed(c.(state := c.state.(turn := Some(turn))), Some(TurnOver(turn))))
    case Snapshot(_, state) => Ok(Consumed(MirrorOf(state), Some(StateReplaced(state))))
    case Handoff(_, _, state) => Ok(Consumed(MirrorOf(state), Some(StateReplaced(state))))
  }

  predicate HandoffFits(c: Client, id: int, note: Note)
    requires note.Handoff?
  {
    && note.oldSessionId == c.state.sessionId && note.sessionId != note.oldSessionId
    && note.state.sessionId == note.sessionId && note.state.eventId == id && id > 0
  }

  /** One notification.  A refused one leaves the mirror as it was. */
  function Consume(c: Client, id: int, note: Note): Result<Consumed, Refusal> {
    if note.Handoff? then
      if HandoffFits(c, id, note) then Reduce(c, note) else Err(HandoffMismatch)
    else if note.Snapshot? && (note.state.sessionId != note.sessionId || note.state.eventId != id) then
      Err(SnapshotMismatch)
    else if id <= 0 then Err(BadEventId)
    else if note.sessionId != c.state.sessionId then Err(OtherSession)
    else if id <= c.lastEventId then Ok(Consumed(c, None))
    else if id != c.lastEventId + 1 then Err(Gap)
    else match Reduce(c, note)
      case Err(r) => Err(r)
      case Ok(done) => Ok(done.(client := done.client.(lastEventId := id)))
  }

  // ---- pages, callbacks and turns that come as answers ---------------------

  datatype Paging = Paging(entries: map<string, Entry>, added: seq<Entry>, refusal: Option<Refusal>)

  /** The entries of a page, in order, merged into the index. */
  function Merge(entries: map<string, Entry>, page: seq<Entry>, seen: set<string>): Paging
    decreases |page|
  {
    if page == [] then Paging(entries, [], None)
    else
      var e := page[0];
      if e.id in seen then Paging(entries, [], Some(DuplicateEntry))
      else if e.id in entries then
        if entries[e.id] != e then Paging(entries, [], Some(ConflictingEntry))
        else Merge(entries, page[1..], seen + {e.id})
      else
        var rest := Merge(entries[e.id := e], page[1..], seen + {e.id});
        rest.(added := [e] + rest.added)
  }

  /** The whole merge is what has been added, then what the rest gives. */
  ghost predicate Continues(whole: Paging, added: seq<Entry>, rest: Paging) {
    && whole.refusal == rest.refusal && whole.entries == rest.entries
    && (whole.refusal.None? ==> whole.added == added + rest.added)
  }

  /** A refused page leaves the history alone but has grown the index. */
  function Prepend(c: Client, page: Page): (Client, Option<Refusal>) {
    var merged := Merge(c.entries, page.entries, {});
    if merged.refusal.Some? then (c.(entries := merged.entries), merged.refusal)
    else
      (c.(entries := merged.entries,
          state := c.state.(history := merged.added + c.state.history, before := page.before)), None)
  }

  /** A callback call for an entry the mirror already has changes nothing. */
  function Ensure(c: Client, callback: Entry): Client {
    match AddEntry(c, callback) case Err(_) => c case Ok(c') => c'
  }

  function BeginTurn(c: Client, turn: Turn): Result<Client, Refusal> {
    if turn.sessionId != c.state.sessionId then Err(OtherSession)
    else Ok(c.(state := c.state.(turn := Some(turn))))
  }

  // ---- everything that can arrive ------------------------------------------

  datatype Packet =
    | Event(id: int, note: Note)
    | Answer(state: PublicState)    // a response whose state the client adopts
    | Older(page: Page)             // a response with an older page
    | Ask(callback: Entry)          // a callback call
    | Began(turn: Turn)             // the response to starting a turn
    | Aside(name: string)         // a notification without an event id

  function Receive(c: Client, p: Packet): Result<Client, Refusal> {
    match p
    case Event(id, note) => (match Consume(c, id, note) case Err(r) => Err(r) case Ok(done) => Ok(done.client))
    case Answer(state) => Ok(MirrorOf(state))
    case Older(page) => var (c', refusal) := Prepend(c, page); if refusal.Some? then Err(refusal.value) else Ok(c')
    case Ask(callback) => Ok(Ensure(c, callback))
    case Began(turn) => BeginTurn(c, turn)
    case Aside(_) => Ok(c)
  }

  function Drain(c: Client, ps: seq<Packet>): Result<Client, Refusal>
    decreases |ps|
  {
    if ps == [] then Ok(c)
    else match Receive(c, ps[0])
      case Err(r) => Err(r)
      case Ok(c') => Drain(c', ps[1..])
  }

  lemma {:induction false} DrainConcat(c: Client, a: seq<Packet>, b: seq<Packet>)
    ensures Drain(c, a + b) == match Drain(c, a) case Err(r) => Err(r) case Ok(c') => Drain(c', b)
    decreases |a|
  {
    if a == [] {
      assert a + b == b;
    } else {
      assert (a + b)[0] == a[0] && (a + b)[1..] == a[1..] + b;
      match Receive(c, a[0]) { case Err(_) => case Ok(c') => DrainConcat(c', a[1..], b); }
    }
  }

  // ---- the class -----------------------------------------------------------

  class ClientProjection {
    var state: PublicState
    var entries: map<string, Entry>
    var lastEventId: int

    function Model(): Client
      reads this
    {
      Client(state, entries, lastEventId)
    }

    constructor (initial: PublicState)
      ensures Model() == MirrorOf(initial)
    {
      state := initial;
      entries := Index(initial.history);
      lastEventId := initial.eventId;
    }

    method ReplaceState(next: PublicState)
      modifies this
      ensures Model() == MirrorOf(next)
    {
      state := next;
      entries := Index(next.history);
      lastEventId := next.eventId;
    }

    method AddEntryTo(e: Entry) returns (refusal: Option<Refusal>)
      modifies this
      ensures match AddEntry(old(Model()), e)
              case Err(r) => refusal == Some(r) && Model() == old(Model())
              case Ok(c) => refusal == None && Model() == c
    {
      if e.id in entries { return Some(DuplicateEntry); }
      entries := entries[e.id := e];
      var callbacks := state.callbacks;
      if IsOpen(e) {
        var known := false;
        for i := 0 to |callbacks|
          invariant known <==>
                    exists j ::
                      0 <= j < i && callbacks[j].body.Callback? && callbacks[j].body.callbackId == e.body.callbackId
        {
          if callbacks[i].body.Callback? && callbacks[i].body.callbackId == e.body.callbackId { known := true; }
        }
        if !known { callbacks := callbacks + [e]; }
      }
      state := state.(history := state.history + [e], callbacks := callbacks);
      return None;
    }

    /** The first entry with the id gives way; an unknown id only enters the index. */
    method ReplaceEntry(e: Entry)
      modifies this
      ensures Model() == old(Model()).(entries := old(entries)[e.id := e],
                                       state := old(state).(history := PutEntry(old(state).history, e)))
    {
      entries := entries[e.id := e];
      var i := 0;
      while i < |state.history|
        invariant 0 <= i <= |state.history| && state == old(state) && lastEventId == old(lastEventId)
        invariant entries == old(entries)[e.id := e]
        invariant forall j :: 0 <= j < i ==> state.history[j].id != e.id
      {
        if state.history[i].id == e.id {
          FirstIndex(state.history, e.id, i);
          state := state.(history := state.history[i := e]);
          return;
        }
        i := i + 1;
      }
    }

    method UpdateEntryWith(id: string, patch: seq<Op>) returns (r: Result<Option<Told>, Refusal>)
      modifies this
      ensures match UpdateEntry(old(Model()), id, patch)
              case Err(refusal) => r == Err(refusal) && Model() == old(Model())
              case Ok(done) => r == Ok(done.told) && Model() == done.client
    {
      if id !in entries { return Ok(None); }
      var previous := entries[id];
      if previous.status.Complete? { return Err(FrozenEntry); }
      var patched := Patched(previous, patch);
      if patched.None? { return Err(RejectedPatch); }
      var e := patched.value;
      ReplaceEntry(e);
      if e.body.Callback? {
        var kept := Without(state.callbacks, e.body.callbackId);
        state := state.(callbacks := if IsOpen(e) then kept + [e] else kept + []);
      }
      return Ok(Some(HistoryEntryUpdated(previous, e, patch)));
    }

    method ApplyEvent(note: Note) returns (r: Result<Option<Told>, Refusal>)
      modifies this
      ensures match Reduce(old(Model()), note)
              case Err(refusal) => r == Err(refusal) && Model() == old(Model())
              case Ok(done) => r == Ok(done.told) && Model() == done.client
    {
      match note {
        case EntryAdded(_, e) =>
          var refusal := AddEntryTo(e);
          if refusal.Some? { return Err(refusal.value); }
          return Ok(Some(HistoryEntryAdded(e)));
        case EntryUpdated(_, id, patch) =>
          r := UpdateEntryWith(id, patch);
        case SessionUpdated(_) => return Ok(Some(SessionChanged));
        case StatsUpdated(_) => return Ok(Some(StatsChanged));
        case TurnStarted(_, turn) =>
          state := state.(turn := Some(turn));
          return Ok(Some(TurnBegan(turn)));
        case TurnCompleted(_, turn) =>
          state := state.(turn := Some(turn));
          return Ok(Some(TurnOver(turn)));
        case Snapshot(_, next) =>
          ReplaceState(next);
          return Ok(Some(StateReplaced(next)));
        case Handoff(_, _, next) =>
          ReplaceState(next);
          return Ok(Some(StateReplaced(next)));
      }
    }

    /** One notification against the specification; refusals change nothing. */
    method ConsumeNote(id: int, note: Note) returns (r: Result<Option<Told>, Refusal>)
      modifies this
      ensures match Consume(old(Model()), id, note)
              case Err(refusal) => r == Err(refusal) && Model() == old(Model())
              case Ok(done) => r == Ok(done.told) && Model() == done.client
    {
      if note.Handoff? {
        if !HandoffFits(Model(), id, note) { return Err(HandoffMismatch); }
        ReplaceState(note.state);
        return Ok(Some(StateReplaced(note.state)));
      }
      if note.Snapshot? {
        if note.state.sessionId != note.sessionId || note.state.eventId != id { return Err(SnapshotMismatch); }
      }
      if id <= 0 { return Err(BadEventId); }
      if note.sessionId != state.sessionId { return Err(OtherSession); }
      if id <= lastEventId { return Ok(None); }
      if id != lastEventId + 1 { return Err(Gap); }
      r := ApplyEvent(note);
      if r.Ok? { lastEventId := id; }
    }

    /** Older entries go in front; the ones already loaded must agree. */
    method PrependHistoryPage(page: Page) returns (refusal: Option<Refusal>)
      modifies this
      ensures (Model(), refusal) == Prepend(old(Model()), page)
    {
      var added: seq<Entry> := [];
      var seen: set<string> := {};
      ghost var whole := Merge(entries, page.entries, {});
      assert page.entries[0..] == page.entries;
      assert [] + whole.added == whole.added;
      for i := 0 to |page.entries|
        invariant state == old(state) && lastEventId == old(lastEventId)
        invariant Continues(whole, added, Merge(entries, page.entries[i..], seen))
      {
        var e := page.entries[i];
        assert page.entries[i..][0] == e && page.entries[i..][1..] == page.entries[i + 1..];
        if e.id in seen { return Some(DuplicateEntry); }
        ghost var later := Merge(if e.id in entries then entries else entries[e.id := e], page.entries[i + 1..],
                                 seen + {e.id}).added;
        assert added + ([e] + later) == added + [e] + later;
        seen := seen + {e.id};
        if e.id in entries {
          if entries[e.id] != e { return Some(ConflictingEntry); }
        } else {
          entries := entries[e.id := e];
          added := added + [e];
        }
      }
      assert page.entries[|page.entries|..] == [];
      assert added + [] == added;
      state := state.(history := added + state.history, before := page.before);
      return None;
    }

    method EnsureCallback(callback: Entry) returns (isNew: bool)
      modifies this
      ensures Model() == Ensure(old(Model()), callback)
      ensures isNew <==> callback.id !in old(entries)
    {
      if callback.id in entries { return false; }
      var refusal := AddEntryTo(callback);
      return true;
    }

    method BeginTurnWith(turn: Turn) returns (refusal: Option<Refusal>)
      modifies this
      ensures match BeginTurn(old(Model()), turn)
              case Err(r) => refusal == Some(r) && Model() == old(Model())
              case Ok(c) => refusal == None && Model() == c
    {
      if turn.sessionId != state.sessionId { return Some(OtherSession); }
      state := state.(turn := Some(turn));
      return None;
    }
  }

  lemma FirstIndex(h: seq<Entry>, id: string, i: nat)
    requires i < |h| && h[i].id == id && forall j :: 0 <= j < i ==> h[j].id != id
    ensures IndexOf(h, id) == i
  {
    assert Has(h, id);
    var k := IndexOf(h, id);
    assert k >= i;
    assert k <= i;
  }
}
