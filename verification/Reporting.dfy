/** What the mirror tells its user about each notification it takes, and what a
    user who only listens comes to know. */
module Reporting {
  import opened Prelude
  import opened Entries
  import opened Changes
  import opened Projection
  import opened ProjectorFacts
  import opened Client
  import opened Reconcile

  // ---- one notification ----------------------------------------------------

  /** Each entry is loaded once, and the index has it. */
  ghost predicate InOrder(c: Client) {
    UniqueIds(c.state.history) && c.entries == ById(c.state.history)
  }

  /** One entry of a history gives way to another. */
  predicate ReplacedIn(h: seq<Entry>, h': seq<Entry>, previous: Entry, e: Entry) {
    |h'| == |h| && exists i :: 0 <= i < |h| && h[i] == previous && h'[i] == e
                               && forall j :: 0 <= j < |h| && j != i ==> h'[j] == h[j]
  }

  /** What the mirror shows besides its entries and its open callbacks is as before,
      but for the turn. */
  predicate OnlyEntriesMove(c: Client, d: Client) {
    d.state == c.state.(history := d.state.history, callbacks := d.state.callbacks)
  }

  /** The report fits the note, the mirror before and the mirror after. */
  ghost predicate Fits(c: Client, note: Note, told: Option<Told>, d: Client) {
    match told
    case None => d.state == c.state && d.entries == c.entries
    case Some(HistoryEntryAdded(e)) =>
      && note.EntryAdded? && note.entry == e && e.id !in c.entries && OnlyEntriesMove(c, d)
      && d.state.history == c.state.history + [e] && d.entries == c.entries[e.id := e]
    case Some(HistoryEntryUpdated(previous, e, patch)) =>
      && note.EntryUpdated? && note.patch == patch && OnlyEntriesMove(c, d)
      && note.entryId in c.entries && previous == c.entries[note.entryId] && previous.status.InProgress?
      && Patched(previous, patch) == Some(e) && d.entries == c.entries[e.id := e]
      && (InOrder(c) && e.id == note.entryId ==> ReplacedIn(c.state.history, d.state.history, previous, e))
    case Some(StateReplaced(state)) =>
      && (note.Snapshot? || note.Handoff?) && note.state == state
      && d == Client(state, Index(state.history), state.eventId)
    case Some(TurnBegan(turn)) =>
      note.TurnStarted? && note.turn == turn && d.state == c.state.(turn := Some(turn)) && d.entries == c.entries
    case Some(TurnOver(turn)) =>
      note.TurnCompleted? && note.turn == turn && d.state == c.state.(turn := Some(turn)) && d.entries == c.entries
    case Some(SessionChanged) => note.SessionUpdated? && d.state == c.state && d.entries == c.entries
    case Some(StatsChanged) => note.StatsUpdated? && d.state == c.state && d.entries == c.entries
  }

  lemma FirstGivesWay(h: seq<Entry>, id: string, e: Entry)
    requires UniqueIds(h) && id in ById(h) && e.id == id
    ensures ReplacedIn(h, PutEntry(h, e), ById(h)[id], e)
  {
    ByIdIs(h);
    var i := IndexOf(h, id);
    assert h[i] == ById(h)[id] && PutEntry(h, e) == h[i := e];
  }

  lemma UpdateFits(c: Client, note: Note)
    requires note.EntryUpdated? && UpdateEntry(c, note.entryId, note.patch).Ok?
    ensures var done := UpdateEntry(c, note.entryId, note.patch).value;
            && Fits(c, note, done.told, done.client) && done.client.lastEventId == c.lastEventId
            && (done.told.None? <==> note.entryId !in c.entries)
  {
    hide Patched, ById, UniqueIds;
    if note.entryId in c.entries {
      var e := Patched(c.entries[note.entryId], note.patch).value;
      if InOrder(c) && e.id == note.entryId { FirstGivesWay(c.state.history, note.entryId, e); }
    }
  }

  lemma ReduceFits(c: Client, note: Note)
    requires Reduce(c, note).Ok?
    ensures var done := Reduce(c, note).value;
            && Fits(c, note, done.told, done.client)
            && (done.told.None? <==> note.EntryUpdated? && note.entryId !in c.entries)
            && (!note.Snapshot? && !note.Handoff? ==> done.client.lastEventId == c.lastEventId)
  {
    hide UpdateEntry, Index;
    if note.EntryUpdated? { UpdateFits(c, note); }
  }

  /** Main result: whatever notification a mirror takes, its report fits what the
      mirror showed and shows; nothing is told if and only if the number was seen
      before or the note changes an entry that is not loaded; and the number taken
      is the one the mirror has come to. */
  lemma ConsumedIsReported(c: Client, id: int, note: Note)
    requires Consume(c, id, note).Ok?
    ensures var done := Consume(c, id, note).value;
            var seen := !note.Handoff? && id <= c.lastEventId;
            && Fits(c, note, done.told, done.client)
            && (done.told.None? <==> seen || (note.EntryUpdated? && note.entryId !in c.entries))
            && done.client.lastEventId == if seen then c.lastEventId else id
  {
    hide Reduce, Index, Patched, InOrder;
    if Reduce(c, note).Ok? { ReduceFits(c, note); }
    if note.Handoff? { HandoffReplaces(c, note); }
  }

  lemma HandoffReplaces(c: Client, note: Note)
    requires note.Handoff?
    ensures Reduce(c, note) == Ok(Consumed(MirrorOf(note.state), Some(StateReplaced(note.state))))
  {
  }

  // ---- a user who listens --------------------------------------------------

  /** The entries and the turn that a user knows. */
  datatype Known = Known(entries: map<string, Entry>, turn: Option<Turn>)

  function Shown(c: Client): Known { Known(c.entries, c.state.turn) }

  /** What it makes of a report: None when an entry is added twice, a version it
      does not have gives way, or a patch fails. */
  function Heeded(k: Known, t: Told): Option<Known> {
    match t
    case StateReplaced(state) => Some(Known(Index(state.history), state.turn))
    case TurnBegan(turn) => Some(k.(turn := Some(turn)))
    case TurnOver(turn) => Some(k.(turn := Some(turn)))
    case _ => match Applied(k.entries, t) case None => None case Some(entries) => Some(k.(entries := entries))
  }

  /** And of the answer to a call of its own. */
  function Handed(k: Known, p: Packet): Known {
    match p
    case Answer(state) => Known(Index(state.history), state.turn)
    case Older(page) => k.(entries := Over(k.entries, page.entries))
    case Ask(callback) => if callback.id in k.entries then k else k.(entries := k.entries[callback.id := callback])
    case Began(turn) => k.(turn := Some(turn))
    case _ => k
  }

  /** What it knows when the mirror has taken a stream. */
  function Listened(c: Client, k: Known, ps: seq<Packet>): Option<Known>
    decreases |ps|
  {
    if ps == [] then Some(k)
    else if ps[0].Event? then
      match Consume(c, ps[0].id, ps[0].note)
      case Err(_) => None
      case Ok(done) =>
        match (if done.told.None? then Some(k) else Heeded(k, done.told.value))
        case None => None
        case Some(k') => Listened(done.client, k', ps[1..])
    else
      match Receive(c, ps[0])
      case Err(_) => None
      case Ok(d) => Listened(d, Handed(k, ps[0]), ps[1..])
  }

  /** Entries are kept under their own ids. */
  predicate Keyed(entries: map<string, Entry>) { forall id :: id in entries ==> entries[id].id == id }

  lemma {:induction false} IndexIsKeyed(h: seq<Entry>)
    ensures Keyed(Index(h))
    decreases |h|
  {
    if h != [] { IndexIsKeyed(h[..|h| - 1]); }
  }

  lemma {:induction false} MergedOver(entries: map<string, Entry>, page: seq<Entry>, seen: set<string>)
    requires Keyed(entries) && Merge(entries, page, seen).refusal.None?
    ensures Merge(entries, page, seen).entries == Over(entries, page) && Keyed(Over(entries, page))
    decreases |page|
  {
    if page != [] {
      var e := page[0];
      if e.id in entries { assert entries[e.id := e] == entries; }
      MergedOver(entries[e.id := e], page[1..], seen + {e.id});
    }
  }

  lemma EventHeeded(c: Client, id: int, note: Note)
    requires Keyed(c.entries) && Consume(c, id, note).Ok?
    ensures var done := Consume(c, id, note).value;
            && Keyed(done.client.entries)
            && (if done.told.None? then Shown(done.client) == Shown(c)
                else Heeded(Shown(c), done.told.value) == Some(Shown(done.client)))
  {
    hide Consume, Patched, Index;
    ConsumedIsReported(c, id, note);
    if note.Snapshot? || note.Handoff? { IndexIsKeyed(note.state.history); }
  }

  lemma OtherHanded(c: Client, p: Packet)
    requires Keyed(c.entries) && !p.Event? && Receive(c, p).Ok?
    ensures Keyed(Receive(c, p).value.entries) && Shown(Receive(c, p).value) == Handed(Shown(c), p)
  {
    hide Index, Merge;
    if p.Answer? { IndexIsKeyed(p.state.history); }
    if p.Older? { MergedOver(c.entries, p.page.entries, {}); }
  }

  /** Main result: a user who knows what a mirror shows and from then on only
      listens, to the reports and to the answers it asked for, meets no duplicate,
      no stale version and no failing patch, and always knows what the mirror
      shows. */
  lemma {:induction false} ListenerKnows(c: Client, ps: seq<Packet>)
    requires Keyed(c.entries) && Drain(c, ps).Ok?
    ensures Listened(c, Shown(c), ps) == Some(Shown(Drain(c, ps).value))
    decreases |ps|
  {
    hide Consume, Keyed, Heeded, Handed, Shown;
    if ps != [] {
      match ps[0] {
        case Event(id, note) => EventHeeded(c, id, note);
        case _ => OtherHanded(c, ps[0]);
      }
      ListenerKnows(Receive(c, ps[0]).value, ps[1..]);
    }
  }

  /** A mirror starts with its entries under their own ids. */
  lemma MirrorIsKeyed(state: PublicState)
    ensures Keyed(MirrorOf(state).entries)
  {
    IndexIsKeyed(state.history);
  }

  // ---- what is taken -------------------------------------------------------

  /** The note itself can be taken: no entry added twice, none changed that is over
      or by a patch that fails. */
  predicate Reducible(c: Client, note: Note) {
    match note
    case EntryAdded(_, e) => e.id !in c.entries
    case EntryUpdated(_, id, patch) =>
      id !in c.entries || (c.entries[id].status.InProgress? && Patched(c.entries[id], patch).Some?)
    case _ => true
  }

  lemma ReducedIff(c: Client, note: Note)
    ensures Reduce(c, note).Ok? <==> Reducible(c, note)
  {
    hide Patched, Index;
  }

  /** Main result: a notification is taken if and only if it is the handoff from the
      session shown to the one its state is of, or a note of the session shown,
      with a number seen before or the next one and a content that fits. */
  lemma TakenIff(c: Client, id: int, note: Note)
    ensures Consume(c, id, note).Ok? <==>
              match note
              case Handoff(to, from, state) =>
                from == c.state.sessionId && to != from && state.sessionId == to && state.eventId == id && id > 0
              case _ =>
                && (note.Snapshot? ==> note.state.sessionId == note.sessionId && note.state.eventId == id)
                && id > 0 && note.sessionId == c.state.sessionId
                && (id <= c.lastEventId || (id == c.lastEventId + 1 && Reducible(c, note)))
  {
    hide Reduce, Reducible;
    ReducedIff(c, note);
    if note.Handoff? { HandoffReplaces(c, note); }
  }

  /** The other packets: a turn of another session and a page that repeats or
      contradicts an entry are refused, everything else is taken. */
  lemma OtherTakenIff(c: Client, p: Packet)
    requires !p.Event?
    ensures Receive(c, p).Ok? <==>
              && (p.Began? ==> p.turn.sessionId == c.state.sessionId)
              && (p.Older? ==> FitsIn(c.entries, p.page.entries))
  {
    hide Merge;
    if p.Older? { MergedIff(c.entries, p.page.entries, {}); }
  }

  /** No id twice in the page, and what is loaded is the same there. */
  predicate FitsIn(entries: map<string, Entry>, page: seq<Entry>) {
    UniqueIds(page) && forall i :: 0 <= i < |page| && page[i].id in entries ==> entries[page[i].id] == page[i]
  }

  lemma {:induction false} MergedIff(entries: map<string, Entry>, page: seq<Entry>, seen: set<string>)
    ensures Merge(entries, page, seen).refusal.None?
       <==> UniqueIds(page)
            && (forall i :: 0 <= i < |page| ==> page[i].id !in seen)
            && (forall i :: 0 <= i < |page| && page[i].id in entries ==> entries[page[i].id] == page[i])
    decreases |page|
  {
    if page != [] && page[0].id !in seen {
      var e, rest := page[0], page[1..];
      assert forall i :: 0 <= i < |rest| ==> rest[i] == page[i + 1];
      assert forall i :: 1 <= i < |page| ==> page[i] == rest[i - 1];
      if e.id !in entries || entries[e.id] == e {
        assert entries[e.id := e] == entries || e.id !in entries;
        MergedIff(entries[e.id := e], rest, seen + {e.id});
        UniqueRest(page);
      }
    }
  }

  lemma UniqueRest(page: seq<Entry>)
    requires page != []
    ensures UniqueIds(page)
       <==> UniqueIds(page[1..]) && forall i :: 0 <= i < |page[1..]| ==> page[1..][i].id != page[0].id
  {
    var rest := page[1..];
    if UniqueIds(page) {
      forall i, j | 0 <= i < j < |rest| ensures rest[i].id != rest[j].id { assert page[i + 1].id != page[j + 1].id; }
      forall i | 0 <= i < |rest| ensures rest[i].id != page[0].id { assert page[0].id != page[i + 1].id; }
    }
    if UniqueIds(rest) && forall i :: 0 <= i < |rest| ==> rest[i].id != page[0].id {
      forall i, j | 0 <= i < j < |page| ensures page[i].id != page[j].id {
        assert page[j] == rest[j - 1];
        if i > 0 { assert page[i] == rest[i - 1]; }
      }
    }
  }

  // ---- a state read again --------------------------------------------------

  function HeededAll(k: Known, ts: seq<Told>): Option<Known>
    decreases |ts|
  {
    if ts == [] then Some(k)
    else match Heeded(k, ts[0]) case None => None case Some(k') => HeededAll(k', ts[1..])
  }

  lemma {:induction false} EntriesHeeded(k: Known, ts: seq<Told>)
    requires forall i :: 0 <= i < |ts| ==> ts[i].HistoryEntryAdded? || ts[i].HistoryEntryUpdated?
    ensures HeededAll(k, ts) == match AppliedAll(k.entries, ts) case None => None
                                                              case Some(m) => Some(k.(entries := m))
    decreases |ts|
  {
    hide Applied;
    if ts != [] {
      match Applied(k.entries, ts[0]) {
        case None =>
        case Some(m) => EntriesHeeded(k.(entries := m), ts[1..]);
      }
    }
  }

  lemma {:induction false} HeededConcat(k: Known, a: seq<Told>, b: seq<Told>)
    ensures HeededAll(k, a + b) == match HeededAll(k, a) case None => None case Some(k') => HeededAll(k', b)
    decreases |a|
  {
    if a == [] {
      assert a + b == b;
    } else {
      assert (a + b)[0] == a[0] && (a + b)[1..] == a[1..] + b;
      match Heeded(k, a[0]) { case None => case Some(k') => HeededConcat(k', a[1..], b); }
    }
  }

  lemma {:induction false} OnlyEntries(previous: map<string, Entry>, es: seq<Entry>, diff: Diff)
    requires AllEntryEvents(previous, es, diff).Ok?
    ensures var ts := AllEntryEvents(previous, es, diff).value;
            forall i :: 0 <= i < |ts| ==> ts[i].HistoryEntryAdded? || ts[i].HistoryEntryUpdated?
    decreases |es|
  {
    hide Sendable;
    if es != [] { OnlyEntries(previous, es[1..], diff); }
  }

  /** The last event is the turn, as begun or as over, told if and only if there is one
      and it is another than before; with it a user who knew the state before, and takes the events
      behind the first, knows the turn now. */
  lemma TurnReconciled(previous: PublicState, current: PublicState, diff: Diff)
    requires AllEntryEvents(Index(previous.history), current.history, diff).Ok?
    requires AppliedAll(Index(previous.history), AllEntryEvents(Index(previous.history), current.history, diff).value)
             .Some?
    ensures var events := AllEntryEvents(Index(previous.history), current.history, diff).value;
            var turns := TurnEvents(previous.turn, current.turn);
            var heeded := HeededAll(Known(Index(previous.history), previous.turn), events + turns);
            && (turns != [] <==> current.turn.Some? && current.turn != previous.turn)
            && (turns != [] ==>
                  turns == [TurnBegan(current.turn.value)] || turns == [TurnOver(current.turn.value)])
            && (turns != [] ==> (turns[0].TurnBegan? <==> current.turn.value.status.TurnActive?))
            && heeded.Some? && heeded.value.turn == (if current.turn.Some? then current.turn else previous.turn)
            && Some(heeded.value.entries) == AppliedAll(Index(previous.history), events)
  {
    hide AllEntryEvents, Index, AppliedAll;
    var known := Known(Index(previous.history), previous.turn);
    var events := AllEntryEvents(Index(previous.history), current.history, diff).value;
    var turns := TurnEvents(previous.turn, current.turn);
    OnlyEntries(Index(previous.history), current.history, diff);
    EntriesHeeded(known, events);
    HeededConcat(known, events, turns);
    if turns != [] { assert turns[1..] == []; }
  }

  // ---- the open callbacks --------------------------------------------------

  /** No callback is listed twice. */
  predicate Once(callbacks: seq<Entry>) {
    forall i, j :: 0 <= i < j < |callbacks| && callbacks[i].body.Callback? && callbacks[j].body.Callback? ==>
      callbacks[i].body.callbackId != callbacks[j].body.callbackId
  }

  lemma OneMoreListed(callbacks: seq<Entry>, e: Entry)
    requires Once(callbacks) && (e.body.Callback? ==> !Names(callbacks, e.body.callbackId))
    ensures Once(callbacks + [e])
  {
  }

  /** What is left without a callback does not name it, and repeats nothing. */
  lemma {:induction false} WithoutNames(callbacks: seq<Entry>, callbackId: string)
    requires Once(callbacks)
    ensures Once(Without(callbacks, callbackId)) && !Names(Without(callbacks, callbackId), callbackId)
    ensures forall id :: Names(Without(callbacks, callbackId), id) ==> Names(callbacks, id)
    decreases |callbacks|
  {
    if callbacks != [] {
      var head, tail := callbacks[0], callbacks[1..];
      forall i, j | 0 <= i < j < |tail| && tail[i].body.Callback? && tail[j].body.Callback?
        ensures tail[i].body.callbackId != tail[j].body.callbackId
      {
        assert callbacks[i + 1] == tail[i] && callbacks[j + 1] == tail[j];
      }
      WithoutNames(tail, callbackId);
      HeadFirst(head, tail, Without(tail, callbackId));
      assert forall id :: Names(tail, id) ==> Names(callbacks, id) by { TailNames(callbacks); }
      if head.body.Callback? { assert callbacks[0].body.callbackId == head.body.callbackId; }
    }
  }

  lemma TailNames(callbacks: seq<Entry>)
    requires callbacks != []
    ensures forall id :: Names(callbacks, id)
                         <==> Names(callbacks[1..], id) || (callbacks[0].body.Callback?
                                                            && callbacks[0].body.callbackId == id)
  {
    forall id ensures Names(callbacks[1..], id) ==> Names(callbacks, id) {
      if Names(callbacks[1..], id) {
        var i :| 0 <= i < |callbacks[1..]| && callbacks[1..][i].body.Callback?
                 && callbacks[1..][i].body.callbackId == id;
        assert callbacks[i + 1].body.callbackId == id;
      }
    }
    forall id | Names(callbacks, id) && !(callbacks[0].body.Callback? && callbacks[0].body.callbackId == id)
      ensures Names(callbacks[1..], id)
    {
      var i :| 0 <= i < |callbacks| && callbacks[i].body.Callback? && callbacks[i].body.callbackId == id;
      assert callbacks[1..][i - 1].body.callbackId == id;
    }
  }

  lemma HeadFirst(head: Entry, tail: seq<Entry>, rest: seq<Entry>)
    requires Once([head] + tail) && Once(rest) && forall id :: Names(rest, id) ==> Names(tail, id)
    ensures Once([head] + rest)
    ensures forall id :: Names([head] + rest, id)
                         <==> Names(rest, id) || (head.body.Callback? && head.body.callbackId == id)
  {
    var all := [head] + rest;
    assert all[1..] == rest;
    TailNames(all);
    forall i, j | 0 <= i < j < |all| && all[i].body.Callback? && all[j].body.Callback?
      ensures all[i].body.callbackId != all[j].body.callbackId
    {
      assert all[j] == rest[j - 1];
      if i > 0 {
        assert all[i] == rest[i - 1];
      } else {
        var id, before := rest[j - 1].body.callbackId, [head] + tail;
        assert Names(rest, id) && Names(tail, id);
        var k :| 0 <= k < |tail| && tail[k].body.Callback? && tail[k].body.callbackId == id;
        assert before[0] == head && before[k + 1] == tail[k] && all[0] == head;
        assert before[0].body.callbackId != before[k + 1].body.callbackId;
      }
    }
  }

  /** A state whose callbacks are listed once, if the packet carries one. */
  predicate ListsOnce(p: Packet) {
    match p
    case Event(_, Snapshot(_, state)) => Once(state.callbacks)
    case Event(_, Handoff(_, _, state)) => Once(state.callbacks)
    case Answer(state) => Once(state.callbacks)
    case _ => true
  }

  lemma AddsOnce(c: Client, e: Entry)
    requires Once(c.state.callbacks) && AddEntry(c, e).Ok?
    ensures Once(AddEntry(c, e).value.state.callbacks)
  {
    if IsOpen(e) && !Names(c.state.callbacks, e.body.callbackId) { OneMoreListed(c.state.callbacks, e); }
  }

  lemma FollowsOnce(callbacks: seq<Entry>, e: Entry)
    requires Once(callbacks)
    ensures Once(CallbacksAfter(callbacks, e))
  {
    hide Without;
    if e.body.Callback? {
      var rest := Without(callbacks, e.body.callbackId);
      WithoutNames(callbacks, e.body.callbackId);
      if IsOpen(e) { OneMoreListed(rest, e); } else { assert rest + [] == rest; }
    }
  }

  lemma ReceivesOnce(c: Client, p: Packet)
    requires Once(c.state.callbacks) && ListsOnce(p) && Receive(c, p).Ok?
    ensures Once(Receive(c, p).value.state.callbacks)
  {
    hide Once, AddEntry, CallbacksAfter, Patched, Index, Merge;
    match p {
      case Event(id, note) =>
        if note.EntryAdded? && AddEntry(c, note.entry).Ok? { AddsOnce(c, note.entry); AddsOnly(c, note.entry); }
        if note.EntryUpdated? && note.entryId in c.entries && Patched(c.entries[note.entryId], note.patch).Some? {
          FollowsOnce(c.state.callbacks, Patched(c.entries[note.entryId], note.patch).value);
        }
      case Ask(callback) => if AddEntry(c, callback).Ok? { AddsOnce(c, callback); }
      case _ =>
    }
  }

  lemma AddsOnly(c: Client, e: Entry)
    requires AddEntry(c, e).Ok?
    ensures AddEntry(c, e).value == c.(entries := AddEntry(c, e).value.entries, state := AddEntry(c, e).value.state)
  {
  }

  /** Main result: whatever a mirror takes, callbacks delivered again included, it
      never lists a callback twice. */
  lemma {:induction false} ListedOnce(c: Client, ps: seq<Packet>)
    requires Once(c.state.callbacks) && Drain(c, ps).Ok? && forall i :: 0 <= i < |ps| ==> ListsOnce(ps[i])
    ensures Once(Drain(c, ps).value.state.callbacks)
    decreases |ps|
  {
    hide Once, ListsOnce, Receive;
    if ps != [] {
      ReceivesOnce(c, ps[0]);
      ListedOnce(Receive(c, ps[0]).value, ps[1..]);
    }
  }
}
