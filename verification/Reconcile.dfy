/** Telling a user of the mirror what a new state changed: entries that are new,
    entries that differ with a patch between the versions, and the latest turn. */
module Reconcile {
  import opened Prelude
  import opened Json
  import opened Entries
  import opened Changes
  import opened Projection
  import opened ProjectorFacts
  import opened Client
  import opened Mirror
  import opened Patch

  const STREAMING_TEXT_PATHS: set<Pointer> := {["content", "0", "text"], ["text"], ["state", "outputText"]}

  type Diff = (Json, Json) -> seq<RawOp>

  function EntryEvents(previous: map<string, Entry>, e: Entry, diff: Diff): Result<seq<Told>, PatchError> {
    if e.id !in previous then Ok([HistoryEntryAdded(e)])
    else if previous[e.id] == e then Ok([])
    else
      var prior := previous[e.id];
      match Make(Dump(prior), diff(Dump(prior), Dump(e)), STREAMING_TEXT_PATHS)
      case Err(error) => Err(error)
      case Ok(patch) => Ok([HistoryEntryUpdated(prior, e, patch)])
  }

  function AllEntryEvents(previous: map<string, Entry>, es: seq<Entry>, diff: Diff): Result<seq<Told>, PatchError>
    decreases |es|
  {
    if es == [] then Ok([])
    else match EntryEvents(previous, es[0], diff)
      case Err(error) => Err(error)
      case Ok(first) =>
        match AllEntryEvents(previous, es[1..], diff)
        case Err(error) => Err(error)
        case Ok(rest) => Ok(first + rest)
  }

  function TurnEvents(previous: Option<Turn>, current: Option<Turn>): seq<Told> {
    if current.None? || current == previous then []
    else if current.value.status.TurnActive? then [TurnBegan(current.value)] else [TurnOver(current.value)]
  }

  method ReconcileSnapshot(previous: PublicState, current: PublicState, diff: Diff)
    returns (r: Result<seq<Told>, PatchError>)
    ensures r == match AllEntryEvents(Index(previous.history), current.history, diff)
                 case Err(error) => Err(error)
                 case Ok(events) => Ok([StateReplaced(current)] + events + TurnEvents(previous.turn, current.turn))
  {
    var events := [StateReplaced(current)];
    var index, h := Index(previous.history), current.history;
    assert h[0..] == h;
    ghost var whole := AllEntryEvents(index, h, diff);
    assert whole.Ok? ==> events + whole.value == [StateReplaced(current)] + whole.value;
    for i := 0 to |h|
      invariant match AllEntryEvents(index, h[i..], diff)
                case Err(error) => whole == Err(error)
                case Ok(rest) => whole.Ok? && [StateReplaced(current)] + whole.value == events + rest
    {
      assert h[i..][0] == h[i] && h[i..][1..] == h[i + 1..];
      ghost var rest := AllEntryEvents(index, h[i + 1..], diff);
      ghost var before := events;
      var e := h[i];
      if e.id !in index {
        events := events + [HistoryEntryAdded(e)];
        assert rest.Ok? ==> before + ([HistoryEntryAdded(e)] + rest.value) == events + rest.value;
      } else if index[e.id] != e {
        var prior := index[e.id];
        var patch := MakeJsonPatch(Dump(prior), diff(Dump(prior), Dump(e)), STREAMING_TEXT_PATHS);
        if patch.Err? { return Err(patch.error); }
        events := events + [HistoryEntryUpdated(prior, e, patch.value)];
        assert rest.Ok? ==> before + ([HistoryEntryUpdated(prior, e, patch.value)] + rest.value) == events + rest.value;
      } else {
        assert rest.Ok? ==> before + ([] + rest.value) == events + rest.value;
      }
    }
    assert h[|h|..] == [] && events + [] == events;
    if current.turn.Some? && current.turn != previous.turn {
      var turn := current.turn.value;
      return Ok(events + [if turn.status.TurnActive? then TurnBegan(turn) else TurnOver(turn)]);
    }
    assert events + [] == events;
    return Ok(events);
  }

  // ---- what the events are worth -------------------------------------------

  /** What a user who applies an event to the entries it knows ends up with. */
  function Applied(known: map<string, Entry>, t: Told): Option<map<string, Entry>> {
    match t
    case HistoryEntryAdded(e) => if e.id in known then None else Some(known[e.id := e])
    case HistoryEntryUpdated(p, e, patch) =>
      if p.id !in known || known[p.id] != p then None
      else (match Patched(p, patch) case None => None case Some(x) => Some(known[x.id := x]))
    case _ => Some(known)
  }

  function AppliedAll(known: map<string, Entry>, ts: seq<Told>): Option<map<string, Entry>>
    decreases |ts|
  {
    if ts == [] then Some(known)
    else match Applied(known, ts[0]) case None => None case Some(k) => AppliedAll(k, ts[1..])
  }

  /** The diff of two versions of an entry can be sent with appends: it is
      correct, and nothing before an append touches what the append names. */
  ghost predicate Sendable(diff: Diff, prior: Entry, e: Entry) {
    exists raw :: diff(Dump(prior), Dump(e)) == Raw(raw) && IsStandard(raw) && Apply(Dump(prior), raw) == Some(Dump(e))
                  && StableAppends(Dump(prior), Dump(prior), raw, STREAMING_TEXT_PATHS)
  }

  /** One updated entry: its patch takes the prior version to the current one. */
  lemma UpdateReachesCurrent(previous: map<string, Entry>, e: Entry, diff: Diff)
    requires e.id in previous && previous[e.id] != e && WellTyped(e)
    requires Sendable(diff, previous[e.id], e) && EntryEvents(previous, e, diff).Ok?
    ensures Patched(previous[e.id], EntryEvents(previous, e, diff).value[0].patch) == Some(e)
  {
    hide Dump, Validate, Make, StableAppends, Apply;
    var prior := previous[e.id];
    var raw :| diff(Dump(prior), Dump(e)) == Raw(raw) && IsStandard(raw) && Apply(Dump(prior), raw) == Some(Dump(e))
               && StableAppends(Dump(prior), Dump(prior), raw, STREAMING_TEXT_PATHS);
    MadePatchReachesTarget(Dump(prior), Dump(e), raw, STREAMING_TEXT_PATHS);
    ValidateDump(e);
  }

  lemma {:induction false} AppliedConcat(known: map<string, Entry>, a: seq<Told>, b: seq<Told>)
    ensures AppliedAll(known, a + b) == match AppliedAll(known, a) case None => None case Some(k) => AppliedAll(k, b)
    decreases |a|
  {
    if a == [] {
      assert a + b == b;
    } else {
      assert (a + b)[0] == a[0] && (a + b)[1..] == a[1..] + b;
      match Applied(known, a[0]) { case None => case Some(k) => AppliedConcat(k, a[1..], b); }
    }
  }

  /** The known entries with those of a history written over them. */
  function Over(known: map<string, Entry>, es: seq<Entry>): map<string, Entry>
    decreases |es|
  {
    if es == [] then known else Over(known[es[0].id := es[0]], es[1..])
  }

  lemma OneApplied(previous: map<string, Entry>, known: map<string, Entry>, e: Entry, diff: Diff)
    requires EntryEvents(previous, e, diff).Ok? && WellTyped(e)
    requires e.id in known <==> e.id in previous
    requires e.id in previous ==> known[e.id] == previous[e.id] && previous[e.id].id == e.id
    requires e.id in previous && previous[e.id] != e ==> Sendable(diff, previous[e.id], e)
    ensures AppliedAll(known, EntryEvents(previous, e, diff).value) == Some(known[e.id := e])
  {
    hide Sendable, Patched, Dump, Make, WellTyped;
    var ts := EntryEvents(previous, e, diff).value;
    if ts != [] { assert ts[1..] == []; }
    if e.id in previous && previous[e.id] != e { UpdateReachesCurrent(previous, e, diff); }
    if e.id in previous && previous[e.id] == e { assert known[e.id := e] == known; }
  }

  /** Main result: a user who knows the previous entries and applies the events
      in order, additions and patches, never meets a duplicate, a stale version
      or a patch that fails, and ends up with every entry of the current history,
      the previous ones it does not mention unchanged. */
  lemma {:induction false} EventsReachCurrent(previous: map<string, Entry>, known: map<string, Entry>,
                                              es: seq<Entry>, diff: Diff)
    requires AllEntryEvents(previous, es, diff).Ok? && UniqueIds(es)
    requires forall i :: 0 <= i < |es| ==> WellTyped(es[i])
    requires forall i :: 0 <= i < |es| ==> (es[i].id in known <==> es[i].id in previous)
    requires forall i :: 0 <= i < |es| && es[i].id in previous ==>
               known[es[i].id] == previous[es[i].id] && previous[es[i].id].id == es[i].id
    requires forall i :: 0 <= i < |es| && es[i].id in previous && previous[es[i].id] != es[i] ==>
               Sendable(diff, previous[es[i].id], es[i])
    ensures AppliedAll(known, AllEntryEvents(previous, es, diff).value) == Some(Over(known, es))
    decreases |es|
  {
    hide Sendable, EntryEvents, WellTyped;
    if es != [] {
      var e, rest := es[0], es[1..];
      OneApplied(previous, known, e, diff);
      var known1 := known[e.id := e];
      forall i | 0 <= i < |rest|
        ensures WellTyped(rest[i]) && rest[i].id != e.id
        ensures rest[i].id in known1 <==> rest[i].id in previous
        ensures rest[i].id in previous ==>
                  known1[rest[i].id] == previous[rest[i].id] && previous[rest[i].id].id == rest[i].id
        ensures rest[i].id in previous && previous[rest[i].id] != rest[i] ==>
                  Sendable(diff, previous[rest[i].id], rest[i])
      {
        assert rest[i] == es[i + 1] && es[0].id != es[i + 1].id;
      }
      forall i, j | 0 <= i < j < |rest| ensures rest[i].id != rest[j].id { assert es[i + 1].id != es[j + 1].id; }
      EventsReachCurrent(previous, known1, rest, diff);
      AppliedConcat(known, EntryEvents(previous, e, diff).value, AllEntryEvents(previous, rest, diff).value);
    }
  }

  lemma {:induction false} OverHolds(known: map<string, Entry>, es: seq<Entry>)
    requires UniqueIds(es)
    ensures forall i :: 0 <= i < |es| ==> es[i].id in Over(known, es) && Over(known, es)[es[i].id] == es[i]
    ensures forall id :: id in known && !Has(es, id) ==> id in Over(known, es) && Over(known, es)[id] == known[id]
    decreases |es|
  {
    if es != [] {
      var e, rest := es[0], es[1..];
      forall i, j | 0 <= i < j < |rest| ensures rest[i].id != rest[j].id { assert es[i + 1].id != es[j + 1].id; }
      OverHolds(known[e.id := e], rest);
      forall i | 0 <= i < |rest| ensures rest[i].id != e.id { assert es[0].id != es[i + 1].id; }
      assert !Has(rest, e.id);
      forall i | 0 <= i < |es| ensures es[i].id in Over(known, es) && Over(known, es)[es[i].id] == es[i] {
        if i > 0 { assert rest[i - 1] == es[i]; }
      }
      forall id | id in known && !Has(es, id) ensures id in Over(known, es) && Over(known, es)[id] == known[id] {
        assert es[0].id != id;
        forall i | 0 <= i < |rest| ensures rest[i].id != id { assert es[i + 1].id != id; }
      }
    }
  }

  /** The events between two states, applied to the entries of the first, give
      every entry of the second. */
  lemma SnapshotReconciled(previous: PublicState, current: PublicState, diff: Diff)
    requires UniqueIds(previous.history) && UniqueIds(current.history)
    requires forall i :: 0 <= i < |current.history| ==> WellTyped(current.history[i])
    requires var index := Index(previous.history);
             && AllEntryEvents(index, current.history, diff).Ok?
             && forall i ::
                  0 <= i < |current.history| && current.history[i].id in index
                  && index[current.history[i].id] != current.history[i] ==>
                    Sendable(diff, index[current.history[i].id], current.history[i])
    ensures var index := Index(previous.history);
            var known := AppliedAll(index, AllEntryEvents(index, current.history, diff).value);
            && known.Some?
            && (forall i :: 0 <= i < |current.history| ==>
                  current.history[i].id in known.value && known.value[current.history[i].id] == current.history[i])
            && (forall id :: id in Index(previous.history) && !Has(current.history, id) ==>
                  id in known.value && known.value[id] == Index(previous.history)[id])
  {
    hide Sendable, WellTyped, AllEntryEvents, Index;
    var index, es := Index(previous.history), current.history;
    IndexIsById(previous.history);
    ByIdIs(previous.history);
    EventsReachCurrent(index, index, es, diff);
    OverHolds(index, es);
  }
}
