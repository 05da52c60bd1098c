/** What the end of a turn makes of each entry that is still in progress. */
module Finalizing {
  import opened Prelude
  import opened Json
  import opened Entries
  import opened Changes
  import opened Projection
  import opened ProjectorFacts
  import opened ProjectorRuns

  /** What an effect has put out while it runs or waits for a callback. */
  function SoFar(state: EffectState): string {
    match state
    case Running(text) => text
    case Blocked(_, text) => text
    case _ => ""
  }

  /** An effect in progress that the turn's end interrupts, or leaves behind. */
  predicate StoppedAs(before: EffectState, after: EffectState, cancelled: bool) {
    if cancelled then
      && after.Cancelled? && after.reason == "Turn interrupted" && after.outputText == SoFar(before)
      && after.display == Obj(map["success" := Bool(false), "message" := Str("Turn interrupted")])
    else
      && after.Failed? && after.error == Obj(map["message" := Str("Turn ended")]) && after.outputText == SoFar(before)
      && after.display == Obj(map["success" := Bool(false), "message" := Str("Turn ended")])
  }

  predicate BodyClosedAs(before: Body, after: Body, cancelled: bool) {
    match before
    case Effect(title, detail, state) =>
      after.Effect? && after.title == title && after.detail == detail && StoppedAs(state, after.state, cancelled)
    case Callback(callbackId, title, detail, _) =>
      after == Callback(callbackId, title, detail, Withdrawn(if cancelled then "Turn interrupted" else "Turn ended"))
    case _ => after == before
  }

  /** A complete entry stays as it is; one in progress is complete, stamped, and
      has the body its kind gets. */
  predicate ClosedAs(before: Entry, after: Entry, cancelled: bool, now: int) {
    if before.status.Complete? then after == before
    else after == before.(status := Complete, updatedAt := now, body := after.body)
         && BodyClosedAs(before.body, after.body, cancelled)
  }

  predicate AllClosedAs(before: seq<Entry>, after: seq<Entry>, cancelled: bool, now: int) {
    |after| == |before| && forall i :: 0 <= i < |before| ==> ClosedAs(before[i], after[i], cancelled, now)
  }

  /** The ids of the entries in progress, in order. */
  function StillOpen(h: seq<Entry>): seq<string> {
    if h == [] then [] else (if h[0].status.InProgress? then [h[0].id] else []) + StillOpen(h[1..])
  }

  /** The entries that updates are about; an addition or a session update has no
      place at the end of a turn. */
  function Touched(us: seq<Update>): Option<seq<string>> {
    if us == [] then Some([])
    else match (us[0], Touched(us[1..]))
      case (Updated(_, id, _), Some(rest)) => Some([id] + rest)
      case _ => None
  }

  lemma ClosingCloses(e: Entry, cancelled: bool, now: int)
    requires e.status.InProgress?
    ensures Changed(e, Closing(e, cancelled), now).Some?
    ensures ClosedAs(e, Changed(e, Closing(e, cancelled), now).value, cancelled, now)
  {
  }

  /** Closing one entry: it alone changes, and its update alone is handed out. */
  lemma ClosesOne(s: State, k: nat, cancelled: bool, now: int)
    requires Valid(s) && k < |s.history| && s.history[k].status.InProgress?
    ensures var e := s.history[k];
            var o := Step(s, Patch(e.id, Closing(e, cancelled), now));
            && o.error.None? && Valid(o.state)
            && o.state == s.(history := o.state.history, entries := o.state.entries)
            && |o.state.history| == |s.history| && ClosedAs(e, o.state.history[k], cancelled, now)
            && (forall j :: 0 <= j < |s.history| && j != k ==> o.state.history[j] == s.history[j])
            && |o.updates| == 1 && o.updates[0].Updated? && o.updates[0].entryId == e.id
  {
    hide Step, Closing, Changed, Valid, ClosedAs;
    var e := s.history[k];
    assert UniqueIds(s.history) && s.entries == ById(s.history) by { InIndex(s); }
    IndexUnique(s.history, k);
    ByIdAt(s.history, k);
    ClosingCloses(e, cancelled, now);
    PatchStep(s, e.id, Closing(e, cancelled), now);
    PatchKeepsValid(s, e.id, Closing(e, cancelled), now);
  }

  lemma {:induction false} ClosesFrom(s: State, h: seq<Entry>, k: nat, cancelled: bool, now: int)
    requires Valid(s) && |s.history| == |h| && k <= |h|
    requires forall j :: k <= j < |h| ==> s.history[j] == h[j]
    requires forall j :: 0 <= j < k ==> ClosedAs(h[j], s.history[j], cancelled, now)
    ensures var o := Exec(s, ClosingCmds(h[k..], cancelled, now));
            && o.error.None? && o.state == s.(history := o.state.history, entries := o.state.entries)
            && AllClosedAs(h, o.state.history, cancelled, now) && Touched(o.updates) == Some(StillOpen(h[k..]))
    decreases |h| - k
  {
    hide Step, Valid, Closing, ClosedAs;
    if k < |h| {
      var e, rest := h[k], ClosingCmds(h[k + 1..], cancelled, now);
      assert h[k..][0] == e && h[k..][1..] == h[k + 1..];
      if e.status.Complete? {
        assert [] + rest == rest && [] + StillOpen(h[k + 1..]) == StillOpen(h[k + 1..]);
        assert ClosedAs(e, e, cancelled, now) by { StaysClosed(e, cancelled, now); }
        ClosesFrom(s, h, k + 1, cancelled, now);
      } else {
        var c := Patch(e.id, Closing(e, cancelled), now);
        var first := Step(s, c);
        ClosesOne(s, k, cancelled, now);
        ClosesFrom(first.state, h, k + 1, cancelled, now);
        assert ([c] + rest)[0] == c && ([c] + rest)[1..] == rest;
        var later := Exec(first.state, rest).updates;
        assert (first.updates + later)[0] == first.updates[0] && (first.updates + later)[1..] == later;
      }
    }
  }

  lemma StaysClosed(e: Entry, cancelled: bool, now: int)
    requires e.status.Complete?
    ensures ClosedAs(e, e, cancelled, now)
  {
  }

  /** Main result: finalizing changes the entries in progress and nothing else, an
      interrupted turn's effects to cancelled, another's to failed, with what they
      had put out; callbacks are withdrawn; and one update tells of each, in
      order. */
  lemma FinalizeCloses(s: State, cancelled: bool, newId: string, now: int)
    requires Valid(s)
    ensures var o := Project(s, Finalize(cancelled), newId, now);
            && o.error == None && o.state == s.(history := o.state.history, entries := ById(o.state.history))
            && AllClosedAs(s.history, o.state.history, cancelled, now)
            && Touched(o.updates) == Some(StillOpen(s.history))
  {
    hide Valid, ClosedAs, ById, Exec;
    assert s.history[0..] == s.history;
    ClosesFrom(s, s.history, 0, cancelled, now);
    FinalizeIs(s, cancelled, newId, now);
    ProjectKeepsValid(s, Finalize(cancelled), newId, now);
    InIndex(Project(s, Finalize(cancelled), newId, now).state);
  }

  /** So finalizing never raises, from any state a run can reach, and leaves no entry
      in progress. */
  lemma FinalizeCompletes(s: State, cancelled: bool, newId: string, now: int)
    requires Valid(s)
    ensures Project(s, Finalize(cancelled), newId, now).error.None?
    ensures AllComplete(Project(s, Finalize(cancelled), newId, now).state.history)
    ensures |Project(s, Finalize(cancelled), newId, now).state.history| == |s.history|
  {
    hide Project, Valid;
    FinalizeCloses(s, cancelled, newId, now);
    var h := Project(s, Finalize(cancelled), newId, now).state.history;
    forall i | 0 <= i < |h| ensures h[i].status.Complete? { assert ClosedAs(s.history[i], h[i], cancelled, now); }
  }

  /** Touched entries are as many as the updates. */
  lemma {:induction false} TouchedCounts(us: seq<Update>)
    requires Touched(us).Some?
    ensures |Touched(us).value| == |us|
  {
    if us != [] { TouchedCounts(us[1..]); }
  }
}
