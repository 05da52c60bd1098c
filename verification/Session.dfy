/** The server's side of one session: settled entries, the projector at work,
    and the public state built from both. */
module Session {
  import opened Prelude
  import opened Entries
  import opened Changes
  import opened Projection
  import opened ProjectorFacts
  import opened ProjectorRuns
  import opened Client
  import opened Mirror
  import opened Telling
  import opened Paging

  /** Turning: a turn's projector.  Doubled: the turn's entries are settled but
      its projector is still there.  Shelling: a harness effect's projector.
      Injecting: a projector whose entries are told before they are settled. */
  datatype Phase = Idle | Turning | Doubled | Shelling | Injecting

  datatype Server = Server(
    sessionId: string, settled: seq<Entry>, phase: Phase, live: State, turn: Option<Turn>)

  /** What clients have been, or are about to be, told. */
  function Truth(sv: Server): seq<Entry> {
    if sv.phase.Idle? || sv.phase.Doubled? then sv.settled else sv.settled + sv.live.history
  }

  /** What a public state or a history page is cut from. */
  function Public(sv: Server): seq<Entry> {
    if sv.phase.Idle? || sv.phase.Injecting? then sv.settled else sv.settled + sv.live.history
  }

  /** The two agree exactly outside the window at a turn's end and outside an
      injection, or when the projector has no entries. */
  lemma PublicIsTruth(sv: Server)
    ensures Public(sv) == Truth(sv)
       <==> (sv.phase.Doubled? || sv.phase.Injecting? ==> sv.live.history == [])
  {
    if sv.phase.Doubled? || sv.phase.Injecting? {
      assert |Public(sv)| - |Truth(sv)| == |sv.live.history| || |Truth(sv)| - |Public(sv)| == |sv.live.history|;
      assert sv.live.history == [] ==> sv.settled + sv.live.history == sv.settled;
    }
  }

  /** A state taken in the window at a turn's end shows every entry of the turn
      twice. */
  lemma DoubledRepeats(sv: Server, before: seq<Entry>)
    requires sv.phase.Doubled? && sv.settled == before + sv.live.history && sv.live.history != []
    ensures !UniqueIds(Public(sv))
  {
    var h, n := Public(sv), |sv.live.history|;
    assert h[|before|] == sv.live.history[0] == h[|before| + n];
  }

  function Opens(h: seq<Entry>): seq<Entry> {
    if h == [] then [] else (if IsOpen(h[0]) then [h[0]] else []) + Opens(h[1..])
  }

  lemma {:induction false} OpensAre(h: seq<Entry>)
    ensures SameOpen(Opens(h), h)
  {
    if h != [] {
      OpensAre(h[1..]);
      assert forall e :: e in h <==> e == h[0] || e in h[1..];
    }
  }

  function StateOf(sv: Server, callbacks: seq<Entry>, eventId: int, limit: int): PublicState
    requires limit >= 1
  {
    var page := HistoryPage(Public(sv), None, None, None, limit);
    PublicState(eventId, sv.sessionId, page.entries, page.before, callbacks, sv.turn)
  }

  function ViewOf(sv: Server, limit: int): View
    requires limit >= 1
  {
    var first := Back(|Public(sv)|, limit);
    View(first, Covered(Public(sv), first))
  }

  // ---- good order ----------------------------------------------------------

  ghost predicate OfSession(h: seq<Entry>, sessionId: string) {
    forall i :: 0 <= i < |h| ==> h[i].sessionId == sessionId
  }

  ghost predicate InOrder(sv: Server) {
    && Closed(sv.settled) && OfSession(sv.settled, sv.sessionId)
    && UniqueIds(Truth(sv))
    && LiveOk(sv.live) && sv.live.sessionId == sv.sessionId
    && (sv.turn.Some? ==> sv.turn.value.sessionId == sv.sessionId)
    && (sv.phase.Turning? || sv.phase.Doubled? ==> sv.turn.Some?)
  }

  lemma ClosedPrefix(a: seq<Entry>, b: seq<Entry>)
    requires Closed(a) && Closed(b)
    ensures Closed(a + b)
  {
  }

  lemma TruthIsSound(sv: Server)
    requires InOrder(sv)
    ensures Sound(Truth(sv))
  {
    hide Valid, Anchored;
    if sv.phase.Idle? || sv.phase.Doubled? {
    } else {
      SoundJoin(sv.settled, sv.live);
    }
  }

  /** Adopting a state taken from a history in good order. */
  lemma StateMirrors(sv: Server, callbacks: seq<Entry>, eventId: int, limit: int)
    requires InOrder(sv) && Public(sv) == Truth(sv) && limit >= 1
    requires SameOpen(callbacks, Public(sv))
    ensures Agrees(MirrorOf(StateOf(sv, callbacks, eventId, limit)), sv.sessionId, Truth(sv), sv.turn, ViewOf(sv,
        limit), eventId)
  {
    hide InOrder, Truth, HistoryPage, ById, Index;
    var h, first := Public(sv), Back(|Public(sv)|, limit);
    TruthIsSound(sv);
    LatestPage(h, limit);
    SuffixHas(h, first, "");
    IndexIsById(h[first..]);
    if Covered(h, first) {
      assert h[0..] == h;
      OpenNarrows(callbacks, h, first);
    }
  }

  lemma OpenNarrows(callbacks: seq<Entry>, h: seq<Entry>, first: nat)
    requires first <= |h| && Sound(h) && Covered(h, first) && SameOpen(callbacks, h)
    ensures SameOpen(callbacks, h[first..])
  {
    forall e ensures e in callbacks <==> e in h[first..] && IsOpen(e) {
      if e in h && IsOpen(e) {
        var i :| 0 <= i < |h| && h[i] == e;
        assert Tidy(h[i]);
        assert i >= first;
        assert h[first..][i - first] == e;
      }
      if e in h[first..] { assert e in h; }
    }
  }

  /** The open callbacks of the whole history are those of the live projector. */
  lemma LiveOpens(sv: Server)
    requires InOrder(sv) && sv.phase.Turning?
    ensures SameOpen(Opens(sv.live.history), Public(sv))
  {
    OpensAre(sv.live.history);
    forall e | e in sv.settled ensures !IsOpen(e) {
      var i :| 0 <= i < |sv.settled| && sv.settled[i] == e;
      assert Named(sv.settled[i]) && Tidy(sv.settled[i]);
    }
  }

  // ---- a new session id in the middle of a turn ----------------------------

  function RebindLive(s: State, sessionId: string): State {
    s.(sessionId := sessionId, history := Rebind(s.history, sessionId), entries := Index(Rebind(s.history, sessionId)))
  }

  function RebindTurn(t: Option<Turn>, sessionId: string): Option<Turn> {
    if t.None? then None else Some(t.value.(sessionId := sessionId))
  }

  function HandOver(sv: Server, sessionId: string): Server {
    Server(sessionId, Rebind(sv.settled, sessionId), sv.phase, RebindLive(sv.live, sessionId), RebindTurn(sv.turn,
        sessionId))
  }

  lemma RebindIs(h: seq<Entry>, sessionId: string)
    ensures |Rebind(h, sessionId)| == |h|
    ensures forall i :: 0 <= i < |h| ==> Rebind(h, sessionId)[i] == h[i].(sessionId := sessionId)
    ensures UniqueIds(h) ==> UniqueIds(Rebind(h, sessionId))
  {
  }

  lemma RebindJoin(a: seq<Entry>, b: seq<Entry>, sessionId: string)
    ensures Rebind(a + b, sessionId) == Rebind(a, sessionId) + Rebind(b, sessionId)
  {
  }

  lemma ReboundById(h: seq<Entry>, sessionId: string, id: string)
    requires UniqueIds(h)
    ensures id in ById(Rebind(h, sessionId)) <==> id in ById(h)
    ensures id in ById(h) ==> ById(Rebind(h, sessionId))[id] == ById(h)[id].(sessionId := sessionId)
  {
    var h' := Rebind(h, sessionId);
    RebindIs(h, sessionId);
    ByIdIs(h);
    ByIdIs(h');
    if Has(h, id) { assert h'[IndexOf(h, id)].id == id; IndexUnique(h', IndexOf(h, id)); }
    if Has(h', id) { assert h[IndexOf(h', id)].id == id; }
  }

  lemma RebindKeepsTracks(s: State, sessionId: string, texts: map<(Table, string), string>)
    requires Valid(s) && Tracks(s, texts)
    ensures Tracks(RebindLive(s, sessionId), texts)
  {
    hide ById;
    var s' := RebindLive(s, sessionId);
    RebindIs(s.history, sessionId);
    IndexIsById(s'.history);
    forall k | k in texts ensures s'.ids[k] in s'.entries && Holds(k.0, s'.entries[s'.ids[k]].body, texts[k]) {
      ReboundById(s.history, sessionId, s.ids[k]);
    }
  }

  lemma RebindKeepsValid(s: State, sessionId: string)
    requires Valid(s)
    ensures Valid(RebindLive(s, sessionId))
  {
    hide ById;
    var s' := RebindLive(s, sessionId);
    RebindIs(s.history, sessionId);
    IndexIsById(s'.history);
    forall i | 0 <= i < |s'.history| ensures EntryOk(s'.history[i], sessionId, s.turnId) {
      assert EntryOk(s.history[i], s.sessionId, s.turnId);
    }
  }

  lemma RebindKeepsLive(s: State, sessionId: string)
    requires LiveOk(s)
    ensures LiveOk(RebindLive(s, sessionId))
  {
    hide Tracks, Valid;
    RebindKeepsValid(s, sessionId);
    var texts :| Tracks(s, texts);
    RebindKeepsTracks(s, sessionId, texts);
    RebindIs(s.history, sessionId);
    forall i | 0 <= i < |s.history| ensures Tidy(Rebind(s.history, sessionId)[i]) { assert Tidy(s.history[i]); }
  }

  lemma HandOverKeepsOrder(sv: Server, sessionId: string)
    requires InOrder(sv)
    ensures InOrder(HandOver(sv, sessionId))
    ensures Truth(HandOver(sv, sessionId)) == Rebind(Truth(sv), sessionId)
  {
    hide LiveOk;
    RebindKeepsLive(sv.live, sessionId);
    RebindIs(sv.settled, sessionId);
    RebindJoin(sv.settled, sv.live.history, sessionId);
    RebindIs(Truth(sv), sessionId);
    forall i | 0 <= i < |sv.settled|
      ensures Named(Rebind(sv.settled, sessionId)[i]) && Tidy(Rebind(sv.settled, sessionId)[i])
              && (Rebind(sv.settled, sessionId)[i].body.Callback? ==> Rebind(sv.settled, sessionId)[i].status.Complete?)
    {
      assert Named(sv.settled[i]) && Tidy(sv.settled[i]);
    }
  }

  /** Main result: a patch of an entry opened before a handoff has the same
      effect on the entry as it stands after it, the new session id apart. */
  lemma PatchAfterRebind(e: Entry, sessionId: string, c: Change, now: int)
    requires WellTyped(e)
    ensures Patched(e.(sessionId := sessionId), Ops(c, now))
         == match Patched(e, Ops(c, now)) case None => None case Some(x) => Some(x.(sessionId := sessionId))
  {
    PatchMeansChange(e, c, now);
    PatchMeansChange(e.(sessionId := sessionId), c, now);
  }
}
