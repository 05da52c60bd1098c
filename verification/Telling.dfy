/** One action of a live projector, told to a mirror: the mirror of the history
    before it becomes a mirror of the history after it. */
module Telling {
  import opened Prelude
  import opened Entries
  import opened Changes
  import opened Projection
  import opened ProjectorFacts
  import opened ProjectorRuns
  import opened Client
  import opened Mirror

  // ---- callbacks are closed when complete ----------------------------------

  /** The streaming tables name messages and reasonings that exist. */
  ghost predicate Anchored(s: State) { exists texts :: Tracks(s, texts) }

  lemma FreshIsAnchored(sessionId: string, turnId: Option<string>, preview: string)
    ensures Anchored(Fresh(sessionId, turnId, preview))
  {
    FreshTracks(sessionId, turnId, preview);
  }

  lemma DoAnchored(s: State, c: Call)
    requires Valid(s) && Anchored(s) && Do(s, c).error.None?
    ensures Anchored(Do(s, c).state)
  {
    var texts :| Tracks(s, texts);
    DoTracks(s, texts, c);
  }

  lemma StreamedIsNoCallback(s: State, id: string)
    requires Anchored(s) && Streamed(s, id)
    ensures id in s.entries && !s.entries[id].body.Callback?
  {
    var texts :| Tracks(s, texts);
    var k :| k in s.ids && (k.0.Assistant? || k.0.Reasonings?) && s.ids[k] == id;
    assert k in texts;
  }

  /** A command never completes a callback without closing it. */
  predicate TidyCmd(s: State, c: Cmd) {
    && (c.Patch? && c.change.Finish? ==> c.id in s.entries ==> !s.entries[c.id].body.Callback?)
    && (c.Patch? && c.change.SettleCallback? ==> !c.change.callbackState.Open?)
    && (c.Create? ==> Tidy(c.entry))
  }

  lemma ChangedTidy(e: Entry, c: Change, now: int)
    requires Changed(e, c, now).Some? && Tidy(e) && e.status.InProgress?
    requires c.Finish? ==> !e.body.Callback?
    requires c.SettleCallback? ==> !c.callbackState.Open?
    ensures Tidy(Changed(e, c, now).value)
  {
  }

  lemma KindsStay(s: State, c: Cmd, id: string)
    requires Valid(s) && id in s.entries && Step(s, c).error.None?
    ensures id in Step(s, c).state.entries
    ensures Step(s, c).state.entries[id].body.Callback? <==> s.entries[id].body.Callback?
  {
    hide PatchIn, Changed, Valid;
    if c.Patch? {
      PatchStep(s, c.id, c.change, c.now);
      if c.id in s.entries && Changed(s.entries[c.id], c.change, c.now).Some? { KindKept(s.entries[c.id], c.change,
          c.now); }
    }
  }

  lemma StepTidy(s: State, c: Cmd)
    requires Valid(s) && AllTidy(s.history) && TidyCmd(s, c) && !c.CreateSilently? && Step(s, c).error.None?
    ensures AllTidy(Step(s, c).state.history)
  {
    hide PatchIn, Valid, Changed;
    if c.Patch? {
      PatchStep(s, c.id, c.change, c.now);
      ChangedTidy(s.entries[c.id], c.change, c.now);
    }
  }

  lemma HistoryIndexed(s: State)
    requires Valid(s)
    ensures forall i :: 0 <= i < |s.history| ==>
              s.history[i].id in s.entries && s.entries[s.history[i].id] == s.history[i]
  {
    forall i | 0 <= i < |s.history| ensures s.history[i].id in s.entries && s.entries[s.history[i].id] == s.history[i] {
      ByIdAt(s.history, i);
    }
  }

  lemma ShapedIsTidy(s: State, a: Action, c: Cmd)
    requires Valid(s) && Anchored(s) && Shaped(s, a, c)
    ensures TidyCmd(s, c) && (c.Patch? && c.change.Finish? ==> c.id in s.entries)
  {
    hide Valid, Anchored, Streamed;
    HistoryIndexed(s);
    if c.Patch? && c.change.Finish? {
      var i :| 0 <= i < |s.history| && s.history[i].id == c.id && (Streamed(s, c.id) || !s.history[i].body.Callback?);
      if Streamed(s, c.id) { StreamedIsNoCallback(s, c.id); }
    }
  }

  lemma CommandsTidy(s: State, a: Action, newId: string, now: int)
    requires Valid(s) && Anchored(s)
    ensures forall i :: 0 <= i < |Commands(s, a, newId, now)| ==> TidyCmd(s, Commands(s, a, newId, now)[i])
    ensures FinishesKnown(s, Commands(s, a, newId, now))
  {
    hide Commands, Valid, Anchored, Shaped, TidyCmd;
    var cs := Commands(s, a, newId, now);
    CommandsShaped(s, a, newId, now);
    forall i | 0 <= i < |cs|
      ensures TidyCmd(s, cs[i]) && (cs[i].Patch? && cs[i].change.Finish? ==> cs[i].id in s.entries)
    {
      assert Shaped(s, a, cs[i]);
      ShapedIsTidy(s, a, cs[i]);
    }
  }

  // ---- a whole action ------------------------------------------------------

  ghost predicate Ready(settled: seq<Entry>, s: State) {
    Closed(settled) && Valid(s) && AllTidy(s.history)
  }

  ghost predicate CmdsReady(s: State, cs: seq<Cmd>) {
    forall i :: 0 <= i < |cs| ==> CmdOk(s, cs[i]) && TidyCmd(s, cs[i]) && !cs[i].CreateSilently?
  }

  lemma TidyCmdStays(s: State, c: Cmd, d: Cmd)
    requires Valid(s) && Step(s, c).error.None? && TidyCmd(s, d)
    requires d.Patch? && d.change.Finish? ==> d.id in s.entries
    ensures TidyCmd(Step(s, c).state, d)
  {
    hide Step, Valid;
    if d.Patch? && d.change.Finish? { KindsStay(s, c, d.id); }
  }

  /** The patches that only finish an entry name entries that exist. */
  ghost predicate FinishesKnown(s: State, cs: seq<Cmd>) {
    forall i :: 0 <= i < |cs| && cs[i].Patch? && cs[i].change.Finish? ==> cs[i].id in s.entries
  }

  lemma CmdsStayReady(s: State, cs: seq<Cmd>)
    requires Valid(s) && cs != [] && CmdsReady(s, cs) && FinishesKnown(s, cs) && Step(s, cs[0]).error.None?
    ensures CmdsReady(Step(s, cs[0]).state, cs[1..]) && FinishesKnown(Step(s, cs[0]).state, cs[1..])
  {
    hide Step, Valid, TidyCmd;
    assert CmdOk(s, cs[0]);
    StepKeepsValid(s, cs[0]);
    var s1 := Step(s, cs[0]).state;
    forall i | 0 <= i < |cs[1..]|
      ensures CmdOk(s1, cs[1..][i]) && TidyCmd(s1, cs[1..][i]) && !cs[1..][i].CreateSilently?
      ensures cs[1..][i].Patch? && cs[1..][i].change.Finish? ==> cs[1..][i].id in s1.entries
    {
      var d := cs[i + 1];
      assert cs[1..][i] == d && CmdOk(s, d) && TidyCmd(s, d);
      TidyCmdStays(s, cs[0], d);
      if d.Patch? && d.change.Finish? { KindsStay(s, cs[0], d.id); }
    }
  }

  lemma {:induction false} ExecMirrored(settled: seq<Entry>, s: State, cs: seq<Cmd>,
                                        c: Client, turn: Option<Turn>, v: View, last: int)
    requires Ready(settled, s) && CmdsReady(s, cs) && FinishesKnown(s, cs)
    requires Exec(s, cs).error.None? && UniqueIds(settled + Exec(s, cs).state.history)
    requires last >= 0 && Agrees(c, s.sessionId, settled + s.history, turn, v, last)
    ensures Carries(c, last, Notes(Exec(s, cs).updates), s.sessionId, settled + Exec(s, cs).state.history, turn, v)
    decreases |cs|
  {
    hide Step, Valid, TidyCmd, CmdOk, Agrees, Carries, Closed, AllTidy, UniqueIds, CmdsReady, FinishesKnown, Grows;
    if cs == [] {
      assert Notes([]) == [];
      CarriesNothing(c, last, s.sessionId, settled + s.history, turn, v);
    } else {
      var first := Step(s, cs[0]);
      var s1, rest := first.state, Exec(first.state, cs[1..]);
      HeadReady(s, cs);
      RestGrows(s, cs);
      UniqueGrows(settled, s1.history, rest.state.history);
      UniqueGrows(settled, s.history, s1.history);
      StepMirrored(settled, s, cs[0], c, turn, v, last);
      StepKeepsValid(s, cs[0]);
      StepTidy(s, cs[0]);
      CmdsStayReady(s, cs);
      Arrives(c, last, Notes(first.updates), s.sessionId, settled + s1.history, turn, v);
      var c1 := Drain(c, Sequenced(last, Notes(first.updates))).value;
      ExecMirrored(settled, s1, cs[1..], c1, turn, v, last + |first.updates|);
      assert Notes(first.updates + rest.updates) == Notes(first.updates) + Notes(rest.updates);
      CarriesMore(c, last, Notes(first.updates), Notes(rest.updates), s.sessionId,
                  settled + s1.history, settled + rest.state.history, turn, v);
    }
  }

  lemma Arrives(c: Client, last: int, notes: seq<Note>, sessionId: string, h: seq<Entry>, turn: Option<Turn>, v: View)
    requires Carries(c, last, notes, sessionId, h, turn, v)
    ensures Drain(c, Sequenced(last, notes)).Ok?
    ensures Agrees(Drain(c, Sequenced(last, notes)).value, sessionId, h, turn, v, last + |notes|)
  {
  }

  lemma HeadReady(s: State, cs: seq<Cmd>)
    requires CmdsReady(s, cs) && cs != []
    ensures CmdOk(s, cs[0]) && TidyCmd(s, cs[0]) && !cs[0].CreateSilently?
  {
  }

  lemma RestGrows(s: State, cs: seq<Cmd>)
    requires Valid(s) && CmdsReady(s, cs) && FinishesKnown(s, cs) && cs != [] && Step(s, cs[0]).error.None?
    ensures var s1 := Step(s, cs[0]).state;
            Grows(s.history, s1.history) && Grows(s1.history, Exec(s1, cs[1..]).state.history)
  {
    hide Step, Valid, Grows, Exec;
    HeadReady(s, cs);
    StepGrows(s, cs[0]);
    StepKeepsValid(s, cs[0]);
    CmdsStayReady(s, cs);
    var s1 := Step(s, cs[0]).state;
    forall i | 0 <= i < |cs[1..]| ensures CmdOk(s1, cs[1..][i]) { }
    ExecGrows(s1, cs[1..]);
  }

  /** A live projector in good order. */
  ghost predicate LiveOk(s: State) { Valid(s) && Anchored(s) && AllTidy(s.history) }

  /** Main result: a mirror of the settled entries and a live projector's
      history takes the updates of any action that does not raise, in order and
      without refusing one, and then mirrors the history after the action.  The
      part it shows stays the part it had loaded. */
  lemma ActionMirrored(settled: seq<Entry>, s: State, a: Action, newId: string, now: int,
                       c: Client, turn: Option<Turn>, v: View, last: int)
    requires LiveOk(s) && Closed(settled) && !Unannounced(s, a)
    requires Project(s, a, newId, now).error.None?
    requires UniqueIds(settled + Project(s, a, newId, now).state.history)
    requires last >= 0 && Agrees(c, s.sessionId, settled + s.history, turn, v, last)
    ensures var o := Project(s, a, newId, now);
            Carries(c, last, Notes(o.updates), s.sessionId, settled + o.state.history, turn, v)
  {
    hide Valid, Anchored, AllTidy, Closed, Agrees, Carries, Exec, Commands, Unannounced, FinishesKnown, UniqueIds;
    ActionReady(s, a, newId, now);
    ExecMirrored(settled, s, Commands(s, a, newId, now), c, turn, v, last);
  }

  lemma ActionReady(s: State, a: Action, newId: string, now: int)
    requires Valid(s) && Anchored(s) && !Unannounced(s, a)
    ensures var cs := Commands(s, a, newId, now); CmdsReady(s, cs) && FinishesKnown(s, cs)
  {
    hide Valid, Anchored, Commands, Unannounced, FinishesKnown, TidyCmd;
    CommandsOk(s, a, newId, now);
    CommandsTidy(s, a, newId, now);
    NoSilentCreate(s, a, newId, now);
  }

  lemma {:induction false} ExecTidy(s: State, cs: seq<Cmd>)
    requires Valid(s) && AllTidy(s.history) && CmdsReady(s, cs) && FinishesKnown(s, cs) && Exec(s, cs).error.None?
    ensures AllTidy(Exec(s, cs).state.history)
    decreases |cs|
  {
    hide Step, Valid, TidyCmd, CmdOk, AllTidy, CmdsReady, FinishesKnown;
    if cs != [] {
      HeadReady(s, cs);
      StepKeepsValid(s, cs[0]);
      StepTidy(s, cs[0]);
      CmdsStayReady(s, cs);
      ExecTidy(Step(s, cs[0]).state, cs[1..]);
    }
  }

  lemma ActionKeepsLive(s: State, a: Action, newId: string, now: int)
    requires LiveOk(s) && !Unannounced(s, a) && Project(s, a, newId, now).error.None?
    ensures var o := Project(s, a, newId, now);
            LiveOk(o.state) && o.state.sessionId == s.sessionId && o.state.turnId == s.turnId
            && Grows(s.history, o.state.history)
  {
    hide Valid, Anchored, AllTidy, Exec, Commands, Unannounced, FinishesKnown, CmdsReady, Grows;
    ActionReady(s, a, newId, now);
    ExecTidy(s, Commands(s, a, newId, now));
    DoKeeps(s, Call(a, newId, now));
    DoAnchored(s, Call(a, newId, now));
  }
}
