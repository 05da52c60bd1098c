/** What concurrent tasks of one session may do to each other's notes: which may
    be numbered out of the order of projection, and when an injection may
    overlap a turn. */
module Interleavings {
  import opened Prelude
  import opened Entries
  import opened Changes
  import opened Projection
  import opened ProjectorFacts
  import opened Client
  import opened Mirror

  // ---- what a client makes of one update -----------------------------------

  datatype Edit = Adds(entry: Entry) | Alters(id: string, change: Change, now: int)

  function NoteFor(sessionId: string, x: Edit): Note {
    match x
    case Adds(e) => EntryAdded(sessionId, e)
    case Alters(id, change, now) => EntryUpdated(sessionId, id, Ops(change, now))
  }

  /** A known entry is not added again, a complete one not altered, an unknown
      one passed over. */
  function Edited(t: seq<Entry>, x: Edit): Option<seq<Entry>> {
    match x
    case Adds(e) => if Has(t, e.id) then None else Some(t + [e])
    case Alters(id, change, now) =>
      if !Has(t, id) then Some(t)
      else
        var i := IndexOf(t, id);
        if t[i].status.Complete? then None
        else match Changed(t[i], change, now) case None => None case Some(e) => Some(t[i := e])
  }

  function EditedAll(t: seq<Entry>, xs: seq<Edit>): Option<seq<Entry>>
    decreases |xs|
  {
    if xs == [] then Some(t)
    else match Edited(t, xs[0]) case None => None case Some(t') => EditedAll(t', xs[1..])
  }

  ghost predicate AllTyped(t: seq<Entry>) { forall i :: 0 <= i < |t| ==> WellTyped(t[i]) }

  predicate Typed(x: Edit) { x.Adds? ==> WellTyped(x.entry) }

  ghost predicate Shows(c: Client, t: seq<Entry>, sessionId: string, last: int) {
    && c.state.history == t && c.entries == ById(t) && UniqueIds(t) && AllTyped(t)
    && c.state.sessionId == sessionId && c.lastEventId == last
  }

  lemma AlteredShows(c: Client, t: seq<Entry>, x: Edit, last: int)
    requires Shows(c, t, c.state.sessionId, last) && x.Alters?
    ensures var r := UpdateEntry(c, x.id, Ops(x.change, x.now));
            && (r.Ok? <==> Edited(t, x).Some?)
            && (r.Ok? ==> Shows(r.value.client, Edited(t, x).value, c.state.sessionId, last))
  {
    hide Changed, Patched, ById, CallbacksAfter;
    ByIdIs(t);
    if Has(t, x.id) {
      var i := IndexOf(t, x.id);
      PatchMeansChange(t[i], x.change, x.now);
      if Changed(t[i], x.change, x.now).Some? {
        var e := Changed(t[i], x.change, x.now).value;
        ChangedKeeps(t[i], x.change, x.now);
        UniqueUpdate(t, i, e);
        ByIdUpdate(t, i, e);
      }
    }
  }

  lemma AddedShows(c: Client, t: seq<Entry>, e: Entry, last: int)
    requires Shows(c, t, c.state.sessionId, last) && WellTyped(e)
    ensures var r := AddEntry(c, e);
            && (r.Ok? <==> !Has(t, e.id))
            && (r.Ok? ==> Shows(r.value, t + [e], c.state.sessionId, last))
  {
    hide ById;
    ByIdIs(t);
    if !Has(t, e.id) {
      UniqueAppend(t, e);
      ByIdAppend(t, e);
    }
  }

  /** The client's next event is what the edit does to what it shows. */
  lemma EditShows(c: Client, t: seq<Entry>, x: Edit, sessionId: string, last: int)
    requires Shows(c, t, sessionId, last) && Typed(x) && last >= 0
    ensures var r := Drain(c, Sequenced(last, [NoteFor(sessionId, x)]));
            && (r.Ok? <==> Edited(t, x).Some?)
            && (r.Ok? ==> Shows(r.value, Edited(t, x).value, sessionId, last + 1))
  {
    hide Edited, AddEntry, UpdateEntry, ById, Shows;
    NextNote(c, last, NoteFor(sessionId, x)) by { Session(c, t, sessionId, last); }
    Session(c, t, sessionId, last);
    match x {
      case Adds(e) =>
        AddedShows(c, t, e, last);
        AddIs(t, e);
        if AddEntry(c, e).Ok? { Renumbered(AddEntry(c, e).value, t + [e], sessionId, last); }
      case Alters(id, change, now) =>
        AlteredShows(c, t, x, last);
        var r := UpdateEntry(c, id, Ops(change, now));
        if r.Ok? { Renumbered(r.value.client, Edited(t, x).value, sessionId, last); }
    }
  }

  lemma AddIs(t: seq<Entry>, e: Entry)
    ensures Edited(t, Adds(e)) == if Has(t, e.id) then None else Some(t + [e])
  {
  }

  lemma Session(c: Client, t: seq<Entry>, sessionId: string, last: int)
    requires Shows(c, t, sessionId, last)
    ensures c.state.sessionId == sessionId && c.lastEventId == last
  {
  }

  lemma Renumbered(c: Client, t: seq<Entry>, sessionId: string, last: int)
    requires Shows(c, t, sessionId, last)
    ensures Shows(c.(lastEventId := last + 1), t, sessionId, last + 1)
  {
  }

  function NotesFor(sessionId: string, xs: seq<Edit>): seq<Note> {
    seq(|xs|, i requires 0 <= i < |xs| => NoteFor(sessionId, xs[i]))
  }

  lemma {:induction false} EditsShow(c: Client, t: seq<Entry>, xs: seq<Edit>, sessionId: string, last: int)
    requires Shows(c, t, sessionId, last) && last >= 0
    requires forall i :: 0 <= i < |xs| ==> Typed(xs[i])
    ensures var r := Drain(c, Sequenced(last, NotesFor(sessionId, xs)));
            && (r.Ok? <==> EditedAll(t, xs).Some?)
            && (r.Ok? ==> Shows(r.value, EditedAll(t, xs).value, sessionId, last + |xs|))
    decreases |xs|
  {
    hide Shows, Edited, NoteFor;
    if xs != [] {
      var n, rest := NoteFor(sessionId, xs[0]), NotesFor(sessionId, xs[1..]);
      EditShows(c, t, xs[0], sessionId, last);
      assert NotesFor(sessionId, xs) == [n] + rest;
      SequencedConcat(last, [n], rest);
      DrainConcat(c, Sequenced(last, [n]), Sequenced(last + 1, rest));
      if Edited(t, xs[0]).Some? {
        EditsShow(Drain(c, Sequenced(last, [n])).value, Edited(t, xs[0]).value, xs[1..], sessionId, last + 1);
      }
    }
  }

  // ---- two notes numbered the other way round ------------------------------

  /** Two changes of one entry that give the same in both orders. */
  predicate Commute(e: Entry, x: Edit, y: Edit)
    requires x.Alters? && y.Alters?
  {
    var first, other := Changed(e, x.change, x.now), Changed(e, y.change, y.now);
    && first.Some? && other.Some? && other.value.status.InProgress?
    && Changed(other.value, x.change, x.now) == Changed(first.value, y.change, y.now)
  }

  predicate Harmless(t: seq<Entry>, x: Edit, y: Edit) {
    match (x, y)
    case (Adds(_), Adds(_)) => false
    case (Adds(e), Alters(id, change, now)) => id != e.id || Changed(e, change, now) == Some(e)
    case (Alters(id, change, now), Adds(e)) =>
      id != e.id || (e.status.InProgress? && Changed(e, change, now) == Some(e))
    case (Alters(a, _, _), Alters(b, _, _)) => a != b || !Has(t, a) || Commute(t[IndexOf(t, a)], x, y)
  }

  function Then(t: seq<Entry>, x: Edit, y: Edit): Option<seq<Entry>> {
    match Edited(t, x) case None => None case Some(t') => Edited(t', y)
  }

  lemma AddsDiffer(t: seq<Entry>, e: Entry, f: Entry)
    requires Then(t, Adds(e), Adds(f)).Some?
    ensures Then(t, Adds(f), Adds(e)) != Then(t, Adds(e), Adds(f))
  {
    HasAppend(t, e, f.id);
    assert (t + [e] + [f])[|t|] == e && (t + [f] + [e])[|t|] == f;
  }

  /** An alteration before or after an entry is added. */
  lemma AlterAdd(t: seq<Entry>, x: Edit, e: Entry)
    requires x.Alters? && UniqueIds(t) && !Has(t, e.id)
    ensures x.id != e.id ==> Then(t, x, Adds(e)) == Then(t, Adds(e), x)
    ensures x.id == e.id ==> Then(t, x, Adds(e)) == Some(t + [e])
    ensures x.id == e.id && (e.status.Complete? || Changed(e, x.change, x.now).None?) ==> Then(t, Adds(e), x) == None
    ensures x.id == e.id && e.status.InProgress? && Changed(e, x.change, x.now).Some? ==>
              Then(t, Adds(e), x) == Some(t + [Changed(e, x.change, x.now).value])
  {
    hide Changed;
    UniqueAppend(t, e);
    HasAppend(t, e, x.id);
    if x.id == e.id {
      IndexUnique(t + [e], |t|);
      assert forall f :: (t + [e])[|t| := f] == t + [f];
    } else if Has(t, x.id) {
      var i := IndexOf(t, x.id);
      IndexUnique(t + [e], i);
      if Changed(t[i], x.change, x.now).Some? {
        var f := Changed(t[i], x.change, x.now).value;
        assert (t + [e])[i := f] == t[i := f] + [e];
        assert f.id == t[i].id by { SameId(t[i], x); }
        UniqueUpdate(t, i, f);
      }
    }
  }

  lemma SameId(e: Entry, x: Edit)
    requires x.Alters? && Changed(e, x.change, x.now).Some?
    ensures Changed(e, x.change, x.now).value.id == e.id
  {
  }

  lemma AlterOther(t: seq<Entry>, x: Edit, id: string)
    requires x.Alters? && UniqueIds(t) && Edited(t, x).Some? && id != x.id
    ensures var t' := Edited(t, x).value;
            && UniqueIds(t') && |t'| == |t| && (Has(t', id) <==> Has(t, id))
            && (Has(t, id) ==> IndexOf(t', id) == IndexOf(t, id) && t'[IndexOf(t, id)] == t[IndexOf(t, id)])
  {
    hide Changed;
    if Has(t, x.id) {
      var i := IndexOf(t, x.id);
      SameId(t[i], x);
      UniqueUpdate(t, i, Changed(t[i], x.change, x.now).value);
      if Has(t, id) { IndexUnique(Edited(t, x).value, IndexOf(t, id)); }
    }
  }

  lemma AltersApart(t: seq<Entry>, x: Edit, y: Edit)
    requires x.Alters? && y.Alters? && UniqueIds(t) && x.id != y.id && Then(t, x, y).Some?
    ensures Then(t, y, x) == Then(t, x, y)
  {
    hide Changed;
    AlterOther(t, x, y.id);
    if Edited(t, y).Some? {
      AlterOther(t, y, x.id);
      if Has(t, x.id) && Has(t, y.id) {
        var i, j := IndexOf(t, x.id), IndexOf(t, y.id);
        var e, f := Changed(t[i], x.change, x.now).value, Changed(t[j], y.change, y.now).value;
        assert t[i := e][j := f] == t[j := f][i := e];
      }
    }
  }

  lemma AltersOfOne(t: seq<Entry>, x: Edit, y: Edit)
    requires x.Alters? && y.Alters? && UniqueIds(t) && x.id == y.id && Then(t, x, y).Some?
    ensures Then(t, y, x) == Then(t, x, y) <==> !Has(t, x.id) || Commute(t[IndexOf(t, x.id)], x, y)
  {
    hide Changed;
    if Has(t, x.id) {
      var i := IndexOf(t, x.id);
      var e, f := Changed(t[i], x.change, x.now), Changed(t[i], y.change, y.now);
      SameId(t[i], x);
      UniqueUpdate(t, i, e.value);
      IndexUnique(t[i := e.value], i);
      var both := Changed(e.value, y.change, y.now).value;
      assert t[i := e.value][i := both] == t[i := both];
      if f.Some? {
        SameId(t[i], y);
        UniqueUpdate(t, i, f.value);
        IndexUnique(t[i := f.value], i);
        var back := Changed(f.value, x.change, x.now);
        if back.Some? {
          assert t[i := f.value][i := back.value] == t[i := back.value];
          assert t[i := back.value][i] == back.value && t[i := both][i] == both;
        }
      }
    }
  }

  lemma SwapIff(t: seq<Entry>, x: Edit, y: Edit)
    requires UniqueIds(t) && Then(t, x, y).Some?
    ensures Then(t, y, x) == Then(t, x, y) <==> Harmless(t, x, y)
  {
    hide Changed, Commute;
    match (x, y) {
      case (Adds(e), Adds(f)) => AddsDiffer(t, e, f);
      case (Adds(e), Alters(_, _, _)) =>
        AlterAdd(t, y, e);
        if y.id == e.id { LastOf(t, e, Changed(e, y.change, y.now).value); }
      case (Alters(_, _, _), Adds(e)) =>
        if Has(t, x.id) { AlterOtherHas(t, x, e.id); }
        AlterAdd(t, x, e);
        if x.id == e.id && Changed(e, x.change, x.now).Some? { LastOf(t, e, Changed(e, x.change, x.now).value); }
      case (Alters(_, _, _), Alters(_, _, _)) =>
        if x.id == y.id { AltersOfOne(t, x, y); } else { AltersApart(t, x, y); }
    }
  }

  lemma LastOf(t: seq<Entry>, e: Entry, f: Entry)
    ensures t + [e] == t + [f] <==> e == f
  {
    assert (t + [e])[|t|] == e && (t + [f])[|t|] == f;
  }

  /** Altering neither adds nor removes an id. */
  lemma AlterOtherHas(t: seq<Entry>, x: Edit, id: string)
    requires x.Alters? && UniqueIds(t) && Edited(t, x).Some? && Has(t, x.id)
    ensures Has(Edited(t, x).value, id) <==> Has(t, id)
  {
    hide Changed;
    var i := IndexOf(t, x.id);
    SameId(t[i], x);
    UniqueUpdate(t, i, Changed(t[i], x.change, x.now).value);
  }

  /** Main result: two notes projected one after the other, but numbered the other
      way round, are taken and leave the client with what the server has if and
      only if they do each other no harm: two added entries always do, an
      addition and a later change of that entry unless the change is empty, and
      two changes of one entry unless they commute. */
  lemma SwappedNumbers(c: Client, t: seq<Entry>, x: Edit, y: Edit, sessionId: string, last: int)
    requires Shows(c, t, sessionId, last) && Typed(x) && Typed(y) && last >= 0 && Then(t, x, y).Some?
    ensures var r := Drain(c, Sequenced(last, NotesFor(sessionId, [x, y])));
            r.Ok? && r.value.state.history == Then(t, x, y).value
    ensures var r := Drain(c, Sequenced(last, NotesFor(sessionId, [y, x])));
            r.Ok? && r.value.state.history == Then(t, x, y).value <==> Harmless(t, x, y)
  {
    hide Edited, Harmless, ById;
    PairIs(t, x, y);
    PairIs(t, y, x);
    EditsShow(c, t, [x, y], sessionId, last);
    EditsShow(c, t, [y, x], sessionId, last);
    SwapIff(t, x, y);
  }

  lemma PairIs(t: seq<Entry>, x: Edit, y: Edit)
    ensures EditedAll(t, [x, y]) == Then(t, x, y)
  {
    hide Edited;
    assert [x, y][1..] == [y] && [y][1..] == [];
    match Edited(t, x) {
      case None =>
      case Some(t1) => assert EditedAll(t1, [y]) == Edited(t1, y);
    }
  }

  /** An answer that lands between the two notes of the callback being opened
      leaves the client's effect blocked, though the server's runs on. */
  lemma AnswerInsideOpening(t: seq<Entry>, i: nat, callbackId: string, output: string, now: int, later: int)
    requires UniqueIds(t) && i < |t| && t[i].body.Effect? && t[i].status.InProgress?
    ensures var block := Alters(t[i].id, EffectTo(Blocked(callbackId, "")), now);
            var resume := Alters(t[i].id, EffectTo(Running(output)), later);
            && Then(t, block, resume).Some? && Then(t, block, resume).value[i].body.state == Running(output)
            && Then(t, resume, block).Some? && Then(t, resume, block).value[i].body.state == Blocked(callbackId, "")
            && !Harmless(t, block, resume)
  {
    var block := Alters(t[i].id, EffectTo(Blocked(callbackId, "")), now);
    var resume := Alters(t[i].id, EffectTo(Running(output)), later);
    IndexUnique(t, i);
    var b, r := Changed(t[i], block.change, now).value, Changed(t[i], resume.change, later).value;
    UniqueUpdate(t, i, b);
    UniqueUpdate(t, i, r);
    IndexUnique(t[i := b], i);
    IndexUnique(t[i := r], i);
  }

  // ---- one note overtaking many --------------------------------------------

  function About(x: Edit): string { if x.Adds? then x.entry.id else x.id }

  /** About different entries, and not both additions. */
  predicate Apart(x: Edit, y: Edit) { About(x) != About(y) && !(x.Adds? && y.Adds?) }

  lemma EditKeepsUnique(t: seq<Entry>, x: Edit)
    requires UniqueIds(t) && Edited(t, x).Some?
    ensures UniqueIds(Edited(t, x).value)
  {
    hide Changed;
    if x.Adds? {
      UniqueAppend(t, x.entry);
    } else if Has(t, x.id) {
      SameId(t[IndexOf(t, x.id)], x);
      UniqueUpdate(t, IndexOf(t, x.id), Changed(t[IndexOf(t, x.id)], x.change, x.now).value);
    }
  }

  /** A note may overtake any number of notes it is apart from. */
  lemma {:induction false} ApartOvertakes(t: seq<Entry>, xs: seq<Edit>, y: Edit)
    requires UniqueIds(t) && EditedAll(t, xs + [y]).Some?
    requires forall i :: 0 <= i < |xs| ==> Apart(xs[i], y)
    ensures EditedAll(t, [y] + xs) == EditedAll(t, xs + [y])
    decreases |xs|
  {
    hide Edited, Harmless;
    if xs == [] {
      assert [] + [y] == [y] + [];
    } else {
      var x, rest := xs[0], xs[1..];
      assert (xs + [y])[0] == x && (xs + [y])[1..] == rest + [y];
      assert ([y] + xs)[0] == y && ([y] + xs)[1..] == xs;
      var t1 := Edited(t, x).value;
      EditKeepsUnique(t, x);
      ApartOvertakes(t1, rest, y);
      assert ([y] + rest)[0] == y && ([y] + rest)[1..] == rest;
      assert Apart(xs[0], y);
      ApartHarmless(t, x, y);
      SwapIff(t, x, y);
    }
  }

  lemma ApartHarmless(t: seq<Entry>, x: Edit, y: Edit)
    requires Apart(x, y)
    ensures Harmless(t, x, y)
  {
  }

  // ---- two tasks with projectors of their own ------------------------------

  /** What is told of two tasks that run at once, each with its own projector: an
      injection and a turn, two injections, an injection and a shell command. */
  datatype Said = Said(mine: bool, edit: Edit)

  function Edits(w: seq<Said>): seq<Edit> { seq(|w|, i requires 0 <= i < |w| => w[i].edit) }

  function Of(w: seq<Said>, mine: bool): seq<Edit> {
    if w == [] then []
    else Of(w[..|w| - 1], mine) + (if w[|w| - 1].mine == mine then [w[|w| - 1].edit] else [])
  }

  /** Whose the added entries are, in the order they were announced. */
  function Owners(w: seq<Said>): seq<bool> {
    if w == [] then []
    else Owners(w[..|w| - 1]) + (if w[|w| - 1].edit.Adds? then [w[|w| - 1].mine] else [])
  }

  /** Each task adds entries with new ids, and alters entries it has itself. */
  predicate Apiece(h: seq<Entry>, w: seq<Said>) {
    w != [] ==>
      var before, x := w[..|w| - 1], w[|w| - 1];
      && Apiece(h, before)
      && Typed(x.edit)
      && match EditedAll([], Of(before, x.mine))
         case None => false
         case Some(own) =>
           && Edited(own, x.edit).Some?
           && (x.edit.Alters? ==> Has(own, x.edit.id))
           && (x.edit.Adds? ==> !Has(h, x.edit.entry.id)
                                && forall i :: 0 <= i < |before| && before[i].edit.Adds? ==>
                                     before[i].edit.entry.id != x.edit.entry.id)
  }

  lemma {:induction false} EditedAppend(t: seq<Entry>, xs: seq<Edit>, y: Edit)
    ensures EditedAll(t, xs + [y]) == match EditedAll(t, xs) case None => None case Some(t') => Edited(t', y)
    decreases |xs|
  {
    hide Edited;
    if xs == [] {
      assert [] + [y] == [y] && [y][1..] == [];
      match Edited(t, y) { case None => case Some(t1) => assert EditedAll(t1, []) == Some(t1); }
    } else {
      assert (xs + [y])[0] == xs[0] && (xs + [y])[1..] == xs[1..] + [y];
      match Edited(t, xs[0]) { case None => case Some(t1) => EditedAppend(t1, xs[1..], y); }
    }
  }

  /** Two lists woven into one. */
  function Weave(owners: seq<bool>, a: seq<Entry>, b: seq<Entry>): seq<Entry> {
    if owners == [] then []
    else
      var front, mine := owners[..|owners| - 1], owners[|owners| - 1];
      if mine then
        if a == [] then [] else Weave(front, a[..|a| - 1], b) + [a[|a| - 1]]
      else if b == [] then []
      else Weave(front, a, b[..|b| - 1]) + [b[|b| - 1]]
  }

  function Count(owners: seq<bool>, mine: bool): nat {
    if owners == [] then 0
    else Count(owners[..|owners| - 1], mine) + (if owners[|owners| - 1] == mine then 1 else 0)
  }

  predicate Fits(owners: seq<bool>, a: seq<Entry>, b: seq<Entry>) {
    |a| == Count(owners, true) && |b| == Count(owners, false)
  }

  lemma {:induction false} WeaveLength(owners: seq<bool>, a: seq<Entry>, b: seq<Entry>)
    requires Fits(owners, a, b)
    ensures |Weave(owners, a, b)| == |owners| == |a| + |b|
  {
    if owners != [] {
      var front := owners[..|owners| - 1];
      if owners[|owners| - 1] { WeaveLength(front, a[..|a| - 1], b); } else { WeaveLength(front, a, b[..|b| - 1]); }
    }
  }

  lemma WeaveAppend(owners: seq<bool>, a: seq<Entry>, b: seq<Entry>, e: Entry)
    requires Fits(owners, a, b)
    ensures Weave(owners + [true], a + [e], b) == Weave(owners, a, b) + [e]
    ensures Weave(owners + [false], a, b + [e]) == Weave(owners, a, b) + [e]
    ensures Fits(owners + [true], a + [e], b) && Fits(owners + [false], a, b + [e])
  {
    assert (owners + [true])[..|owners|] == owners && (owners + [false])[..|owners|] == owners;
    assert (a + [e])[..|a|] == a && (b + [e])[..|b|] == b;
  }

  /** The last entry of a weave, and the rest. */
  lemma WeaveLast(owners: seq<bool>, a: seq<Entry>, b: seq<Entry>)
    requires Fits(owners, a, b) && owners != []
    ensures var front := owners[..|owners| - 1];
            if owners[|owners| - 1] then
              a != [] && owners == front + [true] && a == a[..|a| - 1] + [a[|a| - 1]] && Fits(front, a[..|a| - 1], b)
            else
              b != [] && owners == front + [false] && b == b[..|b| - 1] + [b[|b| - 1]] && Fits(front, a, b[..|b| - 1])
  {
  }

  /** Where an entry of the first list goes, and that replacing it there is
      replacing it in the list. */
  lemma {:induction false} WeaveAtMine(owners: seq<bool>, a: seq<Entry>, b: seq<Entry>, i: nat, e: Entry)
    returns (k: nat)
    requires Fits(owners, a, b) && i < |a|
    ensures var w := Weave(owners, a, b);
            k < |w| && w[k] == a[i] && Weave(owners, a[i := e], b) == w[k := e]
    decreases |owners|
  {
    hide Weave, Fits;
    assert owners != [] by { FitsNothing(owners, a, b); }
    WeaveLength(owners, a, b);
    WeaveLast(owners, a, b);
    var front := owners[..|owners| - 1];
    if owners[|owners| - 1] {
      var a', x := a[..|a| - 1], a[|a| - 1];
      WeaveAppend(front, a', b, x);
      WeaveLength(front, a', b);
      if i == |a| - 1 {
        k := |front|;
        assert a[i := e] == a' + [e];
        WeaveAppend(front, a', b, e);
      } else {
        k := WeaveAtMine(front, a', b, i, e);
        assert a[i := e] == a'[i := e] + [x];
        FitsUpdated(front, a', b, i, e);
        WeaveAppend(front, a'[i := e], b, x);
      }
    } else {
      var b', x := b[..|b| - 1], b[|b| - 1];
      WeaveAppend(front, a, b', x);
      k := WeaveAtMine(front, a, b', i, e);
      FitsUpdated(front, a, b', i, e);
      WeaveAppend(front, a[i := e], b', x);
    }
  }

  lemma FitsNothing(owners: seq<bool>, a: seq<Entry>, b: seq<Entry>)
    requires Fits(owners, a, b)
    ensures owners == [] ==> a == []
  {
  }

  lemma FitsUpdated(owners: seq<bool>, a: seq<Entry>, b: seq<Entry>, i: nat, e: Entry)
    requires Fits(owners, a, b) && i < |a|
    ensures Fits(owners, a[i := e], b)
  {
  }

  function Flipped(owners: seq<bool>): seq<bool> { seq(|owners|, i requires 0 <= i < |owners| => !owners[i]) }

  /** The two lists change places. */
  lemma {:induction false} WeaveFlipped(owners: seq<bool>, a: seq<Entry>, b: seq<Entry>)
    requires Fits(owners, a, b)
    ensures Fits(Flipped(owners), b, a) && Weave(Flipped(owners), b, a) == Weave(owners, a, b)
    decreases |owners|
  {
    hide Weave;
    if owners == [] {
      WeaveNothing();
    } else {
      WeaveLast(owners, a, b);
      var front := owners[..|owners| - 1];
      if owners[|owners| - 1] {
        assert Flipped(owners) == Flipped(front) + [false];
        WeaveFlipped(front, a[..|a| - 1], b);
        WeaveAppend(front, a[..|a| - 1], b, a[|a| - 1]);
        WeaveAppend(Flipped(front), b, a[..|a| - 1], a[|a| - 1]);
      } else {
        assert Flipped(owners) == Flipped(front) + [true];
        WeaveFlipped(front, a, b[..|b| - 1]);
        WeaveAppend(front, a, b[..|b| - 1], b[|b| - 1]);
        WeaveAppend(Flipped(front), b[..|b| - 1], a, b[|b| - 1]);
      }
    }
  }

  lemma WeaveNothing()
    ensures Weave([], [], []) == [] && Flipped([]) == []
  {
  }

  lemma WeaveAt(owners: seq<bool>, a: seq<Entry>, b: seq<Entry>, mine: bool, i: nat, e: Entry) returns (k: nat)
    requires Fits(owners, a, b) && i < (if mine then |a| else |b|)
    ensures var w := Weave(owners, a, b);
            && k < |w| && w[k] == (if mine then a[i] else b[i])
            && (mine ==> Weave(owners, a[i := e], b) == w[k := e])
            && (!mine ==> Weave(owners, a, b[i := e]) == w[k := e])
  {
    hide Weave;
    if mine {
      k := WeaveAtMine(owners, a, b, i, e);
    } else {
      WeaveFlipped(owners, a, b);
      k := WeaveAtMine(Flipped(owners), b, a, i, e);
      WeaveFlipped(owners, a, b[i := e]);
    }
  }

  lemma {:induction false} AllUnique(t: seq<Entry>, xs: seq<Edit>)
    requires UniqueIds(t) && EditedAll(t, xs).Some?
    ensures UniqueIds(EditedAll(t, xs).value)
    decreases |xs|
  {
    hide Edited;
    if xs != [] {
      EditKeepsUnique(t, xs[0]);
      AllUnique(Edited(t, xs[0]).value, xs[1..]);
    }
  }

  /** One more thing said, of entries the teller has itself. */
  lemma AlteredInside(h: seq<Entry>, owners: seq<bool>, a: seq<Entry>, b: seq<Entry>, mine: bool, x: Edit)
    requires x.Alters? && Fits(owners, a, b) && UniqueIds(h + Weave(owners, a, b))
    requires var own := if mine then a else b; UniqueIds(own) && Has(own, x.id) && Edited(own, x).Some?
    ensures var own' := Edited(if mine then a else b, x).value;
            && |own'| == |if mine then a else b|
            && Edited(h + Weave(owners, a, b), x)
               == Some(h + (if mine then Weave(owners, own', b) else Weave(owners, a, own')))
  {
    hide Changed, Weave, UniqueIds, Fits;
    var own := if mine then a else b;
    var i := IndexOf(own, x.id);
    var e := Changed(own[i], x.change, x.now).value;
    var k := WeaveAt(owners, a, b, mine, i, e);
    var all := h + Weave(owners, a, b);
    assert all[|h| + k].id == x.id;
    IndexUnique(all, |h| + k);
    assert all[|h| + k := e] == h + Weave(owners, a, b)[k := e];
  }

  lemma {:induction false} Merged(h: seq<Entry>, w: seq<Said>)
    requires UniqueIds(h) && Apiece(h, w)
    ensures EditedAll([], Of(w, true)).Some? && EditedAll([], Of(w, false)).Some?
    ensures var a, b := EditedAll([], Of(w, true)).value, EditedAll([], Of(w, false)).value;
            && Fits(Owners(w), a, b)
            && EditedAll(h, Edits(w)) == Some(h + Weave(Owners(w), a, b))
    decreases |w|
  {
    hide Edited, Weave, Fits, UniqueIds;
    if w == [] {
      assert h + [] == h;
      NothingFits(h);
    } else {
      var before, x := w[..|w| - 1], w[|w| - 1];
      Merged(h, before);
      var a, b := EditedAll([], Of(before, true)).value, EditedAll([], Of(before, false)).value;
      assert Edits(w) == Edits(before) + [x.edit];
      EditedAppend(h, Edits(before), x.edit);
      EditedAppend([], Of(before, x.mine), x.edit);
      assert Of(before, !x.mine) + [] == Of(before, !x.mine);
      AllUnique(h, Edits(before));
      AllUnique([], Of(before, x.mine)) by { NoIds(); }
      MergedStep(h, before, x, a, b);
    }
  }

  lemma NoIds()
    ensures UniqueIds([])
  {
  }

  lemma NothingFits(h: seq<Entry>)
    ensures Fits([], [], []) && Weave([], [], []) == []
  {
  }

  lemma MergedStep(h: seq<Entry>, before: seq<Said>, x: Said, a: seq<Entry>, b: seq<Entry>)
    requires UniqueIds(h) && Fits(Owners(before), a, b) && UniqueIds(if x.mine then a else b)
    requires EditedAll(h, Edits(before)) == Some(h + Weave(Owners(before), a, b))
    requires UniqueIds(h + Weave(Owners(before), a, b))
    requires Edited(if x.mine then a else b, x.edit).Some?
    requires x.edit.Alters? ==> Has(if x.mine then a else b, x.edit.id)
    requires x.edit.Adds? ==> !Has(h, x.edit.entry.id) && forall i :: 0 <= i < |before| && before[i].edit.Adds? ==>
                                before[i].edit.entry.id != x.edit.entry.id
    ensures var own' := Edited(if x.mine then a else b, x.edit).value;
            var a', b' := if x.mine then own' else a, if x.mine then b else own';
            var owners := Owners(before) + (if x.edit.Adds? then [x.mine] else []);
            && Fits(owners, a', b')
            && Edited(h + Weave(Owners(before), a, b), x.edit) == Some(h + Weave(owners, a', b'))
  {
    hide Weave, UniqueIds, Changed;
    var owners, t := Owners(before), h + Weave(Owners(before), a, b);
    if x.edit.Adds? {
      var e := x.edit.entry;
      NeverShown(h, Edits(before), e.id);
      assert !Has(t, e.id);
      WeaveAppend(owners, a, b, e);
      assert t + [e] == h + (Weave(owners, a, b) + [e]);
    } else {
      assert owners + [] == owners;
      AlteredInside(h, owners, a, b, x.mine, x.edit);
    }
  }

  // ---- the order the server settles them in --------------------------------

  /** Nothing of the first comes after something of the other. */
  predicate Separate(owners: seq<bool>, first: bool) {
    forall i, j :: 0 <= i < j < |owners| && owners[i] != first ==> owners[j] != first
  }

  function Pick(a: seq<Entry>, b: seq<Entry>, mine: bool): seq<Entry> { if mine then a else b }

  lemma {:induction false} WeaveIn(owners: seq<bool>, a: seq<Entry>, b: seq<Entry>, k: nat)
    requires Fits(owners, a, b) && k < |owners|
    ensures |Weave(owners, a, b)| == |owners| && Weave(owners, a, b)[k] in Pick(a, b, owners[k])
  {
    WeaveLength(owners, a, b);
    var front := owners[..|owners| - 1];
    var a', b' := if owners[|owners| - 1] then a[..|a| - 1] else a, if owners[|owners| - 1] then b else b[..|b| - 1];
    WeaveLength(front, a', b');
    if k < |front| {
      WeaveIn(front, a', b', k);
      assert front[k] == owners[k];
    }
  }

  lemma {:induction false} NoneOf(owners: seq<bool>, mine: bool)
    requires forall i :: 0 <= i < |owners| ==> owners[i] != mine
    ensures Count(owners, mine) == 0
  {
    if owners != [] {
      var front := owners[..|owners| - 1];
      forall i | 0 <= i < |front| ensures front[i] != mine { assert front[i] == owners[i]; }
      NoneOf(front, mine);
    }
  }

  lemma SeparateFront(owners: seq<bool>, first: bool)
    requires owners != [] && Separate(owners, first)
    ensures Separate(owners[..|owners| - 1], first)
  {
    var front := owners[..|owners| - 1];
    forall i, j | 0 <= i < j < |front| && front[i] != first ensures front[j] != first {
      assert owners[i] != first && owners[j] == front[j];
    }
  }

  /** With the last its own, all are the first's. */
  lemma OthersNone(owners: seq<bool>, a: seq<Entry>, b: seq<Entry>, first: bool)
    requires Fits(owners, a, b) && Separate(owners, first) && owners != [] && owners[|owners| - 1] == first
    ensures Pick(a, b, !first) == []
  {
    NoneOf(owners, !first);
  }

  lemma {:induction false} SeparateIsOrdered(owners: seq<bool>, a: seq<Entry>, b: seq<Entry>, first: bool)
    requires Fits(owners, a, b) && Separate(owners, first)
    ensures Weave(owners, a, b) == Pick(a, b, first) + Pick(a, b, !first)
    decreases |owners|
  {
    hide Weave, Fits, Separate;
    if owners == [] {
      FitsNothing(owners, a, b);
      WeaveLength(owners, a, b);
    } else {
      var front, last := owners[..|owners| - 1], owners[|owners| - 1];
      WeaveLast(owners, a, b);
      SeparateFront(owners, first);
      if last == first { OthersNone(owners, a, b, first); }
      if last {
        WeaveAppend(front, a[..|a| - 1], b, a[|a| - 1]);
        SeparateIsOrdered(front, a[..|a| - 1], b, first);
      } else {
        WeaveAppend(front, a, b[..|b| - 1], b[|b| - 1]);
        SeparateIsOrdered(front, a, b[..|b| - 1], first);
      }
    }
  }

  lemma SameOrderIff(owners: seq<bool>, a: seq<Entry>, b: seq<Entry>, first: bool)
    requires Fits(owners, a, b) && UniqueIds(Weave(owners, a, b))
    ensures Weave(owners, a, b) == Pick(a, b, first) + Pick(a, b, !first) <==> Separate(owners, first)
  {
    hide Weave, Fits;
    var w, p, q := Weave(owners, a, b), Pick(a, b, first), Pick(a, b, !first);
    if Separate(owners, first) {
      SeparateIsOrdered(owners, a, b, first);
    } else if w == p + q {
      var i, j :| 0 <= i < j < |owners| && owners[i] != first && owners[j] == first;
      WeaveIn(owners, a, b, i);
      WeaveIn(owners, a, b, j);
      InFront(w, p, q, j);
      InBack(w, p, q, i);
    }
  }

  lemma InFront(w: seq<Entry>, p: seq<Entry>, q: seq<Entry>, j: nat)
    requires UniqueIds(w) && w == p + q && j < |w| && w[j] in p
    ensures j < |p|
  {
    var k :| 0 <= k < |p| && p[k] == w[j];
    assert w[k].id == w[j].id;
  }

  lemma InBack(w: seq<Entry>, p: seq<Entry>, q: seq<Entry>, i: nat)
    requires UniqueIds(w) && w == p + q && i < |w| && w[i] in q
    ensures |p| <= i
  {
    var k :| 0 <= k < |q| && q[k] == w[i];
    assert w[|p| + k].id == w[i].id;
  }

  lemma UniqueBack(h: seq<Entry>, w: seq<Entry>)
    requires UniqueIds(h + w)
    ensures UniqueIds(w)
  {
    forall i, j | 0 <= i < j < |w| ensures w[i].id != w[j].id {
      assert (h + w)[|h| + i].id != (h + w)[|h| + j].id;
    }
  }

  lemma {:induction false} AllTypedSaid(h: seq<Entry>, w: seq<Said>)
    requires Apiece(h, w)
    ensures forall i :: 0 <= i < |w| ==> Typed(w[i].edit)
  {
    hide Typed;
    if w != [] { AllTypedSaid(h, w[..|w| - 1]); }
  }

  /** Main result: two tasks with projectors of their own run at once, and what they
      do to their entries is told as it comes.  The client takes all of it, and
      shows the history the server has once both are settled, one after the other,
      if and only if the one settled first announced all its entries before the
      other's, whatever was changed in between. */
  lemma InjectionDuringTurn(c: Client, h: seq<Entry>, w: seq<Said>, first: bool, sessionId: string, last: int)
    requires Shows(c, h, sessionId, last) && last >= 0 && Apiece(h, w)
    ensures EditedAll([], Of(w, true)).Some? && EditedAll([], Of(w, false)).Some?
    ensures var a, b := EditedAll([], Of(w, true)).value, EditedAll([], Of(w, false)).value;
            var r := Drain(c, Sequenced(last, NotesFor(sessionId, Edits(w))));
            && r.Ok?
            && (r.value.state.history == h + Pick(a, b, first) + Pick(a, b, !first) <==> Separate(Owners(w), first))
  {
    hide Apiece, Fits, Separate, ById, Weave, Owners, EditedAll, Of, Pick, AllTyped;
    Merged(h, w);
    var a, b := EditedAll([], Of(w, true)).value, EditedAll([], Of(w, false)).value;
    var woven := Weave(Owners(w), a, b);
    AllTypedSaid(h, w);
    EditsShow(c, h, Edits(w), sessionId, last);
    AllUnique(h, Edits(w));
    UniqueBack(h, woven);
    SameOrderIff(Owners(w), a, b, first);
    SameBehind(h, woven, Pick(a, b, first), Pick(a, b, !first));
  }

  lemma SameBehind(h: seq<Entry>, w: seq<Entry>, p: seq<Entry>, q: seq<Entry>)
    ensures h + w == h + p + q <==> w == p + q
  {
    assert h + p + q == h + (p + q);
    assert (h + (p + q))[|h|..] == p + q && (h + w)[|h|..] == w;
  }

  // ---- a batch cut short ---------------------------------------------------

  /** An entry whose announcement was lost is never shown, whatever follows. */
  lemma {:induction false} NeverShown(t: seq<Entry>, xs: seq<Edit>, id: string)
    requires UniqueIds(t) && EditedAll(t, xs).Some?
    ensures Has(EditedAll(t, xs).value, id)
       <==> Has(t, id) || exists i :: 0 <= i < |xs| && xs[i].Adds? && xs[i].entry.id == id
    decreases |xs|
  {
    hide Edited;
    if xs != [] {
      EditKeepsUnique(t, xs[0]);
      NeverShown(Edited(t, xs[0]).value, xs[1..], id);
      EditHas(t, xs[0], id);
      assert forall i :: 0 <= i < |xs[1..]| ==> xs[1..][i] == xs[i + 1];
      if i :| 0 <= i < |xs| && xs[i].Adds? && xs[i].entry.id == id {
        if i > 0 { assert xs[1..][i - 1].entry.id == id; }
      }
    }
  }

  lemma EditHas(t: seq<Entry>, x: Edit, id: string)
    requires UniqueIds(t) && Edited(t, x).Some?
    ensures Has(Edited(t, x).value, id) <==> Has(t, id) || (x.Adds? && x.entry.id == id)
  {
    hide Changed;
    if x.Adds? { HasAppend(t, x.entry, id); }
    else if Has(t, x.id) { AlterOtherHas(t, x, id); }
  }
}
