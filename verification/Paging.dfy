/** Pages of a history, and loading the whole of it page by page. */
module Paging {
  import opened Prelude
  import opened Entries
  import opened Projection
  import opened ProjectorFacts
  import opened Client
  import opened Mirror

  /** Position of the first entry equal to e, or |h|. */
  function FirstEqual(h: seq<Entry>, e: Entry): nat {
    if h == [] then 0 else if h[0] == e then 0 else 1 + FirstEqual(h[1..], e)
  }

  function OfTurn(h: seq<Entry>, turnId: string): seq<Entry> {
    if h == [] then []
    else (if h[0].turnId == Some(turnId) then [h[0]] else []) + OfTurn(h[1..], turnId)
  }

  function Cut(h: seq<Entry>, from: int, to: int): seq<Entry>
    requires from <= to
  {
    h[Clamp(from, |h|)..Clamp(to, |h|)]
  }

  function Clamp(i: int, n: nat): nat
    ensures Clamp(i, n) <= n
  {
    if i < 0 then 0 else if i > n then n else i
  }

  function WithCursors(h: seq<Entry>, page: seq<Entry>): Page {
    if page == [] then Page([], None, None)
    else
      Page(page,
           if FirstEqual(h, page[0]) > 0 then Some(page[0].id) else None,
           if FirstEqual(h, page[|page| - 1]) < |h| - 1 then Some(page[|page| - 1].id) else None)
  }

  function HistoryPage(all: seq<Entry>, turnId: Option<string>, before: Option<string>, after: Option<string>,
                       limit: int): Page
    requires limit >= 1
  {
    var h := if turnId.None? then all else OfTurn(all, turnId.value);
    if after.Some? then
      var i := IndexOf(h, after.value);
      var start := if i < |h| then i + 1 else |h|;
      WithCursors(h, Cut(h, start, start + limit))
    else if before.Some? then
      var i := IndexOf(h, before.value);
      var end := if i < |h| then i else 0;
      WithCursors(h, h[if end > limit then end - limit else 0..end])
    else
      WithCursors(h, h[if |h| > limit then |h| - limit else 0..])
  }

  function Back(first: nat, limit: int): nat
    requires limit >= 1
  {
    if first > limit then first - limit else 0
  }

  lemma {:induction false} FirstEqualAt(h: seq<Entry>, i: nat)
    requires UniqueIds(h) && i < |h|
    ensures FirstEqual(h, h[i]) == i
    decreases |h|
  {
    if i > 0 {
      assert h[0].id != h[i].id;
      forall j, k | 0 <= j < k < |h[1..]| ensures h[1..][j].id != h[1..][k].id { assert h[j + 1].id != h[k + 1].id; }
      FirstEqualAt(h[1..], i - 1);
    }
  }

  /** In a history of unique ids the newest page is its end, and its cursor says
      whether there is more before it. */
  lemma LatestPage(h: seq<Entry>, limit: int)
    requires UniqueIds(h) && limit >= 1
    ensures HistoryPage(h, None, None, None, limit).entries == h[Back(|h|, limit)..]
    ensures HistoryPage(h, None, None, None, limit).before == Before(h, Back(|h|, limit))
  {
    if h != [] { FirstEqualAt(h, Back(|h|, limit)); }
  }

  lemma PageBefore(h: seq<Entry>, first: nat, limit: int)
    requires UniqueIds(h) && limit >= 1 && 0 < first < |h|
    ensures var page := HistoryPage(h, None, Some(h[first].id), None, limit);
            page.entries == h[Back(first, limit)..first] && page.before == Before(h, Back(first, limit))
  {
    IndexUnique(h, first);
    FirstEqualAt(h, Back(first, limit));
  }

  // ---- merging a page into a mirror ----------------------------------------

  /** The index holds the entries of the history, each under its id. */
  ghost predicate Indexes(m: map<string, Entry>, h: seq<Entry>) {
    && (forall e :: e in h ==> e.id in m && m[e.id] == e)
    && (forall id :: id in m ==> m[id] in h && m[id].id == id)
  }

  lemma ByIdIndexes(h: seq<Entry>)
    requires UniqueIds(h)
    ensures Indexes(ById(h), h)
  {
    var n := ById(h);
    ByIdIs(h);
    forall e | e in h ensures e.id in n && n[e.id] == e {
      var i :| 0 <= i < |h| && h[i] == e;
      ByIdAt(h, i);
    }
  }

  lemma SameIndex(m: map<string, Entry>, n: map<string, Entry>, h: seq<Entry>)
    requires Indexes(m, h) && Indexes(n, h)
    ensures m == n
  {
    forall id ensures (id in m <==> id in n) && (id in m ==> m[id] == n[id]) {
      if id in m { assert m[id] in h; }
      if id in n { assert n[id] in h; }
    }
  }

  lemma IndexesIsById(m: map<string, Entry>, h: seq<Entry>)
    requires UniqueIds(h)
    ensures Indexes(m, h) <==> m == ById(h)
  {
    hide Indexes, ById;
    ByIdIndexes(h);
    if Indexes(m, h) { SameIndex(m, ById(h), h); }
  }

  /** No entry of the page is loaded, seen or repeated. */
  ghost predicate New(entries: map<string, Entry>, page: seq<Entry>, seen: set<string>) {
    && (forall i :: 0 <= i < |page| ==> page[i].id !in entries && page[i].id !in seen)
    && UniqueIds(page)
  }

  lemma NewRest(entries: map<string, Entry>, page: seq<Entry>, seen: set<string>)
    requires page != [] && New(entries, page, seen)
    ensures page[0].id !in entries && page[0].id !in seen
    ensures New(entries[page[0].id := page[0]], page[1..], seen + {page[0].id})
  {
    var e, rest := page[0], page[1..];
    forall i, j | 0 <= i < j < |rest| ensures rest[i].id != rest[j].id { assert page[i + 1].id != page[j + 1].id; }
    forall i | 0 <= i < |rest| ensures rest[i].id !in entries[e.id := e] && rest[i].id !in seen + {e.id} {
      assert page[i + 1].id != page[0].id && page[i + 1].id !in entries;
    }
  }

  /** A page none of whose entries is loaded or repeated is taken whole. */
  lemma {:induction false} MergeNew(entries: map<string, Entry>, page: seq<Entry>, seen: set<string>, t: seq<Entry>)
    requires New(entries, page, seen) && Indexes(entries, t)
    ensures var m := Merge(entries, page, seen);
            m.refusal == None && m.added == page && Indexes(m.entries, page + t)
    decreases |page|
  {
    hide Indexes, New;
    if page == [] {
      assert page + t == t;
    } else {
      var e, rest := page[0], page[1..];
      NewRest(entries, page, seen);
      IndexesMore(entries, t, e);
      MergeNew(entries[e.id := e], rest, seen + {e.id}, [e] + t);
      assert [e] + rest == page;
      Reordered(Merge(entries[e.id := e], rest, seen + {e.id}).entries, rest, e, t);
    }
  }

  lemma IndexesMore(m: map<string, Entry>, t: seq<Entry>, e: Entry)
    requires Indexes(m, t) && e.id !in m
    ensures Indexes(m[e.id := e], [e] + t)
  {
    assert forall x :: x in [e] + t <==> x == e || x in t;
  }

  lemma Reordered(m: map<string, Entry>, rest: seq<Entry>, e: Entry, t: seq<Entry>)
    requires Indexes(m, rest + ([e] + t))
    ensures Indexes(m, [e] + rest + t)
  {
    assert forall x :: x in [e] + rest + t <==> x in rest + ([e] + t);
  }

  /** The page before the first of some loaded entries joins them. */
  lemma PageJoins(c: Client, h: seq<Entry>, first: nat, limit: int)
    requires UniqueIds(h) && 0 < first < |h| && limit >= 1
    requires c.state.history == h[first..] && c.entries == ById(h[first..])
    ensures var page := HistoryPage(h, None, Some(h[first].id), None, limit);
            var a := Back(first, limit);
            Prepend(c, page) == (c.(entries := ById(h[a..]), state := c.state.(history := h[a..], before := Before(h,
                a))), None)
  {
    hide HistoryPage, Merge, ById, Indexes;
    var a := Back(first, limit);
    PageBefore(h, first, limit);
    var front, t := h[a..first], h[first..];
    assert front + t == h[a..];
    SuffixHas(h, a, "");
    SuffixHas(h, first, "");
    FrontIsNew(c.entries, h, a, first);
    IndexesIsById(c.entries, t);
    MergeNew(c.entries, front, {}, t);
    IndexesIsById(Merge(c.entries, front, {}).entries, h[a..]);
  }

  lemma FrontIsNew(entries: map<string, Entry>, h: seq<Entry>, a: nat, first: nat)
    requires UniqueIds(h) && a <= first <= |h| && entries == ById(h[first..])
    ensures New(entries, h[a..first], {})
  {
    hide ById;
    var front := h[a..first];
    ByIdIs(h[first..]);
    forall i | 0 <= i < |front| ensures front[i].id !in entries {
      SuffixHas(h, first, front[i].id);
      IndexUnique(h, a + i);
    }
    forall i, j | 0 <= i < j < |front| ensures front[i].id != front[j].id { assert h[a + i].id != h[a + j].id; }
  }

  /** Prepending the page before the first loaded entry widens the mirror by
      exactly that page. */
  lemma PageMirrored(c: Client, h: seq<Entry>, v: View, limit: int)
    requires Sound(h) && Mirrors(c, h, v) && 0 < v.first && limit >= 1
    ensures var page := HistoryPage(h, None, Some(h[v.first].id), None, limit);
            var (c', refusal) := Prepend(c, page);
            && refusal == None && Mirrors(c', h, View(Back(v.first, limit), v.covered))
            && c'.state.sessionId == c.state.sessionId && c'.state.turn == c.state.turn
                && c'.lastEventId == c.lastEventId
  {
    hide HistoryPage, Prepend, ById;
    PageJoins(c, h, v.first, limit);
    if v.covered { OpenWidens(c.state.callbacks, h, Back(v.first, limit), v.first); }
  }

  lemma OpenWidens(callbacks: seq<Entry>, h: seq<Entry>, a: nat, first: nat)
    requires a <= first <= |h| && Sound(h) && Covered(h, first) && SameOpen(callbacks, h[first..])
    ensures Covered(h, a) && SameOpen(callbacks, h[a..])
  {
    assert h[a..] == h[a..first] + h[first..];
    forall e | e in h[a..first] ensures !IsOpen(e) {
      var i :| 0 <= i < |h[a..first]| && h[a..first][i] == e;
      assert h[a + i] == e && Tidy(h[a + i]);
    }
  }

  // ---- loading everything --------------------------------------------------

  lemma CursorMoves(h: seq<Entry>, first: nat, limit: int)
    requires UniqueIds(h) && 0 < first < |h| && limit >= 1
    ensures Before(h, Back(first, limit)) != Some(h[first].id)
  {
    var a := Back(first, limit);
    assert h[a].id != h[first].id;
  }

  /** Page after page, oldest last, until the cursor is gone or empty.  The error
      for a cursor that does not move is unreachable. */
  method LoadCompleteHistory(client: ClientProjection, h: seq<Entry>, ghost v: View, limit: int) returns (stuck: bool)
    requires Sound(h) && Mirrors(client.Model(), h, v) && limit >= 1
    modifies client
    ensures !stuck
    ensures (forall i :: 0 <= i < |h| ==> h[i].id != "") ==>
              client.state.history == h && client.state.before == None && Mirrors(client.Model(), h, View(0, v.covered))
    ensures client.lastEventId == old(client.lastEventId) && client.state.turn == old(client.state.turn)
  {
    ghost var first: nat := v.first;
    while Given(client.state.before)
      invariant first <= |h| && Mirrors(client.Model(), h, View(first, v.covered))
      invariant client.lastEventId == old(client.lastEventId) && client.state.turn == old(client.state.turn)
      decreases first
    {
      var before := client.state.before.value;
      var page := HistoryPage(h, None, Some(before), None, limit);
      PageMirrored(client.Model(), h, View(first, v.covered), limit);
      PageBefore(h, first, limit);
      CursorMoves(h, first, limit);
      var refusal := client.PrependHistoryPage(page);
      first := Back(first, limit);
      if page.before == Some(before) { return true; }
    }
    if forall i :: 0 <= i < |h| ==> h[i].id != "" {
      assert first == 0;
      assert h[0..] == h;
    }
    return false;
  }

  // ---- the other pages -----------------------------------------------------

  lemma CursorsAre(h: seq<Entry>, a: nat, b: nat)
    requires UniqueIds(h) && a < b <= |h|
    ensures WithCursors(h, h[a..b])
         == Page(h[a..b], if a > 0 then Some(h[a].id) else None, if b < |h| then Some(h[b - 1].id) else None)
  {
    hide FirstEqual, UniqueIds;
    FirstEqualAt(h, a);
    FirstEqualAt(h, b - 1);
    assert h[a..b][0] == h[a] && h[a..b][b - a - 1] == h[b - 1];
  }

  /** The page behind an entry begins right after it and has up to `limit` entries;
      its cursors say that there are earlier ones, and whether there are later. */
  lemma PageAfter(h: seq<Entry>, last: nat, limit: int)
    requires UniqueIds(h) && limit >= 1 && last < |h|
    ensures var page := HistoryPage(h, None, None, Some(h[last].id), limit);
            var end := if last + 1 + limit < |h| then last + 1 + limit else |h|;
            && page.entries == h[last + 1..end]
            && (last + 1 == |h| ==> page.before == None && page.after == None)
            && (last + 1 < |h| ==>
                  && page.before == Some(h[last + 1].id)
                  && page.after == if end < |h| then Some(h[end - 1].id) else None)
  {
    hide UniqueIds, IndexOf, Cut, WithCursors;
    IndexUnique(h, last);
    CutIs(h, last + 1, limit);
    var end := if last + 1 + limit < |h| then last + 1 + limit else |h|;
    if last + 1 < |h| { CursorsAre(h, last + 1, end); } else { NoCursors(h); }
  }

  lemma CutIs(h: seq<Entry>, from: nat, limit: int)
    requires from <= |h| && limit >= 1
    ensures Cut(h, from, from + limit) == h[from..if from + limit < |h| then from + limit else |h|]
  {
  }

  lemma NoCursors(h: seq<Entry>)
    ensures WithCursors(h, []) == Page([], None, None)
  {
  }

  /** A cursor that names no entry gives an empty page, either way. */
  lemma UnknownCursor(h: seq<Entry>, id: string, limit: int)
    requires limit >= 1 && !Has(h, id)
    ensures HistoryPage(h, None, Some(id), None, limit) == Page([], None, None)
    ensures HistoryPage(h, None, None, Some(id), limit) == Page([], None, None)
  {
    assert IndexOf(h, id) == |h|;
  }

  /** The places of a turn's entries, in order. */
  function PlacesOf(h: seq<Entry>, turnId: string): (places: seq<nat>)
    ensures forall k :: 0 <= k < |places| ==> places[k] < |h|
    decreases |h|
  {
    if h == [] then []
    else
      var last := |h| - 1;
      PlacesOf(h[..last], turnId) + if h[last].turnId == Some(turnId) then [last] else []
  }

  lemma {:induction false} OfTurnSnoc(h: seq<Entry>, e: Entry, turnId: string)
    ensures OfTurn(h + [e], turnId) == OfTurn(h, turnId) + if e.turnId == Some(turnId) then [e] else []
    decreases |h|
  {
    var last := if e.turnId == Some(turnId) then [e] else [];
    if h == [] {
      assert h + [e] == [e] && [e][1..] == [] && OfTurn([e], turnId) == last + OfTurn([], turnId);
    } else {
      var rest, first := h[1..], if h[0].turnId == Some(turnId) then [h[0]] else [];
      assert (h + [e])[0] == h[0] && (h + [e])[1..] == rest + [e];
      OfTurnSnoc(rest, e, turnId);
      assert first + (OfTurn(rest, turnId) + last) == (first + OfTurn(rest, turnId)) + last;
    }
  }

  /** These places, in order, are those of the turn's entries, and these its entries. */
  predicate TurnAt(h: seq<Entry>, turnId: string, places: seq<nat>, t: seq<Entry>) {
    && |t| == |places| && (forall k :: 0 <= k < |t| ==> places[k] < |h| && t[k] == h[places[k]])
    && (forall j, k :: 0 <= j < k < |places| ==> places[j] < places[k])
    && (forall i :: 0 <= i < |h| ==> (h[i].turnId == Some(turnId) <==> i in places))
  }

  lemma OneMoreAt(h: seq<Entry>, e: Entry, turnId: string, places: seq<nat>, t: seq<Entry>)
    requires TurnAt(h, turnId, places, t)
    ensures if e.turnId == Some(turnId) then TurnAt(h + [e], turnId, places + [|h|], t + [e])
            else TurnAt(h + [e], turnId, places, t)
  {
    var all := h + [e];
    assert forall i :: 0 <= i < |h| ==> all[i] == h[i];
    assert all[|h|] == e;
  }

  /** Main result: pages of a turn are pages of exactly its entries, in the order
      of the history. */
  lemma {:induction false} OfTurnIs(h: seq<Entry>, turnId: string)
    ensures TurnAt(h, turnId, PlacesOf(h, turnId), OfTurn(h, turnId))
    decreases |h|
  {
    hide OfTurn, TurnAt;
    if h == [] {
      NoneOfTurn(turnId);
    } else {
      var front, e := h[..|h| - 1], h[|h| - 1];
      assert h == front + [e];
      OfTurnIs(front, turnId);
      OfTurnSnoc(front, e, turnId);
      OneMoreAt(front, e, turnId, PlacesOf(front, turnId), OfTurn(front, turnId));
      if e.turnId != Some(turnId) {
        assert OfTurn(front, turnId) + [] == OfTurn(front, turnId);
        assert PlacesOf(front, turnId) + [] == PlacesOf(front, turnId);
      }
    }
  }

  lemma NoneOfTurn(turnId: string)
    ensures OfTurn([], turnId) == [] && TurnAt([], turnId, [], [])
  {
  }

  lemma TurnIsPaged(h: seq<Entry>, turnId: string, before: Option<string>, after: Option<string>, limit: int)
    requires limit >= 1
    ensures HistoryPage(h, Some(turnId), before, after, limit)
         == HistoryPage(OfTurn(h, turnId), None, before, after, limit)
    ensures UniqueIds(h) ==> UniqueIds(OfTurn(h, turnId))
  {
    hide WithCursors, IndexOf, OfTurn, UniqueIds;
    if UniqueIds(h) { PartIsUnique(h, turnId); }
  }

  lemma PartIsUnique(h: seq<Entry>, turnId: string)
    requires UniqueIds(h)
    ensures UniqueIds(OfTurn(h, turnId))
  {
    hide OfTurn, PlacesOf;
    OfTurnIs(h, turnId);
    var t, places := OfTurn(h, turnId), PlacesOf(h, turnId);
    forall j, k | 0 <= j < k < |t| ensures t[j].id != t[k].id {
      assert places[j] < places[k] && h[places[j]].id != h[places[k]].id;
    }
  }
}
