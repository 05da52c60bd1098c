/** The registry of child sessions: two tables kept in step, and parents that
    follow when a session gets a new id. */
module Sessions {
  import opened Prelude

  /** A runtime's session id and its parent's. */
  datatype Runtime = Runtime(sessionId: string, parent: string)

  datatype Link = Link(parent: nat, toolCallId: string)

  /** Runtimes are objects, named by numbers; `root` is the root's session id. */
  datatype Registry = Registry(
    root: string, runtimes: map<nat, Runtime>, children: map<string, nat>, links: map<string, Link>)

  datatype Refusal = UnknownChild | Unchanged | AlreadyRegistered

  /** What a child's handoff holds while its parent's loop replaces the child. */
  datatype Moving = Moving(from: string, to: string, runtime: nat, link: Link)

  function Renamed(r: Runtime, old': string, new': string): Runtime {
    if r.parent == old' then r.(parent := new') else r
  }

  /** Every registered child of the old id follows to the new one. */
  function Follow(runtimes: map<nat, Runtime>, children: map<string, nat>, old': string, new': string): map<nat,
                  Runtime> {
    map n | n in runtimes :: if n in children.Values then Renamed(runtimes[n], old', new') else runtimes[n]
  }

  function Added(g: Registry, n: nat, child: Runtime, link: Link): Registry {
    g.(runtimes := g.runtimes[n := child], children := g.children[child.sessionId := n],
        links := g.links[child.sessionId := link])
  }

  function RolledBack(g: Registry, sessionId: string): Registry {
    g.(children := g.children - {sessionId}, links := g.links - {sessionId})
  }

  /** The core has given the child a new session id: the checks of a handoff. */
  function MoveBegun(g: Registry, old': string, new': string): Result<Moving, Refusal> {
    if old' !in g.children || g.children[old'] !in g.runtimes || old' !in g.links then Err(UnknownChild)
    else if old' == new' then Err(Unchanged)
    else if new' in g.children then Err(AlreadyRegistered)
    else Ok(Moving(old', new', g.children[old'], g.links[old']))
  }

  /** The handoff goes on when the parent's loop has replaced the child; by then
      the child may be gone. */
  function MoveDone(g: Registry, m: Moving): Result<Registry, Refusal> {
    if m.from !in g.children || m.runtime !in g.runtimes then Err(UnknownChild)
    else
      var children := (g.children - {m.from})[m.to := m.runtime];
      var moved := g.runtimes[m.runtime := g.runtimes[m.runtime].(sessionId := m.to)];
      Ok(g.(children := children, links := (g.links - {m.from})[m.to := m.link],
            runtimes := Follow(moved, children, m.from, m.to)))
  }

  function RootMoved(g: Registry, new': string): Registry {
    g.(root := new', runtimes := Follow(g.runtimes, g.children, g.root, new'))
  }

  function Emptied(g: Registry): Registry { g.(children := map[], links := map[]) }

  // ---- the class -----------------------------------------------------------

  class SessionRuntimeRegistry {
    var rootSession: string
    var runtimes: map<nat, Runtime>
    var children: map<string, nat>
    var childLinks: map<string, Link>

    function Model(): Registry
      reads this
    {
      Registry(rootSession, runtimes, children, childLinks)
    }

    constructor (root: string)
      ensures Model() == Registry(root, map[], map[], map[])
    {
      rootSession, runtimes, children, childLinks := root, map[], map[], map[];
    }

    method Rename(old': string, new': string)
      modifies this`runtimes
      ensures runtimes == Follow(old(runtimes), children, old', new')
    {
      ghost var before := runtimes;
      var left := children.Values;
      while left != {}
        invariant left <= children.Values && runtimes.Keys == before.Keys
        invariant forall n :: n in before ==>
                    runtimes[n] == if n in children.Values - left then Renamed(before[n], old', new') else before[n]
        decreases |left|
      {
        var n :| n in left;
        if n in runtimes && runtimes[n].parent == old' { runtimes := runtimes[n := runtimes[n].(parent := new')]; }
        left := left - {n};
      }
      assert runtimes == Follow(before, children, old', new');
    }

    /** A child is registered before it is persisted, recorded and linked. */
    method RunChild(n: nat, child: Runtime, link: Link)
      modifies this
      ensures Model() == Added(old(Model()), n, child, link)
    {
      runtimes := runtimes[n := child];
      children := children[child.sessionId := n];
      childLinks := childLinks[child.sessionId := link];
    }

    /** If one of these fails, both tables lose it again, if they still have it. */
    method RollBackChild(sessionId: string)
      modifies this
      ensures Model() == RolledBack(old(Model()), sessionId)
    {
      children := children - {sessionId};
      childLinks := childLinks - {sessionId};
    }

    /** Up to the parent's loop replacing the child. */
    method HandoffActiveTurn(old': string, new': string) returns (r: Result<Moving, Refusal>)
      ensures r == MoveBegun(Model(), old', new')
    {
      if old' !in children || children[old'] !in runtimes || old' !in childLinks { return Err(UnknownChild); }
      if old' == new' { return Err(Unchanged); }
      if new' in children { return Err(AlreadyRegistered); }
      return Ok(Moving(old', new', children[old'], childLinks[old']));
    }

    /** From there on. */
    method HandoffGoesOn(m: Moving) returns (refusal: Option<Refusal>)
      modifies this
      ensures match MoveDone(old(Model()), m)
              case Err(e) => refusal == Some(e) && Model() == old(Model())
              case Ok(g) => refusal == None && Model() == g
    {
      if m.from !in children || m.runtime !in runtimes { return Some(UnknownChild); }
      runtimes := runtimes[m.runtime := runtimes[m.runtime].(sessionId := m.to)];
      children := (children - {m.from})[m.to := m.runtime];
      childLinks := (childLinks - {m.from})[m.to := m.link];
      Rename(m.from, m.to);
      return None;
    }

    method HandoffRoot(new': string)
      modifies this
      ensures Model() == RootMoved(old(Model()), new')
    {
      var old' := rootSession;
      rootSession := new';
      Rename(old', new');
    }

    method CloseChildren()
      modifies this
      ensures Model() == Emptied(old(Model()))
    {
      children, childLinks := map[], map[];
    }

    /** Closes what is there, then registers the children that can be resumed. */
    method RestoreChildren(found: seq<(nat, Runtime, Link)>)
      modifies this
      ensures Model() == Restored(old(Model()), found)
    {
      CloseChildren();
      assert found[..0] == [];
      for i := 0 to |found|
        invariant Model() == AddedAll(Emptied(old(Model())), found[..i])
      {
        RunChild(found[i].0, found[i].1, found[i].2);
        assert found[..i + 1][..i] == found[..i];
      }
      assert found[..|found|] == found;
    }
  }

  function AddedAll(g: Registry, found: seq<(nat, Runtime, Link)>): Registry {
    if found == [] then g
    else
      var last := found[|found| - 1];
      Added(AddedAll(g, found[..|found| - 1]), last.0, last.1, last.2)
  }

  function Restored(g: Registry, found: seq<(nat, Runtime, Link)>): Registry { AddedAll(Emptied(g), found) }

  // ---- whole runs ----------------------------------------------------------

  /** The registry, the handoffs that wait for a parent's loop, and the children
      whose start is under way. */
  datatype World = World(registry: Registry, moving: seq<Moving>, starting: set<string>)

  datatype Step =
    | Run(n: nat, sessionId: string, parent: string, link: Link)  // registered, its start under way
    | Starts(sessionId: string)
    | Fails(sessionId: string)
    | BeginHandoff(from: string, to: string)
    | GoOn(i: nat)          // a waiting handoff goes on
    | RootHandoff(to: string)
    | Restore(found: seq<(nat, Runtime, Link)>)
    | Close

  predicate Known(g: Registry, sessionId: string) { sessionId == g.root || sessionId in g.children }

  /** An id a waiting handoff moves from or to. */
  predicate Named(moving: seq<Moving>, id: string) {
    exists i :: 0 <= i < |moving| && (moving[i].from == id || moving[i].to == id)
  }

  /** New runtimes are new objects with new session ids and a known parent;
      restored ones are the root's children. */
  predicate Fresh(g: Registry, n: nat, sessionId: string, parent: string) {
    n !in g.runtimes && !Known(g, sessionId) && Known(g, parent)
  }

  predicate AllFresh(w: World, found: seq<(nat, Runtime, Link)>) {
    found != [] ==>
      && AllFresh(w, found[..|found| - 1])
      && var f := found[|found| - 1];
         && Fresh(AddedAll(w.registry, found[..|found| - 1]), f.0, f.1.sessionId, f.1.parent)
         && !Named(w.moving, f.1.sessionId) && f.1.sessionId !in w.starting && f.1.parent !in w.starting
  }

  /** The core draws an id that is new, or hands the same child off again. */
  predicate NewId(w: World, m: Moving) {
    && m.to != w.registry.root && m.from !in w.starting && m.to !in w.starting
    && forall i :: 0 <= i < |w.moving| ==>
         && m.to != w.moving[i].from
         && (w.moving[i].to == m.to ==> w.moving[i].from == m.from)
  }

  function Next(w: World, step: Step): Option<World> {
    var g := w.registry;
    match step
    case Run(n, sessionId, parent, link) =>
      if !Fresh(g, n, sessionId, parent) || Named(w.moving, sessionId)
         || sessionId in w.starting || parent in w.starting
      then None
      else
        Some(w.(registry := Added(g, n, Runtime(sessionId, parent), link), starting := w.starting + {sessionId}))
    case Starts(sessionId) =>
      if sessionId !in w.starting then None else Some(w.(starting := w.starting - {sessionId}))
    case Fails(sessionId) =>
      if sessionId !in w.starting then None
      else Some(w.(registry := RolledBack(g, sessionId), starting := w.starting - {sessionId}))
    case BeginHandoff(from, to) =>
      (match MoveBegun(g, from, to)
       case Err(_) => Some(w)
       case Ok(m) => if NewId(w, m) then Some(w.(moving := w.moving + [m])) else None)
    case GoOn(i) =>
      if i >= |w.moving| then None
      else
        var rest := w.moving[..i] + w.moving[i + 1..];
        (match MoveDone(g, w.moving[i])
         case Err(_) => Some(w.(moving := rest))
         case Ok(g') => Some(World(g', rest, w.starting)))
    case RootHandoff(to) =>
      if Known(g, to) || Named(w.moving, to) || to in w.starting then None else Some(w.(registry := RootMoved(g, to)))
    case Restore(found) =>
      if AllFresh(w.(registry := Emptied(g)), found) then Some(w.(registry := Restored(g, found))) else None
    case Close => Some(w.(registry := Emptied(g)))
  }

  function RunAll(w: World, steps: seq<Step>): Option<World>
    decreases |steps|
  {
    if steps == [] then Some(w) else match Next(w, steps[0]) case None => None case Some(w') => RunAll(w', steps[1..])
  }

  /** The tables have the same keys; each key is its runtime's session id; every
      child's parent is the root's or a registered child's current id. */
  ghost predicate Inv(g: Registry) {
    && g.children.Keys == g.links.Keys
    && g.root !in g.children
    && (forall k :: k in g.children ==>
          g.children[k] in g.runtimes && g.runtimes[g.children[k]].sessionId == k
              && Known(g, g.runtimes[g.children[k]].parent))
  }

  /** A waiting handoff is of the child registered under its old id, unless that
      is gone; and its new id is nobody else's. */
  ghost predicate Waiting(g: Registry, m: Moving) {
    && m.from != m.to && m.to != g.root && m.from != g.root && m.runtime in g.runtimes
    && (m.from in g.children ==>
          && g.children[m.from] == m.runtime && m.from in g.links && g.links[m.from] == m.link
          && m.to !in g.children)
  }

  /** A handoff that can go on, and another. */
  predicate Apart(g: Registry, m: Moving, n: Moving) {
    m.to != n.from && (m.to == n.to && n.from in g.children ==> m.from == n.from)
  }

  ghost predicate WorldOk(w: World) {
    && Inv(w.registry)
    && (forall i :: 0 <= i < |w.moving| ==> Waiting(w.registry, w.moving[i]))
    && (forall i, j :: 0 <= i < |w.moving| && 0 <= j < |w.moving| && w.moving[i].from in w.registry.children ==>
          Apart(w.registry, w.moving[i], w.moving[j]))
    && Unstarted(w)
  }

  /** A child whose start is under way is nobody's parent, not the root, and not
      handed off. */
  ghost predicate Unstarted(w: World) {
    && w.registry.root !in w.starting
    && (forall k :: k in w.registry.children ==>
          w.registry.children[k] in w.registry.runtimes
          && w.registry.runtimes[w.registry.children[k]].parent !in w.starting)
    && forall i :: 0 <= i < |w.moving| ==> w.moving[i].from !in w.starting && w.moving[i].to !in w.starting
  }

  function Followed(parent: string, from: string, to: string): string { if parent == from then to else parent }

  lemma AddKeeps(g: Registry, n: nat, child: Runtime, link: Link)
    requires Inv(g) && Fresh(g, n, child.sessionId, child.parent)
    ensures Inv(Added(g, n, child, link))
  {
  }

  lemma {:induction false} RestoreKeeps(w: World, found: seq<(nat, Runtime, Link)>)
    requires WorldOk(w) && AllFresh(w, found)
    ensures WorldOk(w.(registry := AddedAll(w.registry, found))) && AddedAll(w.registry, found).root == w.registry.root
  {
    hide WorldOk;
    assert w.(registry := w.registry) == w;
    if found != [] {
      var front, f := found[..|found| - 1], found[|found| - 1];
      RestoreKeeps(w, front);
      AddOne(w.(registry := AddedAll(w.registry, front)), f.0, f.1, f.2);
    }
  }

  /** One more child, with an id that nothing waits for. */
  lemma AddOne(w: World, n: nat, child: Runtime, link: Link)
    requires WorldOk(w) && Fresh(w.registry, n, child.sessionId, child.parent)
    requires !Named(w.moving, child.sessionId) && child.sessionId !in w.starting && child.parent !in w.starting
    ensures WorldOk(w.(registry := Added(w.registry, n, child, link)))
  {
    AddKeeps(w.registry, n, child, link);
    forall i | 0 <= i < |w.moving| ensures Waiting(Added(w.registry, n, child, link), w.moving[i]) {
      assert Waiting(w.registry, w.moving[i]);
      assert w.moving[i].from != child.sessionId && w.moving[i].to != child.sessionId;
    }
  }

  /** A rollback right after the registration undoes it. */
  lemma RollbackRestores(g: Registry, n: nat, child: Runtime, link: Link)
    requires Inv(g) && Fresh(g, n, child.sessionId, child.parent)
    ensures var g' := RolledBack(Added(g, n, child, link), child.sessionId);
            g'.children == g.children && g'.links == g.links && Inv(g')
  {
    var g' := RolledBack(Added(g, n, child, link), child.sessionId);
    assert g'.children == g.children && g'.links == g.links;
  }

  /** Main result: whatever came while a child's start was under way, rolling it back
      takes out its key if it is still there, in both tables, and nothing else. */
  lemma RollbackTakesOne(w: World, sessionId: string)
    requires WorldOk(w) && sessionId in w.starting
    ensures var g, w' := w.registry, Next(w, Fails(sessionId)).value;
            && WorldOk(w') && w'.registry.children.Keys == g.children.Keys - {sessionId}
            && w'.registry.runtimes == g.runtimes && w'.registry.root == g.root && w'.moving == w.moving
            && forall k :: k in w'.registry.children ==>
                 w'.registry.children[k] == g.children[k] && w'.registry.links[k] == g.links[k]
  {
    var g := w.registry;
    var g' := RolledBack(g, sessionId);
    forall k | k in g'.children ensures Known(g', g'.runtimes[g'.children[k]].parent) {
      assert g.runtimes[g.children[k]].parent !in w.starting;
    }
    forall i | 0 <= i < |w.moving| ensures Waiting(g', w.moving[i]) { assert Waiting(g, w.moving[i]); }
    forall i, j | 0 <= i < |w.moving| && 0 <= j < |w.moving| && w.moving[i].from in g'.children
      ensures Apart(g', w.moving[i], w.moving[j])
    {
      assert Apart(g, w.moving[i], w.moving[j]);
    }
  }

  /** Where a registered child of the new tables comes from. */
  lemma MovedChild(g: Registry, m: Moving, k: string)
    requires Inv(g) && Waiting(g, m) && MoveDone(g, m).Ok?
    requires k in MoveDone(g, m).value.children
    ensures var g' := MoveDone(g, m).value;
            var k0 := if k == m.to then m.from else k;
            && k0 in g.children && k0 in g.links && k != m.from
            && g'.children[k] == g.children[k0] && k in g'.links && g'.links[k] == g.links[k0]
            && g'.children[k] in g.runtimes && g'.children[k] in g'.runtimes
            && g'.runtimes[g'.children[k]].sessionId == k
            && g'.runtimes[g'.children[k]].parent == Followed(g.runtimes[g'.children[k]].parent, m.from, m.to)
  {
    var g' := MoveDone(g, m).value;
    assert g'.children[k] in g'.children.Values;
  }

  /** Main result: whatever came while a child's handoff waited, when it goes on it
      moves exactly one key, in both tables, to the new id; every child of the old
      id follows to the new one, and no other parent changes.  If the child is no
      longer registered under its old id, nothing changes. */
  lemma ChildHandoffMovesOneKey(g: Registry, m: Moving)
    requires Inv(g) && Waiting(g, m)
    ensures MoveDone(g, m).Ok? <==> m.from in g.children
    ensures MoveDone(g, m).Ok? ==>
              var g' := MoveDone(g, m).value;
              && Inv(g') && m.to !in g.children
              && g'.children.Keys == g.children.Keys - {m.from} + {m.to} && g'.children[m.to] == g.children[m.from]
                  && g'.links[m.to] == g.links[m.from]
              && (forall k :: k in g.children && k != m.from ==>
                    g'.children[k] == g.children[k] && g'.links[k] == g.links[k])
              && (forall k :: k in g'.children ==>
                    g'.runtimes[g'.children[k]].parent
                    == Followed(g.runtimes[g'.children[k]].parent, m.from, m.to))
  {
    hide Follow;
    if MoveDone(g, m).Ok? {
      var g' := MoveDone(g, m).value;
      forall k | k in g'.children
        ensures g'.children[k] in g'.runtimes && g'.runtimes[g'.children[k]].sessionId == k
        ensures g'.runtimes[g'.children[k]].parent == Followed(g.runtimes[g'.children[k]].parent, m.from, m.to)
        ensures Known(g', g'.runtimes[g'.children[k]].parent)
      {
        MovedChild(g, m, k);
      }
    }
  }

  lemma RootHandoffFollowed(g: Registry, to: string)
    requires Inv(g) && !Known(g, to)
    ensures var g' := RootMoved(g, to);
            && Inv(g') && g'.children == g.children && g'.links == g.links
            && forall k :: k in g.children ==>
                 g'.runtimes[g.children[k]].parent == Followed(g.runtimes[g.children[k]].parent, g.root, to)
  {
    forall k | k in g.children ensures g.children[k] in g.children.Values { }
  }

  // ---- every step ----------------------------------------------------------

  lemma BeginKeeps(w: World, from: string, to: string)
    requires WorldOk(w) && Next(w, BeginHandoff(from, to)).Some?
    ensures WorldOk(Next(w, BeginHandoff(from, to)).value)
  {
    if MoveBegun(w.registry, from, to).Ok? {
      var m, g := MoveBegun(w.registry, from, to).value, w.registry;
      var moving := w.moving + [m];
      forall i, j | 0 <= i < |moving| && 0 <= j < |moving| && moving[i].from in g.children
        ensures Apart(g, moving[i], moving[j])
      {
        if i < |w.moving| { assert Waiting(g, w.moving[i]); }
      }
    }
  }

  /** The handoffs still waiting when one has gone on. */
  lemma OthersWait(g: Registry, m: Moving, n: Moving)
    requires Inv(g) && Waiting(g, m) && Waiting(g, n) && MoveDone(g, m).Ok?
    requires Apart(g, m, n) && (n.from in g.children ==> Apart(g, n, m))
    ensures Waiting(MoveDone(g, m).value, n)
    ensures n.from in MoveDone(g, m).value.children ==> n.from in g.children
  {
  }

  /** Where a handoff that is left comes from. */
  function Source(i: nat, j: nat): nat { if j < i then j else j + 1 }

  /** With one handoff gone on, the others are as they were. */
  lemma RestOk(w: World, i: nat, g: Registry)
    requires WorldOk(w) && i < |w.moving| && Inv(g)
    requires forall j :: 0 <= j < |w.moving| && j != i ==>
               Waiting(g, w.moving[j]) && (w.moving[j].from in g.children ==> w.moving[j].from in w.registry.children)
    requires Unstarted(w.(registry := g))
    ensures WorldOk(World(g, w.moving[..i] + w.moving[i + 1..], w.starting))
  {
    hide Waiting;
    var rest := w.moving[..i] + w.moving[i + 1..];
    forall j | 0 <= j < |rest| ensures Waiting(g, rest[j]) && rest[j] == w.moving[Source(i, j)] {
      assert rest[j] == w.moving[Source(i, j)];
    }
    forall j, k | 0 <= j < |rest| && 0 <= k < |rest| && rest[j].from in g.children ensures Apart(g, rest[j], rest[k]) {
      assert Apart(w.registry, w.moving[Source(i, j)], w.moving[Source(i, k)]);
    }
  }

  lemma GoOnKeeps(w: World, i: nat)
    requires WorldOk(w) && i < |w.moving|
    ensures WorldOk(Next(w, GoOn(i)).value)
  {
    hide Waiting, MoveDone;
    var m, g := w.moving[i], w.registry;
    ChildHandoffMovesOneKey(g, m);
    var g' := if MoveDone(g, m).Ok? then MoveDone(g, m).value else g;
    forall j | 0 <= j < |w.moving| && j != i
      ensures Waiting(g', w.moving[j]) && (w.moving[j].from in g'.children ==> w.moving[j].from in g.children)
    {
      if MoveDone(g, m).Ok? {
        assert Apart(g, m, w.moving[j]);
        OthersWait(g, m, w.moving[j]);
      }
    }
    if MoveDone(g, m).Ok? { MoveUnstarted(w, m); }
    RestOk(w, i, g');
  }

  /** The parent of a child is not one whose start is under way. */
  lemma ParentStarted(w: World, k: string)
    requires WorldOk(w) && k in w.registry.children
    ensures w.registry.children[k] in w.registry.runtimes
    ensures w.registry.runtimes[w.registry.children[k]].parent !in w.starting
  {
  }

  lemma WaitingOk(w: World, i: nat)
    requires WorldOk(w) && i < |w.moving|
    ensures Inv(w.registry) && Waiting(w.registry, w.moving[i]) && w.registry.root !in w.starting
    ensures forall j :: 0 <= j < |w.moving| ==> w.moving[j].from !in w.starting && w.moving[j].to !in w.starting
  {
  }

  lemma MoveUnstarted(w: World, m: Moving)
    requires WorldOk(w) && m in w.moving && MoveDone(w.registry, m).Ok?
    ensures Unstarted(w.(registry := MoveDone(w.registry, m).value))
  {
    hide MoveDone, WorldOk, Inv, Waiting;
    var i :| 0 <= i < |w.moving| && w.moving[i] == m;
    WaitingOk(w, i);
    MoveKeepsRoot(w.registry, m);
    var g, g' := w.registry, MoveDone(w.registry, m).value;
    forall k | k in g'.children
      ensures g'.children[k] in g'.runtimes && g'.runtimes[g'.children[k]].parent !in w.starting
    {
      MovedChild(g, m, k);
      ParentStarted(w, if k == m.to then m.from else k);
    }
  }

  lemma MoveKeepsRoot(g: Registry, m: Moving)
    requires MoveDone(g, m).Ok?
    ensures MoveDone(g, m).value.root == g.root
  {
  }

  lemma RunKeeps(w: World, step: Step)
    requires WorldOk(w) && step.Run? && Next(w, step).Some?
    ensures WorldOk(Next(w, step).value)
  {
    hide WorldOk;
    var child := Runtime(step.sessionId, step.parent);
    AddOne(w, step.n, child, step.link);
    StartOne(w.(registry := Added(w.registry, step.n, child, step.link)), step.sessionId) by {
      ParentsKnown(w, step.sessionId);
    }
  }

  /** Nobody's parent has an id that is not known. */
  lemma ParentsKnown(w: World, sessionId: string)
    requires WorldOk(w) && !Known(w.registry, sessionId)
    ensures forall k :: k in w.registry.children ==>
              w.registry.children[k] in w.registry.runtimes
              && w.registry.runtimes[w.registry.children[k]].parent != sessionId
  {
  }

  lemma StartOne(w: World, sessionId: string)
    requires WorldOk(w) && sessionId != w.registry.root && !Named(w.moving, sessionId)
    requires forall k :: k in w.registry.children ==>
               w.registry.children[k] in w.registry.runtimes
               && w.registry.runtimes[w.registry.children[k]].parent != sessionId
    ensures WorldOk(w.(starting := w.starting + {sessionId}))
  {
  }

  lemma StartedKeeps(w: World, sessionId: string)
    requires WorldOk(w)
    ensures WorldOk(w.(starting := w.starting - {sessionId}))
  {
  }

  lemma StepKeeps(w: World, step: Step)
    requires WorldOk(w) && Next(w, step).Some?
    ensures WorldOk(Next(w, step).value)
  {
    hide Next, WorldOk;
    match step {
      case Run(_, _, _, _) => RunKeeps(w, step);
      case Starts(sessionId) => StartedKeeps(w, sessionId); StartsIs(w, sessionId);
      case Fails(sessionId) => FailsIs(w, sessionId); RollbackTakesOne(w, sessionId);
      case BeginHandoff(from, to) => BeginKeeps(w, from, to);
      case GoOn(i) => WaitingAt(w, i); GoOnKeeps(w, i);
      case RootHandoff(to) => RootKeeps(w, to);
      case Restore(found) => RestoringKeeps(w, found);
      case Close => CloseKeeps(w);
    }
  }

  lemma StartsIs(w: World, sessionId: string)
    requires Next(w, Starts(sessionId)).Some?
    ensures Next(w, Starts(sessionId)).value == w.(starting := w.starting - {sessionId})
  {
  }

  lemma FailsIs(w: World, sessionId: string)
    requires Next(w, Fails(sessionId)).Some?
    ensures sessionId in w.starting
  {
  }

  lemma WaitingAt(w: World, i: nat)
    requires Next(w, GoOn(i)).Some?
    ensures i < |w.moving|
  {
  }

  lemma RootKeeps(w: World, to: string)
    requires WorldOk(w) && Next(w, RootHandoff(to)).Some?
    ensures WorldOk(Next(w, RootHandoff(to)).value)
  {
    RootHandoffFollowed(w.registry, to);
    forall i | 0 <= i < |w.moving| ensures Waiting(RootMoved(w.registry, to), w.moving[i]) {
      assert Waiting(w.registry, w.moving[i]);
    }
  }

  lemma CloseKeeps(w: World)
    requires WorldOk(w)
    ensures WorldOk(w.(registry := Emptied(w.registry)))
    ensures Next(w, Close) == Some(w.(registry := Emptied(w.registry)))
  {
    forall i | 0 <= i < |w.moving| ensures Waiting(Emptied(w.registry), w.moving[i]) {
      assert Waiting(w.registry, w.moving[i]);
    }
  }

  lemma RestoringKeeps(w: World, found: seq<(nat, Runtime, Link)>)
    requires WorldOk(w) && Next(w, Restore(found)).Some?
    ensures WorldOk(Next(w, Restore(found)).value)
  {
    CloseKeeps(w);
    RestoreKeeps(w.(registry := Emptied(w.registry)), found);
  }

  /** Main result: after any run of child starts that succeed or are rolled back,
      and child handoffs, with anything between their two halves, root handoffs, restores and
      closes, the two tables have equal keys and no child's parent is left under an
      id that is no longer current. */
  lemma {:induction false} RegistryHolds(w: World, steps: seq<Step>)
    requires WorldOk(w) && RunAll(w, steps).Some?
    ensures WorldOk(RunAll(w, steps).value)
    decreases |steps|
  {
    hide Next, WorldOk;
    if steps != [] {
      StepKeeps(w, steps[0]);
      RegistryHolds(Next(w, steps[0]).value, steps[1..]);
    }
  }

  // ---- children and their links --------------------------------------------

  /** The runtimes and links that a step registers together. */
  function PairsIn(step: Step): set<(nat, Link)> {
    match step
    case Run(n, _, _, link) => {(n, link)}
    case Restore(found) => set i | 0 <= i < |found| :: (found[i].0, found[i].2)
    case _ => {}
  }

  function PairsOf(steps: seq<Step>): set<(nat, Link)> {
    if steps == [] then {} else PairsIn(steps[0]) + PairsOf(steps[1..])
  }

  /** Every registered child has the link that it was registered with. */
  ghost predicate Paired(g: Registry, pairs: set<(nat, Link)>) {
    forall k :: k in g.children ==> k in g.links && (g.children[k], g.links[k]) in pairs
  }

  lemma {:induction false} RestorePairs(g: Registry, found: seq<(nat, Runtime, Link)>)
    ensures Paired(AddedAll(Emptied(g), found), set i | 0 <= i < |found| :: (found[i].0, found[i].2))
    decreases |found|
  {
    if found != [] {
      var front, f := found[..|found| - 1], found[|found| - 1];
      RestorePairs(g, front);
      var a := set i | 0 <= i < |front| :: (front[i].0, front[i].2);
      var b := set i | 0 <= i < |found| :: (found[i].0, found[i].2);
      forall x | x in a ensures x in b {
        var i :| 0 <= i < |front| && (front[i].0, front[i].2) == x;
        assert found[i] == front[i];
      }
      assert (f.0, f.2) in b;
    }
  }

  lemma StepPairs(w: World, pairs: set<(nat, Link)>, step: Step)
    requires WorldOk(w) && Paired(w.registry, pairs) && Next(w, step).Some?
    ensures Paired(Next(w, step).value.registry, pairs + PairsIn(step))
  {
    hide Follow;
    match step {
      case Restore(found) => RestorePairs(w.registry, found);
      case GoOn(i) => assert Waiting(w.registry, w.moving[i]);
      case _ =>
    }
  }

  /** Main result: over any run of starts, handoffs, restores and closes, each
      registered child keeps the runtime and the link it was registered with. */
  lemma {:induction false} LinksStay(w: World, pairs: set<(nat, Link)>, steps: seq<Step>)
    requires WorldOk(w) && Paired(w.registry, pairs) && RunAll(w, steps).Some?
    ensures Paired(RunAll(w, steps).value.registry, pairs + PairsOf(steps))
    decreases |steps|
  {
    hide Next, WorldOk, Paired;
    if steps == [] {
      assert pairs + {} == pairs;
    } else {
      StepKeeps(w, steps[0]);
      StepPairs(w, pairs, steps[0]);
      LinksStay(Next(w, steps[0]).value, pairs + PairsIn(steps[0]), steps[1..]);
      assert pairs + PairsIn(steps[0]) + PairsOf(steps[1..]) == pairs + PairsOf(steps);
    }
  }

  /** A child is found under its id with its parent and its link as soon as its
      start is under way. */
  lemma RunIs(w: World, n: nat, sessionId: string, parent: string, link: Link)
    requires Next(w, Run(n, sessionId, parent, link)).Some?
    ensures var g, g' := w.registry, Next(w, Run(n, sessionId, parent, link)).value.registry;
            && sessionId !in g.children && g'.children.Keys == g.children.Keys + {sessionId} && g'.root == g.root
            && g'.children[sessionId] == n && g'.runtimes[n] == Runtime(sessionId, parent)
            && sessionId in g'.links && g'.links[sessionId] == link
            && forall k :: k in g.children ==> g'.children[k] == g.children[k]
  {
  }

  /** A handoff begins if and only if its child is registered, gets another id, and
      one that no child has; it is of that child and its link. */
  lemma HandoffBeginsIff(g: Registry, from: string, to: string)
    requires Inv(g)
    ensures var r := MoveBegun(g, from, to);
            && (r.Ok? <==> from in g.children && from != to && to !in g.children)
            && (r.Ok? ==> r.value == Moving(from, to, g.children[from], g.links[from]))
            && (r.Err? ==> r.error == (if from !in g.children then UnknownChild
                                       else if from == to then Unchanged else AlreadyRegistered))
  {
  }

  /** The child is found under its id, with its link and its parent. */
  predicate Registered(g: Registry, f: (nat, Runtime, Link)) {
    var id := f.1.sessionId;
    && id in g.children && g.children[id] == f.0 && id in g.links && g.links[id] == f.2
    && f.0 in g.runtimes && g.runtimes[f.0] == f.1
  }

  lemma StillRegistered(g: Registry, f: (nat, Runtime, Link), n: nat, child: Runtime, link: Link)
    requires Registered(g, f) && Fresh(g, n, child.sessionId, child.parent)
    ensures Registered(Added(g, n, child, link), f)
  {
  }

  lemma {:induction false} AddedAre(w: World, found: seq<(nat, Runtime, Link)>)
    requires AllFresh(w, found) && w.registry.children == map[]
    ensures var g := AddedAll(w.registry, found);
            && (forall i :: 0 <= i < |found| ==> Registered(g, found[i]))
            && (forall k :: k in g.children ==> exists i :: 0 <= i < |found| && found[i].1.sessionId == k)
    decreases |found|
  {
    hide Registered, Fresh;
    if found != [] {
      var front, f := found[..|found| - 1], found[|found| - 1];
      AddedAre(w, front);
      var g1, g := AddedAll(w.registry, front), AddedAll(w.registry, found);
      assert g == Added(g1, f.0, f.1, f.2);
      forall i | 0 <= i < |found| ensures Registered(g, found[i]) {
        if i < |front| {
          assert found[i] == front[i];
          StillRegistered(g1, front[i], f.0, f.1, f.2);
        } else {
          JustRegistered(g1, f);
        }
      }
      forall k | k in g.children ensures exists i :: 0 <= i < |found| && found[i].1.sessionId == k {
        if k in g1.children {
          var i :| 0 <= i < |front| && front[i].1.sessionId == k;
          assert found[i].1.sessionId == k;
        } else {
          assert found[|found| - 1].1.sessionId == k;
        }
      }
    }
  }

  lemma JustRegistered(g: Registry, f: (nat, Runtime, Link))
    ensures Registered(Added(g, f.0, f.1, f.2), f)
  {
  }

  /** Main result: a restore registers exactly the children it is given, each with
      its own link and parent; a close leaves none, and every handoff that waits
      changes nothing any more. */
  lemma RestoredAre(w: World, found: seq<(nat, Runtime, Link)>)
    ensures Next(w, Restore(found)).Some? ==>
              var g := Next(w, Restore(found)).value.registry;
              && (forall i :: 0 <= i < |found| ==> Registered(g, found[i]))
              && (forall k :: k in g.children ==> exists i :: 0 <= i < |found| && found[i].1.sessionId == k)
    ensures var closed := Next(w, Close).value;
            && (forall k :: k !in closed.registry.children && k !in closed.registry.links)
            && forall i :: 0 <= i < |w.moving| ==>
                 Next(closed, GoOn(i)).Some? && Next(closed, GoOn(i)).value.registry == closed.registry
  {
    if Next(w, Restore(found)).Some? { AddedAre(w.(registry := Emptied(w.registry)), found); }
  }
}
