/** The execution slot of a session: one owner at a time, and releases that may
    come more than once. */
module Execution {
  import opened Prelude

  datatype Kind = Lifecycle | TurnRun | Teleport | Shell

  datatype Owner = Owner(kind: Kind, id: string)

  class SessionExecution {
    var active: Option<Owner>

    constructor ()
      ensures active == None
    {
      active := None;
    }

    method Begin(kind: Kind, id: string) returns (r: Result<Owner, Owner>)
      modifies this
      ensures match old(active)
              case Some(owner) => r == Err(owner)
              case None => r == Ok(Owner(kind, id))
      ensures active == Taken(old(active), Owner(kind, id))
    {
      if active.Some? { return Err(active.value); }
      var owner := Owner(kind, id);
      active := Some(owner);
      return Ok(owner);
    }

    /** Releases the slot if it is this owner's. */
    method Finish(owner: Owner)
      modifies this
      ensures active == Released(old(active), owner)
    {
      if active == Some(owner) { active := None; }
    }
  }

  /** Only a free slot can be taken. */
  function Taken(slot: Option<Owner>, owner: Owner): Option<Owner> {
    if slot.None? then Some(owner) else slot
  }

  function Released(slot: Option<Owner>, owner: Owner): Option<Owner> {
    if slot == Some(owner) then None else slot
  }

  // ---- over whole runs -----------------------------------------------------

  datatype Op = Begin(owner: Owner) | Finish(owner: Owner)

  /** Who has the slot after these operations; a begin on a taken slot fails. */
  function Slot(ops: seq<Op>): Option<Owner> {
    if ops == [] then None
    else
      var before, last := Slot(ops[..|ops| - 1]), ops[|ops| - 1];
      if last.Finish? then Released(before, last.owner) else Taken(before, last.owner)
  }

  /** The owner began on a free slot and has not finished since. */
  predicate Holds(ops: seq<Op>, o: Owner) {
    exists i :: 0 <= i < |ops| && ops[i] == Begin(o) && Slot(ops[..i]).None? && Unfinished(ops, i, o)
  }

  predicate Unfinished(ops: seq<Op>, from: nat, o: Owner) {
    forall j :: from < j < |ops| ==> ops[j] != Finish(o)
  }

  /** Main result: the slot is an owner's exactly while the owner holds it, so no
      two owners ever hold it together. */
  lemma {:induction false} SlotIsHolders(ops: seq<Op>, o: Owner)
    ensures Slot(ops) == Some(o) <==> Holds(ops, o)
    decreases |ops|
  {
    if ops != [] {
      var n := |ops| - 1;
      var front, last := ops[..n], ops[n];
      SlotIsHolders(front, o);
      forall i | 0 <= i <= n ensures ops[..i] == front[..i] { }
      if Holds(front, o) && last != Finish(o) {
        var i :| 0 <= i < |front| && front[i] == Begin(o) && Slot(front[..i]).None? && Unfinished(front, i, o);
        assert ops[i] == Begin(o) && Unfinished(ops, i, o);
      }
      if Slot(ops) == Some(o) && Slot(front) != Some(o) {
        assert ops[n] == Begin(o) && ops[..n] == front && Unfinished(ops, n, o);
      }
      if Holds(ops, o) {
        var i :| 0 <= i < |ops| && ops[i] == Begin(o) && Slot(ops[..i]).None? && Unfinished(ops, i, o);
        if i < n {
          assert front[i] == Begin(o) && Unfinished(front, i, o);
          assert ops[n] != Finish(o);
        }
      }
    }
  }

  lemma OneHolder(ops: seq<Op>, o: Owner, p: Owner)
    requires Holds(ops, o) && Holds(ops, p)
    ensures o == p
  {
    SlotIsHolders(ops, o);
    SlotIsHolders(ops, p);
  }

  /** Main result: a further finish, after an owner's own, takes the slot from
      somebody exactly when that same owner has begun again in between. */
  lemma LateFinishEvicts(ops: seq<Op>, k: nat, o: Owner)
    requires k < |ops| && ops[k] == Finish(o)
    ensures Slot(ops + [Finish(o)]) != Slot(ops)
       <==> exists i :: k < i < |ops| && ops[i] == Begin(o) && Slot(ops[..i]).None? && Unfinished(ops, i, o)
  {
    var all := ops + [Finish(o)];
    assert all[..|all| - 1] == ops;
    SlotIsHolders(ops, o);
    if Holds(ops, o) {
      var i :| 0 <= i < |ops| && ops[i] == Begin(o) && Slot(ops[..i]).None? && Unfinished(ops, i, o);
      assert i > k;
    }
  }

  /** So with ids that are never reused no repeated finish evicts anybody. */
  lemma FreshIdsAreSafe(ops: seq<Op>, k: nat, o: Owner)
    requires k < |ops| && ops[k] == Finish(o)
    requires forall i, j :: 0 <= i < j < |ops| && ops[i].Begin? && ops[j].Begin? ==> ops[i].owner != ops[j].owner
    requires exists i :: 0 <= i < k && ops[i] == Begin(o)
    ensures Slot(ops + [Finish(o)]) == Slot(ops)
  {
    LateFinishEvicts(ops, k, o);
    var i :| 0 <= i < k && ops[i] == Begin(o);
    forall j | k < j < |ops| ensures ops[j] != Begin(o) { assert ops[i] == Begin(o); }
  }
}
