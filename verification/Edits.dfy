/** What each operation of a patch leaves at the place it names, and when it is
    rejected. */
module Edits {
  import opened Prelude
  import opened Json

  /** An edit of a member is a put of its parent, edited. */
  lemma {:induction false} EditsParent(d: Json, parent: Pointer, token: string, edit: Edit)
    requires !edit.Put?
    ensures EditAt(d, parent + [token], edit)
         == match Resolve(d, parent)
            case None => None
            case Some(c) =>
              match EditChild(c, token, edit) case None => None case Some(c') => EditAt(d, parent, Put(c'))
    decreases |parent|
  {
    var path := parent + [token];
    if parent == [] {
      assert path == [token];
    } else {
      assert path[0] == parent[0] && path[1..] == parent[1..] + [token] && |path| > 1;
      if Child(d, parent[0]).Some? { EditsParent(Child(d, parent[0]).value, parent[1..], token, edit); }
    }
  }

  /** One more member, or another value for one there is. */
  predicate MemberSet(before: map<string, Json>, after: map<string, Json>, token: string, v: Json) {
    && after.Keys == before.Keys + {token} && after[token] == v
    && forall k :: k in before && k != token ==> after[k] == before[k]
  }

  /** One more item at i; those from there on move up by one. */
  predicate ItemInserted(before: seq<Json>, after: seq<Json>, i: nat, v: Json) {
    && i <= |before| && |after| == |before| + 1 && after[i] == v
    && (forall k :: 0 <= k < i ==> after[k] == before[k])
    && (forall k :: i <= k < |before| ==> after[k + 1] == before[k])
  }

  predicate MemberGone(before: map<string, Json>, after: map<string, Json>, token: string) {
    && token in before && after.Keys == before.Keys - {token} && forall k :: k in after ==> after[k] == before[k]
  }

  predicate ItemGone(before: seq<Json>, after: seq<Json>, i: nat) {
    && i < |before| && |after| == |before| - 1
    && (forall k :: 0 <= k < i ==> after[k] == before[k])
    && (forall k :: i < k < |before| ==> after[k - 1] == before[k])
  }

  /** Where an array takes a new item. */
  predicate Insertable(items: seq<Json>, token: string) {
    token == "-" || (IsIndex(token) && Decimal(token) <= |items|)
  }

  /** An addition is rejected without a parent that can take it; otherwise the
      parent has the value there, and what else it had. */
  lemma AddIs(d: Json, parent: Pointer, token: string, v: Json)
    ensures var after := ApplyOp(d, Add(parent + [token], v));
            match Resolve(d, parent)
            case Some(Obj(fields)) =>
              && after.Some? && Resolve(after.value, parent).Some? && Resolve(after.value, parent).value.Obj?
              && MemberSet(fields, Resolve(after.value, parent).value.fields, token, v)
            case Some(Arr(items)) =>
              && (after.Some? <==> Insertable(items, token))
              && (after.Some? ==>
                    && Resolve(after.value, parent).Some? && Resolve(after.value, parent).value.Arr?
                    && ItemInserted(items, Resolve(after.value, parent).value.items,
                                    if token == "-" then |items| else Decimal(token), v))
            case _ => after == None
  {
    EditsParent(d, parent, token, Insert(v));
    ParentPut(d, parent, token, Insert(v));
  }

  /** A removal needs the member or the item. */
  lemma RemoveIs(d: Json, parent: Pointer, token: string)
    ensures var after := ApplyOp(d, Remove(parent + [token]));
            match Resolve(d, parent)
            case Some(Obj(fields)) =>
              && (after.Some? <==> token in fields)
              && (after.Some? ==>
                    && Resolve(after.value, parent).Some? && Resolve(after.value, parent).value.Obj?
                    && MemberGone(fields, Resolve(after.value, parent).value.fields, token))
            case Some(Arr(items)) =>
              && (after.Some? <==> IsIndex(token) && Decimal(token) < |items|)
              && (after.Some? ==>
                    && Resolve(after.value, parent).Some? && Resolve(after.value, parent).value.Arr?
                    && ItemGone(items, Resolve(after.value, parent).value.items, Decimal(token)))
            case _ => after == None
  {
    EditsParent(d, parent, token, Delete);
    ParentPut(d, parent, token, Delete);
  }

  /** The edited parent is put where it was. */
  lemma ParentPut(d: Json, parent: Pointer, token: string, edit: Edit)
    requires !edit.Put?
    ensures var c := Resolve(d, parent);
            c.Some? && EditChild(c.value, token, edit).Some? ==>
              && EditAt(d, parent + [token], edit).Some?
              && Resolve(EditAt(d, parent + [token], edit).value, parent) == EditChild(c.value, token, edit)
  {
    EditsParent(d, parent, token, edit);
    var c := Resolve(d, parent);
    if c.Some? && EditChild(c.value, token, edit).Some? {
      var c' := EditChild(c.value, token, edit).value;
      PutIffResolves(d, parent, c');
      PutThenResolve(d, parent, c');
    }
  }

  /** The operations on a value that is there: replaced, extended, or compared. */
  lemma ValueIs(d: Json, path: Pointer, v: Json)
    ensures var after := ApplyOp(d, Replace(path, v));
            && (after.Some? <==> Resolve(d, path).Some?)
            && (after.Some? ==> Resolve(after.value, path) == Some(v))
    ensures var after := ApplyOp(d, Append(path, v));
            && (after.Some? <==> Resolve(d, path).Some? && Resolve(d, path).value.Str? && v.Str?)
            && (after.Some? ==> Resolve(after.value, path) == Some(Str(Resolve(d, path).value.s + v.s)))
    ensures ApplyOp(d, Test(path, v)) == if Resolve(d, path) == Some(v) then Some(d) else None
  {
    PutIffResolves(d, path, v);
    if Resolve(d, path).Some? {
      PutThenResolve(d, path, v);
      if Resolve(d, path).value.Str? && v.Str? {
        var joined := Str(Resolve(d, path).value.s + v.s);
        PutIffResolves(d, path, joined);
        PutThenResolve(d, path, joined);
      }
    }
  }

  /** The whole document is replaced or added, never removed. */
  lemma WholeIs(d: Json, v: Json)
    ensures ApplyOp(d, Add([], v)) == Some(v) && ApplyOp(d, Replace([], v)) == Some(v)
    ensures ApplyOp(d, Remove([])) == None
  {
  }

  /** The edit an operation makes, the value it puts aside. */
  function EditBy(op: Op): Edit {
    match op
    case Add(_, v) => Insert(v)
    case Remove(_) => Delete
    case _ => Put(Null)
  }

  lemma {:induction false} SamePutsApart(d: Json, p: Pointer, v: Json, w: Json, q: Pointer)
    ensures Apart(d, p, Put(v), q) <==> Apart(d, p, Put(w), q)
    decreases |p|
  {
    if p != [] && q != [] && p[0] == q[0] && Child(d, p[0]).Some? {
      SamePutsApart(Child(d, p[0]).value, p[1..], v, w, q[1..]);
    }
  }

  /** Main result: whatever a pointer apart from the operation's resolved to, it
      still does. */
  lemma ElsewhereStays(d: Json, op: Op, q: Pointer)
    requires ApplyOp(d, op).Some? && Apart(d, op.path, EditBy(op), q)
    ensures Resolve(ApplyOp(d, op).value, q) == Resolve(d, q)
  {
    hide Apart;
    match op {
      case Add(path, v) => EditFrame(d, path, Insert(v), q);
      case Remove(path) => EditFrame(d, path, Delete, q);
      case Replace(path, v) =>
        SamePutsApart(d, path, Null, v, q);
        EditFrame(d, path, Put(v), q);
      case Append(path, v) =>
        var joined := Str(Resolve(d, path).value.s + v.s);
        SamePutsApart(d, path, Null, joined, q);
        EditFrame(d, path, Put(joined), q);
      case Test(_, _) =>
    }
  }
}
