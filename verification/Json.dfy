/** JSON documents, JSON Pointer (section 4 of RFC 6901) and the operations of
    JSON Patch (section 4 of RFC 6902) the app server uses, plus its private
    `append`.  A pointer is its list of already unescaped reference tokens. */
module Json {
  import opened Prelude

  datatype Json =
    | Null
    | Bool(b: bool)
    | Num(n: int)
    | Str(s: string)
    | Arr(items: seq<Json>)
    | Obj(fields: map<string, Json>)

  type Pointer = seq<string>

  // ---- array indices -------------------------------------------------------

  predicate IsDigit(c: char) { '0' <= c <= '9' }

  /** An array index has no sign and no leading zero. */
  predicate IsIndex(token: string) {
    && token != ""
    && (forall i :: 0 <= i < |token| ==> IsDigit(token[i]))
    && (token[0] == '0' ==> |token| == 1)
  }

  function Decimal(token: string): nat
    requires forall i :: 0 <= i < |token| ==> IsDigit(token[i])
  {
    if token == "" then 0
    else
      assert IsDigit(token[|token| - 1]);
      10 * Decimal(token[..|token| - 1]) + (token[|token| - 1] as int - '0' as int)
  }

  lemma {:induction false} DecimalPositive(token: string)
    requires IsIndex(token) && token[0] != '0'
    ensures Decimal(token) > 0
  {
    var front := token[..|token| - 1];
    if front != "" {
      assert IsIndex(front) && front[0] != '0';
      DecimalPositive(front);
    }
  }

  /** Two tokens that name the same array index are the same token. */
  lemma {:induction false} DecimalInjective(a: string, b: string)
    requires IsIndex(a) && IsIndex(b) && Decimal(a) == Decimal(b)
    ensures a == b
  {
    var fa, fb := a[..|a| - 1], b[..|b| - 1];
    var la, lb := a[|a| - 1] as int - '0' as int, b[|b| - 1] as int - '0' as int;
    assert 10 * Decimal(fa) + la == 10 * Decimal(fb) + lb;
    assert Decimal(fa) == Decimal(fb) && la == lb;
    assert a == fa + [a[|a| - 1]] && b == fb + [b[|b| - 1]];
    if fa != "" { assert IsIndex(fa) && fa[0] != '0'; DecimalPositive(fa); }
    if fb != "" { assert IsIndex(fb) && fb[0] != '0'; DecimalPositive(fb); }
    if fa != "" && fb != "" {
      DecimalInjective(fa, fb);
    }
  }

  // ---- pointers ------------------------------------------------------------

  function Child(d: Json, token: string): Option<Json> {
    match d
    case Obj(fields) => if token in fields then Some(fields[token]) else None
    case Arr(items) =>
      if IsIndex(token) && Decimal(token) < |items| then Some(items[Decimal(token)]) else None
    case _ => None
  }

  function Resolve(d: Json, path: Pointer): Option<Json> {
    if path == [] then Some(d)
    else match Child(d, path[0])
      case None => None
      case Some(c) => Resolve(c, path[1..])
  }

  function WithChild(d: Json, token: string, c: Json): Json
    requires Child(d, token).Some?
  {
    match d
    case Obj(fields) => Obj(fields[token := c])
    case Arr(items) => Arr(items[Decimal(token) := c])
  }

  /** What an operation does to the value its pointer names. */
  datatype Edit = Put(value: Json) | Insert(value: Json) | Delete

  function EditChild(d: Json, token: string, edit: Edit): Option<Json>
    requires !edit.Put?
  {
    match (d, edit)
    case (Obj(fields), Insert(v)) => Some(Obj(fields[token := v]))
    case (Obj(fields), Delete) => if token in fields then Some(Obj(fields - {token})) else None
    case (Arr(items), Insert(v)) =>
      if token == "-" then Some(Arr(items + [v]))
      else if IsIndex(token) && Decimal(token) <= |items|
        then Some(Arr(items[..Decimal(token)] + [v] + items[Decimal(token)..]))
        else None
    case (Arr(items), Delete) =>
      if IsIndex(token) && Decimal(token) < |items|
      then Some(Arr(items[..Decimal(token)] + items[Decimal(token) + 1..]))
      else None
    case _ => None
  }

  function EditAt(d: Json, path: Pointer, edit: Edit): Option<Json> {
    if path == [] then
      if edit.Delete? then None else Some(edit.value)
    else if |path| == 1 && !edit.Put? then EditChild(d, path[0], edit)
    else match Child(d, path[0])
      case None => None
      case Some(c) =>
        match EditAt(c, path[1..], edit)
        case None => None
        case Some(c') => Some(WithChild(d, path[0], c'))
  }

  // ---- operations ----------------------------------------------------------

  datatype Op =
    | Add(path: Pointer, value: Json)
    | Replace(path: Pointer, value: Json)
    | Remove(path: Pointer)
    | Test(path: Pointer, value: Json)
    | Append(path: Pointer, value: Json)

  /** One operation on a document; None is the error that rejects the patch. */
  function ApplyOp(d: Json, op: Op): Option<Json> {
    match op
    case Add(path, v) => EditAt(d, path, Insert(v))
    case Replace(path, v) => EditAt(d, path, Put(v))
    case Remove(path) => EditAt(d, path, Delete)
    case Test(path, v) => if Resolve(d, path) == Some(v) then Some(d) else None
    case Append(path, v) =>
      match (Resolve(d, path), v)
      case (Some(Str(current)), Str(suffix)) => EditAt(d, path, Put(Str(current + suffix)))
      case _ => None
  }

  function Apply(d: Json, ops: seq<Op>): Option<Json>
    decreases |ops|
  {
    if ops == [] then Some(d)
    else match ApplyOp(d, ops[0])
      case None => None
      case Some(d') => Apply(d', ops[1..])
  }

  // ---- what an operation leaves alone --------------------------------------

  /** The value at `q` is out of reach of an edit at `p`: the two part ways
      somewhere, and not at an array whose later elements the edit shifts. */
  predicate Apart(d: Json, p: Pointer, edit: Edit, q: Pointer) {
    && p != [] && q != []
    && if p[0] != q[0] then |p| > 1 || edit.Put? || d.Obj?
       else match Child(d, p[0]) case None => false case Some(c) => Apart(c, p[1..], edit, q[1..])
  }

  lemma {:induction false} EditFrame(d: Json, p: Pointer, edit: Edit, q: Pointer)
    requires Apart(d, p, edit, q)
    requires EditAt(d, p, edit).Some?
    ensures Resolve(EditAt(d, p, edit).value, q) == Resolve(d, q)
  {
    var d' := EditAt(d, p, edit).value;
    if p[0] == q[0] {
      var c := Child(d, p[0]).value;
      assert |p| > 1;
      EditFrame(c, p[1..], edit, q[1..]);
      assert Child(d', q[0]) == EditAt(c, p[1..], edit);
    } else {
      if d.Arr? && IsIndex(p[0]) && IsIndex(q[0]) && Decimal(p[0]) == Decimal(q[0]) {
        DecimalInjective(p[0], q[0]);
      }
      assert Child(d', q[0]) == Child(d, q[0]);
    }
  }

  /** What a successful put leaves at its own pointer. */
  lemma {:induction false} PutThenResolve(d: Json, p: Pointer, v: Json)
    requires EditAt(d, p, Put(v)).Some?
    ensures Resolve(EditAt(d, p, Put(v)).value, p) == Some(v)
  {
    if p != [] {
      var c := Child(d, p[0]).value;
      PutThenResolve(c, p[1..], v);
      assert Child(EditAt(d, p, Put(v)).value, p[0]) == EditAt(c, p[1..], Put(v));
    }
  }

  /** A put succeeds exactly where the pointer resolves. */
  lemma {:induction false} PutIffResolves(d: Json, p: Pointer, v: Json)
    ensures EditAt(d, p, Put(v)).Some? <==> Resolve(d, p).Some?
  {
    if p != [] && Child(d, p[0]).Some? {
      PutIffResolves(Child(d, p[0]).value, p[1..], v);
    }
  }
}
