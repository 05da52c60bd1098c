/** The patch layer: applying a patch, and turning the diff of two documents
    into a patch whose streaming texts are sent as `append`. */
module Patch {
  import opened Prelude
  import opened Json

  /** What the diff library hands over.  It may also emit moves, which the wire
      operation model does not have. */
  datatype RawOp = Standard(op: Op) | Move(source: Pointer, path: Pointer)

  datatype PatchError = InvalidOperation | PointerMissing

  predicate IsStandard(ops: seq<Op>) { forall i :: 0 <= i < |ops| ==> !ops[i].Append? }

  function Raw(ops: seq<Op>): seq<RawOp> { seq(|ops|, i requires 0 <= i < |ops| => Standard(ops[i])) }

  /** The rewritten form of one replace: an append of what its value adds to the
      text the source document holds there. */
  function Rewrite(source: Json, op: Op, appendPaths: set<Pointer>): Result<Op, PatchError> {
    if !op.Replace? || op.path !in appendPaths then Ok(op)
    else match Resolve(source, op.path)
      case None => Err(PointerMissing)
      case Some(previous) =>
        if previous.Str? && op.value.Str? && previous.s <= op.value.s
        then Ok(Append(op.path, Str(op.value.s[|previous.s|..])))
        else Ok(op)
  }

  function Make(source: Json, raw: seq<RawOp>, appendPaths: set<Pointer>): Result<seq<Op>, PatchError> {
    if raw == [] then Ok([])
    else match raw[0]
      case Move(_, _) => Err(InvalidOperation)
      case Standard(op) =>
        match Rewrite(source, op, appendPaths)
        case Err(e) => Err(e)
        case Ok(op') =>
          match Make(source, raw[1..], appendPaths)
          case Err(e) => Err(e)
          case Ok(rest) => Ok([op'] + rest)
  }

  // ---- the two loops -------------------------------------------------------

  lemma {:induction false} ApplySnoc(d: Json, ops: seq<Op>, op: Op)
    ensures Apply(d, ops + [op])
         == match Apply(d, ops) case None => None case Some(d') => ApplyOp(d', op)
    decreases |ops|
  {
    if ops == [] {
      assert ops + [op] == [op] && [op][1..] == [];
    } else {
      assert (ops + [op])[0] == ops[0] && (ops + [op])[1..] == ops[1..] + [op];
      match ApplyOp(d, ops[0]) {
        case None =>
        case Some(d') => ApplySnoc(d', ops[1..], op);
      }
    }
  }

  lemma {:induction false} ApplyFails(d: Json, ops: seq<Op>, n: nat)
    requires n <= |ops| && Apply(d, ops[..n]) == None
    ensures Apply(d, ops) == None
    decreases |ops|
  {
    if n > 0 {
      assert ops[..n][0] == ops[0] && ops[..n][1..] == ops[1..][..n - 1];
      match ApplyOp(d, ops[0]) {
        case None =>
        case Some(d') => ApplyFails(d', ops[1..], n - 1);
      }
    }
  }

  /** Operation by operation on a changing document; the first error rejects
      the whole patch and the caller's document is untouched. */
  method ApplyJsonPatch(value: Json, operations: seq<Op>) returns (r: Option<Json>)
    ensures r == Apply(value, operations)
  {
    var document := value;
    for i := 0 to |operations|
      invariant Apply(value, operations[..i]) == Some(document)
    {
      ApplySnoc(value, operations[..i], operations[i]);
      assert operations[..i + 1] == operations[..i] + [operations[i]];
      var patched := ApplyOp(document, operations[i]);
      if patched.None? {
        ApplyFails(value, operations, i + 1);
        return None;
      }
      document := patched.value;
    }
    assert operations[..|operations|] == operations;
    return Some(document);
  }

  method MakeJsonPatch(source: Json, raw: seq<RawOp>, appendPaths: set<Pointer>)
    returns (r: Result<seq<Op>, PatchError>)
    ensures r == Make(source, raw, appendPaths)
  {
    hide Make, Rewrite;
    var operations: seq<Op> := [];
    assert raw[0..] == raw;
    MadeStart(source, raw, appendPaths);
    for i := 0 to |raw|
      invariant MadeSoFar(source, raw, appendPaths, operations, i)
    {
      MadeStep(source, raw, appendPaths, operations, i);
      if raw[i].Move? { return Err(InvalidOperation); }
      var operation := Rewrite(source, raw[i].op, appendPaths);
      if operation.Err? { return Err(operation.error); }
      operations := operations + [operation.value];
    }
    MadeEnd(source, raw, appendPaths, operations);
    return Ok(operations);
  }

  /** The whole patch is what has been made, then what the rest makes. */
  ghost predicate MadeSoFar(source: Json, raw: seq<RawOp>, appendPaths: set<Pointer>, operations: seq<Op>, i: nat) {
    i <= |raw| && Make(source, raw, appendPaths) == Prefixed(operations, Make(source, raw[i..], appendPaths))
  }

  ghost function Prefixed(operations: seq<Op>, rest: Result<seq<Op>, PatchError>): Result<seq<Op>, PatchError> {
    match rest case Err(e) => Err(e) case Ok(ops) => Ok(operations + ops)
  }

  lemma MadeStart(source: Json, raw: seq<RawOp>, appendPaths: set<Pointer>)
    ensures MadeSoFar(source, raw, appendPaths, [], 0)
  {
    assert raw[0..] == raw;
    var made := Make(source, raw, appendPaths);
    if made.Ok? { assert [] + made.value == made.value; }
  }

  lemma MadeStep(source: Json, raw: seq<RawOp>, appendPaths: set<Pointer>, operations: seq<Op>, i: nat)
    requires i < |raw| && MadeSoFar(source, raw, appendPaths, operations, i)
    ensures raw[i].Move? ==> Make(source, raw, appendPaths) == Err(InvalidOperation)
    ensures raw[i].Standard? ==>
              match Rewrite(source, raw[i].op, appendPaths)
              case Err(e) => Make(source, raw, appendPaths) == Err(e)
              case Ok(op) => MadeSoFar(source, raw, appendPaths, operations + [op], i + 1)
  {
    hide Rewrite;
    assert raw[i..][0] == raw[i] && raw[i..][1..] == raw[i + 1..];
    var rest := Make(source, raw[i + 1..], appendPaths);
    if raw[i].Standard? && Rewrite(source, raw[i].op, appendPaths).Ok? && rest.Ok? {
      var op := Rewrite(source, raw[i].op, appendPaths).value;
      assert operations + ([op] + rest.value) == operations + [op] + rest.value;
    }
  }

  lemma MadeEnd(source: Json, raw: seq<RawOp>, appendPaths: set<Pointer>, operations: seq<Op>)
    requires MadeSoFar(source, raw, appendPaths, operations, |raw|)
    ensures Make(source, raw, appendPaths) == Ok(operations)
  {
    assert raw[|raw|..] == [] && operations + [] == operations;
  }

  // ---- what is made of a diff ----------------------------------------------

  /** A replace of a streaming text that has only grown since the source. */
  predicate HasGrown(source: Json, op: Op, appendPaths: set<Pointer>) {
    && op.Replace? && op.path in appendPaths && op.value.Str?
    && Resolve(source, op.path).Some? && Resolve(source, op.path).value.Str?
    && Resolve(source, op.path).value.s <= op.value.s
  }

  /** It is sent as what it adds, any other operation as it is. */
  predicate MadeAs(source: Json, op: Op, made: Op, appendPaths: set<Pointer>) {
    if HasGrown(source, op, appendPaths) then
      && made.Append? && made.path == op.path && made.value.Str?
      && Resolve(source, op.path).value.s + made.value.s == op.value.s
    else made == op
  }

  /** Not to be sent: a move, or a streaming text that the source does not have. */
  predicate Unsendable(source: Json, raw: RawOp, appendPaths: set<Pointer>) {
    raw.Move? || (raw.op.Replace? && raw.op.path in appendPaths && Resolve(source, raw.op.path).None?)
  }

  /** Main result: a patch is made if and only if every operation can be sent, each
      in its place, the streaming texts that grew by what they grew; otherwise the
      first one that cannot is the error. */
  lemma {:induction false} MadeIs(source: Json, raw: seq<RawOp>, appendPaths: set<Pointer>)
    ensures match Make(source, raw, appendPaths)
            case Ok(made) =>
              && |made| == |raw|
              && forall k :: 0 <= k < |raw| ==>
                   && raw[k].Standard? && !Unsendable(source, raw[k], appendPaths)
                   && MadeAs(source, raw[k].op, made[k], appendPaths)
            case Err(error) =>
              exists k :: 0 <= k < |raw| && Unsendable(source, raw[k], appendPaths)
                          && (forall j :: 0 <= j < k ==> !Unsendable(source, raw[j], appendPaths))
                          && error == if raw[k].Move? then InvalidOperation else PointerMissing
    decreases |raw|
  {
    hide Unsendable, MadeAs;
    if raw != [] {
      RewriteIs(source, raw[0], appendPaths);
      var rest := raw[1..];
      assert forall k :: 0 <= k < |rest| ==> rest[k] == raw[k + 1];
      MadeIs(source, rest, appendPaths);
      if !Unsendable(source, raw[0], appendPaths) {
        match Make(source, rest, appendPaths) {
          case Err(error) =>
            var k :| 0 <= k < |rest| && Unsendable(source, rest[k], appendPaths)
                     && (forall j :: 0 <= j < k ==> !Unsendable(source, rest[j], appendPaths))
                     && error == if rest[k].Move? then InvalidOperation else PointerMissing;
            forall j | 0 <= j < k + 1 ensures !Unsendable(source, raw[j], appendPaths) {
              if j > 0 { assert raw[j] == rest[j - 1]; }
            }
            assert Unsendable(source, raw[k + 1], appendPaths);
          case Ok(made) =>
            forall k | 0 <= k < |raw|
              ensures raw[k].Standard? && !Unsendable(source, raw[k], appendPaths)
                      && MadeAs(source, raw[k].op, Make(source, raw, appendPaths).value[k], appendPaths)
            {
              if k > 0 { assert raw[k] == rest[k - 1]; }
            }
        }
      } else {
        assert Make(source, raw, appendPaths).Err?;
      }
    }
  }

  lemma RewriteIs(source: Json, raw: RawOp, appendPaths: set<Pointer>)
    ensures Unsendable(source, raw, appendPaths)
       <==> raw.Move? || Rewrite(source, raw.op, appendPaths) == Err(PointerMissing)
    ensures raw.Move? ==> Unsendable(source, raw, appendPaths)
    ensures raw.Standard? ==>
              match Rewrite(source, raw.op, appendPaths)
              case Err(error) => error == PointerMissing
              case Ok(made) => MadeAs(source, raw.op, made, appendPaths)
  {
  }

  // ---- when the rewriting preserves the meaning of the diff ----------------

  /** The document after each operation, up to the first error. */
  function Run(d: Json, ops: seq<Op>): seq<Option<Json>>
    decreases |ops|
  {
    if ops == [] then []
    else
      var later := match ApplyOp(d, ops[0]) case None => [] case Some(d') => Run(d', ops[1..]);
      [ApplyOp(d, ops[0])] + later
  }

  /** Whenever a replace is about to be sent as an append, its pointer still
      resolves in the running document to what it resolved to in the source. */
  predicate StableAppends(source: Json, d: Json, raw: seq<Op>, appendPaths: set<Pointer>)
    decreases |raw|
  {
    raw != [] ==>
      && (Rewrite(source, raw[0], appendPaths) != Ok(raw[0])
          ==> Resolve(d, raw[0].path) == Resolve(source, raw[0].path))
      && match ApplyOp(d, raw[0]) case None => true case Some(d') => StableAppends(source, d', raw[1..], appendPaths)
  }

  /** One rewritten replace has the effect of the original exactly when its
      pointer resolves to the same value in the running document and the source. */
  lemma {:induction false} RewriteExact(source: Json, d: Json, op: Op, appendPaths: set<Pointer>)
    requires !op.Append? && ApplyOp(d, op).Some?
    requires Rewrite(source, op, appendPaths).Ok? && Rewrite(source, op, appendPaths).value != op
    ensures ApplyOp(d, Rewrite(source, op, appendPaths).value) == ApplyOp(d, op)
       <==> Resolve(d, op.path) == Resolve(source, op.path)
  {
    var previous := Resolve(source, op.path).value.s;
    var suffix := op.value.s[|previous|..];
    assert previous + suffix == op.value.s;
    PutIffResolves(d, op.path, op.value);
    PutThenResolve(d, op.path, op.value);
    match Resolve(d, op.path).value {
      case Str(current) =>
        PutIffResolves(d, op.path, Str(current + suffix));
        PutThenResolve(d, op.path, Str(current + suffix));
        if current + suffix == previous + suffix {
          assert current == (current + suffix)[..|current|] == previous;
        }
      case _ =>
    }
  }

  /** Main result.  For every diff that applies to its source, the patch with
      appends passes through the same documents as the diff if and only if no
      operation before an append changed what the append's pointer resolves to. */
  lemma {:induction false} MakePreservesMeaning(source: Json, d: Json, raw: seq<Op>, appendPaths: set<Pointer>)
    requires IsStandard(raw) && Apply(d, raw).Some?
    requires Make(source, Raw(raw), appendPaths).Ok?
    ensures Run(d, Make(source, Raw(raw), appendPaths).value) == Run(d, raw)
       <==> StableAppends(source, d, raw, appendPaths)
    decreases |raw|
  {
    if raw != [] {
      assert Raw(raw)[1..] == Raw(raw[1..]);
      var made := Make(source, Raw(raw), appendPaths).value;
      var op' := Rewrite(source, raw[0], appendPaths).value;
      assert made[0] == op' && made[1..] == Make(source, Raw(raw[1..]), appendPaths).value;
      var d' := ApplyOp(d, raw[0]).value;
      MakePreservesMeaning(source, d', raw[1..], appendPaths);
      if op' != raw[0] { RewriteExact(source, d, raw[0], appendPaths); }
      assert Run(d, raw)[0] == Some(d') && Run(d, raw)[1..] == Run(d', raw[1..]);
      assert Run(d, made)[0] == ApplyOp(d, op');
      if ApplyOp(d, op') == Some(d') {
        assert Run(d, made)[1..] == Run(d', made[1..]);
      }
    }
  }

  /** Patches that pass through the same documents end in the same one. */
  lemma {:induction false} SameRunSameResult(d: Json, a: seq<Op>, b: seq<Op>)
    requires |a| == |b| && Run(d, a) == Run(d, b)
    ensures Apply(d, a) == Apply(d, b)
    decreases |a|
  {
    if a != [] {
      assert Run(d, a)[0] == Run(d, b)[0];
      match ApplyOp(d, a[0]) {
        case None =>
        case Some(d') =>
          assert Run(d, a)[1..] == Run(d', a[1..]) && Run(d, b)[1..] == Run(d', b[1..]);
          SameRunSameResult(d', a[1..], b[1..]);
      }
    }
  }

  lemma {:induction false} MakeLength(source: Json, raw: seq<Op>, appendPaths: set<Pointer>)
    requires Make(source, Raw(raw), appendPaths).Ok?
    ensures |Make(source, Raw(raw), appendPaths).value| == |raw|
    decreases |raw|
  {
    if raw != [] {
      assert Raw(raw)[1..] == Raw(raw[1..]);
      MakeLength(source, raw[1..], appendPaths);
    }
  }

  /** The patch made from a correct diff takes the source to the target. */
  lemma MadePatchReachesTarget(source: Json, target: Json, raw: seq<Op>, appendPaths: set<Pointer>)
    requires IsStandard(raw) && Apply(source, raw) == Some(target)
    requires Make(source, Raw(raw), appendPaths).Ok?
    requires StableAppends(source, source, raw, appendPaths)
    ensures Apply(source, Make(source, Raw(raw), appendPaths).value) == Some(target)
  {
    MakePreservesMeaning(source, source, raw, appendPaths);
    MakeLength(source, raw, appendPaths);
    SameRunSameResult(source, Make(source, Raw(raw), appendPaths).value, raw);
  }

  // ---- a check on the pointers alone ---------------------------------------

  function EditOf(op: Op): Edit
    requires !op.Append? && !op.Test?
  {
    match op case Add(_, v) => Insert(v) case Replace(_, v) => Put(v) case Remove(_) => Delete
  }

  /** Each of the first n operations only tests, or edits apart from `q`. */
  predicate Untouched(d: Json, raw: seq<Op>, q: Pointer, n: nat)
    requires n <= |raw| && IsStandard(raw)
    decreases n
  {
    n != 0 ==>
      && (raw[0].Test? || Apart(d, raw[0].path, EditOf(raw[0]), q))
      && match ApplyOp(d, raw[0]) case None => true case Some(d') => Untouched(d', raw[1..], q, n - 1)
  }

  lemma {:induction false} UntouchedResolves(d: Json, raw: seq<Op>, q: Pointer, n: nat)
    requires n <= |raw| && IsStandard(raw) && Untouched(d, raw, q, n)
    requires Apply(d, raw[..n]).Some?
    ensures Resolve(Apply(d, raw[..n]).value, q) == Resolve(d, q)
    decreases n
  {
    if n > 0 {
      assert raw[..n][0] == raw[0] && raw[..n][1..] == raw[1..][..n - 1];
      var d' := ApplyOp(d, raw[0]).value;
      if !raw[0].Test? { EditFrame(d, raw[0].path, EditOf(raw[0]), q); }
      UntouchedResolves(d', raw[1..], q, n - 1);
    }
  }

  /** If every operation before an append stays apart from its pointer, the
      rewriting is safe. */
  lemma {:induction false} FirstTouchIsStable(source: Json, raw: seq<Op>, appendPaths: set<Pointer>, n: nat)
    requires n <= |raw| && IsStandard(raw) && Apply(source, raw[..n]).Some?
    requires forall k :: 0 <= k < |raw| && Rewrite(source, raw[k], appendPaths) != Ok(raw[k])
                     ==> Untouched(source, raw, raw[k].path, k)
    ensures StableAppends(source, Apply(source, raw[..n]).value, raw[n..], appendPaths)
    decreases |raw| - n
  {
    var d := Apply(source, raw[..n]).value;
    if n < |raw| {
      assert raw[n..][0] == raw[n] && raw[n..][1..] == raw[n + 1..];
      if Rewrite(source, raw[n], appendPaths) != Ok(raw[n]) {
        UntouchedResolves(source, raw, raw[n].path, n);
      }
      ApplySnoc(source, raw[..n], raw[n]);
      assert raw[..n + 1] == raw[..n] + [raw[n]];
      if ApplyOp(d, raw[n]).Some? {
        FirstTouchIsStable(source, raw, appendPaths, n + 1);
      }
    }
  }

  // ---- where it fails ------------------------------------------------------

  function TextBlock(t: string): Json { Obj(map["text" := Str(t)]) }

  lemma TextBlockAt(first: string, second: seq<Json>, t: string)
    ensures var d := Arr([TextBlock(first)] + second);
            && Resolve(d, ["0", "text"]) == Some(Str(first))
            && EditAt(d, ["0", "text"], Put(Str(t))) == Some(Arr([TextBlock(t)] + second))
  {
    var d := Arr([TextBlock(first)] + second);
    assert Decimal("0") == 0 && IsIndex("0") by { assert "0"[..0] == ""; }
    assert Child(d, "0") == Some(TextBlock(first));
    assert ["0", "text"][1..] == ["text"] && ["text"][1..] == [];
    assert Resolve(TextBlock(first), ["text"]) == Resolve(Str(first), []);
    assert EditAt(Str(first), [], Put(Str(t))) == Some(Str(t));
    assert TextBlock(first).fields["text" := Str(t)] == TextBlock(t).fields;
    assert EditAt(TextBlock(first), ["text"], Put(Str(t))) == Some(TextBlock(t));
    assert ([TextBlock(first)] + second)[0 := TextBlock(t)] == [TextBlock(t)] + second;
  }

  const TEXT_PATH: Pointer := ["0", "text"]

  lemma {:induction false} ApplyTwo(d: Json, first: Op, second: Op)
    requires ApplyOp(d, first).Some?
    ensures Apply(d, [first, second]) == ApplyOp(ApplyOp(d, first).value, second)
  {
    var d' := ApplyOp(d, first).value;
    assert [first, second][1..] == [second] && [second][1..] == [];
    assert Apply(d', [second]) == match ApplyOp(d', second) case None => None case Some(e) => Apply(e, []);
  }

  lemma {:induction false} MakeTwo(source: Json, first: Op, second: Op, appendPaths: set<Pointer>)
    requires Rewrite(source, first, appendPaths).Ok? && Rewrite(source, second, appendPaths).Ok?
    ensures Make(source, Raw([first, second]), appendPaths)
         == Ok([Rewrite(source, first, appendPaths).value, Rewrite(source, second, appendPaths).value])
  {
    var a, b := Rewrite(source, first, appendPaths).value, Rewrite(source, second, appendPaths).value;
    assert Raw([first, second])[1..] == Raw([second]) && Raw([second])[1..] == [];
    assert Make(source, [], appendPaths) == Ok([]);
    assert Make(source, Raw([second]), appendPaths) == Ok([b] + []);
    assert [a] + ([b] + []) == [a, b];
  }

  /** A diff that inserts a block before a streamed one and then replaces the
      text at the first position: the append lands on the inserted text. */
  lemma {:induction false} AppendAfterInsertGoesWrong()
    ensures var source, target := Arr([TextBlock("a")]), Arr([TextBlock("ab"), TextBlock("a")]);
            var raw := [Add(["0"], TextBlock("q")), Replace(TEXT_PATH, Str("ab"))];
            && Apply(source, raw) == Some(target)
            && Make(source, Raw(raw), {TEXT_PATH}).Ok?
            && Apply(source, Make(source, Raw(raw), {TEXT_PATH}).value)
               == Some(Arr([TextBlock("qb"), TextBlock("a")]))
            && TextBlock("qb") != TextBlock("ab")
  {
    hide Apply, Make, ApplyOp, Rewrite;
    var tail := [TextBlock("a")];
    var source, mid := Arr([TextBlock("a")] + []), Arr([TextBlock("q")] + tail);
    var first, second := Add(["0"], TextBlock("q")), Replace(TEXT_PATH, Str("ab"));
    var append := Append(TEXT_PATH, Str("b"));
    assert source == Arr([TextBlock("a")]);
    InsertedFirst(source, first, mid, tail);
    RewrittenText(source, first, second, append);
    TextsPut(mid, tail, second, append);
    ApplyTwo(source, first, second);
    ApplyTwo(source, first, append);
    MakeTwo(source, first, second, {TEXT_PATH});
    assert [TextBlock("ab")] + tail == [TextBlock("ab"), TextBlock("a")];
    assert [TextBlock("qb")] + tail == [TextBlock("qb"), TextBlock("a")];
    assert TextBlock("ab").fields["text"] != TextBlock("qb").fields["text"] by { assert "ab"[0] != "qb"[0]; }
  }

  lemma InsertedFirst(source: Json, first: Op, mid: Json, tail: seq<Json>)
    requires source == Arr(tail) && first == Add(["0"], TextBlock("q")) && mid == Arr([TextBlock("q")] + tail)
    ensures ApplyOp(source, first) == Some(mid)
  {
    assert Decimal("0") == 0 && IsIndex("0") by { assert "0"[..0] == ""; }
    assert tail[..0] + [TextBlock("q")] + tail[0..] == [TextBlock("q")] + tail;
  }

  lemma RewrittenText(source: Json, first: Op, second: Op, append: Op)
    requires source == Arr([TextBlock("a")] + []) && first.Add?
    requires second == Replace(TEXT_PATH, Str("ab")) && append == Append(TEXT_PATH, Str("b"))
    ensures Rewrite(source, first, {TEXT_PATH}) == Ok(first) && Rewrite(source, second, {TEXT_PATH}) == Ok(append)
  {
    TextBlockAt("a", [], "ab");
    assert "a" <= "ab" && "ab"[1..] == "b";
  }

  lemma TextsPut(mid: Json, tail: seq<Json>, second: Op, append: Op)
    requires mid == Arr([TextBlock("q")] + tail)
    requires second == Replace(TEXT_PATH, Str("ab")) && append == Append(TEXT_PATH, Str("b"))
    ensures ApplyOp(mid, second) == Some(Arr([TextBlock("ab")] + tail))
    ensures ApplyOp(mid, append) == Some(Arr([TextBlock("qb")] + tail))
  {
    TextBlockAt("q", tail, "ab");
    TextBlockAt("q", tail, "qb");
    assert "q" + "b" == "qb";
  }
}
