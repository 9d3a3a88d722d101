/**
  Overlaying one JSON tree on another: compute the difference, drop its remove operations and
  apply what is left (sections 4.1 to 4.3 of RFC 6902), and the recursive merge it amounts to.
 */
module Overlay {
  import opened Basics
  import opened Json
  import opened Ordering

  datatype Step = Key(key: string) | Idx(idx: nat)

  datatype Op =
    | Add(path: seq<Step>, value: Json)
    | Replace(path: seq<Step>, value: Json)
    | Remove(path: seq<Step>)

  // ------------------------------------------------------------------ the difference

  /** The operations of a difference inside one member, with their paths extended. */
  function Inside(s: Step, ops: seq<Op>): (r: seq<Op>)
    ensures |r| == |ops|
    ensures forall i | 0 <= i < |ops| :: r[i] == ops[i].(path := [s] + ops[i].path)
  {
    seq(|ops|, i requires 0 <= i < |ops| => ops[i].(path := [s] + ops[i].path))
  }

  /** jsonpatch::from_diff: what turns `a` into `b`, member by member. */
  function Diff(a: Json, b: Json): seq<Op>
    decreases b, 1, 0
  {
    if a == b then []
    else if a.Arr? && b.Arr? then
      DiffItems(a.items, b, 0) + RemoveItems(|b.items|, |a.items|) + AddItems(b.items, |a.items|)
    else if a.Obj? && b.Obj? then
      DiffFields(a.fields, b, SortedKeys(a.fields.Keys))
      + AddFields(b.fields, SortedKeys(b.fields.Keys - a.fields.Keys))
    else [Replace([], b)]
  }

  /** The common elements of two arrays, from index `i` on. */
  function DiffItems(a: seq<Json>, b: Json, i: nat): seq<Op>
    requires b.Arr?
    decreases b, 0, |a| - i
  {
    if i >= |a| || i >= |b.items| then []
    else Inside(Idx(i), Diff(a[i], b.items[i])) + DiffItems(a, b, i + 1)
  }

  /** Elements beyond the new length, removed from the end. */
  function RemoveItems(n: nat, len: nat): seq<Op>
    decreases len
  {
    if len <= n then [] else [Remove([Idx(len - 1)])] + RemoveItems(n, len - 1)
  }

  function AddItems(b: seq<Json>, i: nat): seq<Op>
    decreases |b| - i
  {
    if i >= |b| then [] else [Add([Idx(i)], b[i])] + AddItems(b, i + 1)
  }

  /** The members of the old object: different ones inside, missing ones removed. */
  function DiffFields(a: map<string, Json>, b: Json, keys: seq<string>): seq<Op>
    requires b.Obj? && forall k | k in keys :: k in a
    decreases b, 0, |keys|
  {
    if keys == [] then []
    else
      var k := keys[0];
      (if k in b.fields then Inside(Key(k), Diff(a[k], b.fields[k])) else [Remove([Key(k)])])
      + DiffFields(a, b, keys[1..])
  }

  function AddFields(b: map<string, Json>, keys: seq<string>): seq<Op>
    requires forall k | k in keys :: k in b
    decreases |keys|
  {
    if keys == [] then [] else [Add([Key(keys[0])], b[keys[0]])] + AddFields(b, keys[1..])
  }

  /** The filter of updateJsonTree. */
  function DropRemoves(ops: seq<Op>): seq<Op> {
    if ops == [] then [] else (if ops[0].Remove? then [] else [ops[0]]) + DropRemoves(ops[1..])
  }

  // ------------------------------------------------------------------ applying a patch

  function InsertAt(items: seq<Json>, i: nat, v: Json): seq<Json>
    requires i <= |items|
  {
    items[..i] + [v] + items[i..]
  }

  /** One operation; None is the error code of apply_patch. */
  function ApplyOne(doc: Json, op: Op): Option<Json>
    decreases |op.path|
  {
    if op.path == [] then
      match op case Add(_, v) => Some(v) case Replace(_, v) => Some(v) case Remove(_) => None
    else if |op.path| == 1 then ApplyMember(doc, op)
    else
      match op.path[0]
      case Key(k) =>
        if doc.Obj? && k in doc.fields then
          match ApplyOne(doc.fields[k], op.(path := op.path[1..]))
          case Some(v) => Some(Obj(doc.fields[k := v]))
          case None => None
        else None
      case Idx(i) =>
        if doc.Arr? && i < |doc.items| then
          match ApplyOne(doc.items[i], op.(path := op.path[1..]))
          case Some(v) => Some(Arr(doc.items[i := v]))
          case None => None
        else None
  }

  function ApplyMember(doc: Json, op: Op): Option<Json>
    requires |op.path| == 1
  {
    match op.path[0]
    case Key(k) =>
      if !doc.Obj? then None
      else (match op
            case Add(_, v) => Some(Obj(doc.fields[k := v]))
            case Replace(_, v) => if k in doc.fields then Some(Obj(doc.fields[k := v])) else None
            case Remove(_) => if k in doc.fields then Some(Obj(doc.fields - {k})) else None)
    case Idx(i) =>
      if !doc.Arr? then None
      else (match op
            case Add(_, v) => if i <= |doc.items| then Some(Arr(InsertAt(doc.items, i, v))) else None
            case Replace(_, v) => if i < |doc.items| then Some(Arr(doc.items[i := v])) else None
            case Remove(_) =>
              if i < |doc.items| then Some(Arr(doc.items[..i] + doc.items[i + 1..])) else None)
  }

  function ApplyAll(doc: Json, ops: seq<Op>): Option<Json>
    decreases |ops|
  {
    if ops == [] then Some(doc)
    else match ApplyOne(doc, ops[0]) case Some(d) => ApplyAll(d, ops[1..]) case None => None
  }

  // ------------------------------------------------------------------ the merge

  /**
    The overlay wins: objects are merged member by member, arrays element by element (keeping
    what the old array has beyond the new one), everything else is replaced.
   */
  function Merge(a: Json, b: Json): Json
    decreases b
  {
    if a.Obj? && b.Obj? then
      Obj(map k | k in a.fields.Keys + b.fields.Keys ::
            if k in a.fields && k in b.fields then Merge(a.fields[k], b.fields[k])
            else if k in b.fields then b.fields[k] else a.fields[k])
    else if a.Arr? && b.Arr? then Arr(MergeItems(a.items, b))
    else b
  }

  function MergeItems(a: seq<Json>, b: Json): (r: seq<Json>)
    requires b.Arr?
    ensures |r| == if |a| < |b.items| then |b.items| else |a|
    ensures forall i | 0 <= i < |r| ::
              r[i] == if i < |a| && i < |b.items| then Merge(a[i], b.items[i])
                      else if i < |b.items| then b.items[i] else a[i]
    decreases b, 0
  {
    seq(if |a| < |b.items| then |b.items| else |a|,
        i requires 0 <= i < (if |a| < |b.items| then |b.items| else |a|) =>
          if i < |a| && i < |b.items| then Merge(a[i], b.items[i])
          else if i < |b.items| then b.items[i] else a[i])
  }

  lemma {:induction false} MergeSelf(b: Json)
    ensures Merge(b, b) == b
    decreases b
  {
    if b.Obj? {
      forall k | k in b.fields ensures Merge(b.fields[k], b.fields[k]) == b.fields[k] {
        MergeSelf(b.fields[k]);
      }
    } else if b.Arr? {
      forall i | 0 <= i < |b.items| ensures Merge(b.items[i], b.items[i]) == b.items[i] {
        MergeSelf(b.items[i]);
      }
      assert MergeItems(b.items, b) == b.items;
    }
  }

  // ------------------------------------------------------------------ patch equals merge

  lemma {:induction false} DropRemovesConcat(a: seq<Op>, b: seq<Op>)
    ensures DropRemoves(a + b) == DropRemoves(a) + DropRemoves(b)
    decreases |a|
  {
    if a == [] {
      assert a + b == b;
    } else {
      assert (a + b)[1..] == a[1..] + b;
      DropRemovesConcat(a[1..], b);
    }
  }

  lemma {:induction false} DropRemovesInside(s: Step, ops: seq<Op>)
    ensures DropRemoves(Inside(s, ops)) == Inside(s, DropRemoves(ops))
    decreases |ops|
  {
    if ops != [] {
      assert Inside(s, ops)[1..] == Inside(s, ops[1..]);
      DropRemovesInside(s, ops[1..]);
      var rest := DropRemoves(ops[1..]);
      assert Inside(s, [ops[0]] + rest) == Inside(s, [ops[0]]) + Inside(s, rest);
    }
  }

  lemma {:induction false} RemovesGone(n: nat, len: nat)
    ensures DropRemoves(RemoveItems(n, len)) == []
    decreases len
  {
    if len > n {
      assert RemoveItems(n, len)[1..] == RemoveItems(n, len - 1);
      RemovesGone(n, len - 1);
    }
  }

  lemma {:induction false} AddsStay(b: seq<Json>, i: nat)
    ensures DropRemoves(AddItems(b, i)) == AddItems(b, i)
    decreases |b| - i
  {
    if i < |b| {
      assert AddItems(b, i)[1..] == AddItems(b, i + 1);
      AddsStay(b, i + 1);
    }
  }

  lemma {:induction false} FieldAddsStay(b: map<string, Json>, keys: seq<string>)
    requires forall k | k in keys :: k in b
    ensures DropRemoves(AddFields(b, keys)) == AddFields(b, keys)
    decreases |keys|
  {
    if keys != [] {
      assert AddFields(b, keys)[1..] == AddFields(b, keys[1..]);
      FieldAddsStay(b, keys[1..]);
    }
  }

  lemma {:induction false} ApplyConcat(doc: Json, a: seq<Op>, b: seq<Op>)
    ensures ApplyAll(doc, a + b) == match ApplyAll(doc, a) case Some(d) => ApplyAll(d, b) case None => None
    decreases |a|
  {
    if a == [] {
      assert a + b == b;
    } else {
      assert (a + b)[1..] == a[1..] + b;
      match ApplyOne(doc, a[0]) {
        case Some(d) => ApplyConcat(d, a[1..], b);
        case None =>
      }
    }
  }

  /** No operation of a difference removes or adds at the root. */
  ghost predicate RootSafe(ops: seq<Op>) {
    forall o | o in ops :: o.path == [] ==> o.Replace?
  }

  lemma {:induction false} DiffRootSafe(a: Json, b: Json)
    ensures RootSafe(DropRemoves(Diff(a, b)))
  {
    NonEmptyPaths(a, b);
    DropKeeps(Diff(a, b));
  }

  lemma {:induction false} NonEmptyPaths(a: Json, b: Json)
    ensures RootSafe(Diff(a, b))
  {
    if a != b && a.Arr? && b.Arr? {
      ItemPaths(a.items, b, 0);
      RemovePaths(|b.items|, |a.items|);
      AddPaths(b.items, |a.items|);
    } else if a != b && a.Obj? && b.Obj? {
      FieldPaths(a.fields, b, SortedKeys(a.fields.Keys));
      AddFieldPaths(b.fields, SortedKeys(b.fields.Keys - a.fields.Keys));
    }
  }

  lemma {:induction false} ItemPaths(a: seq<Json>, b: Json, i: nat)
    requires b.Arr?
    ensures forall o | o in DiffItems(a, b, i) :: o.path != []
    decreases |a| - i
  {
    if i < |a| && i < |b.items| {
      ItemPaths(a, b, i + 1);
    }
  }

  lemma {:induction false} RemovePaths(n: nat, len: nat)
    ensures forall o | o in RemoveItems(n, len) :: o.path != []
    decreases len
  {
    if len > n {
      RemovePaths(n, len - 1);
    }
  }

  lemma {:induction false} AddPaths(b: seq<Json>, i: nat)
    ensures forall o | o in AddItems(b, i) :: o.path != []
    decreases |b| - i
  {
    if i < |b| {
      AddPaths(b, i + 1);
    }
  }

  lemma {:induction false} FieldPaths(a: map<string, Json>, b: Json, keys: seq<string>)
    requires b.Obj? && forall k | k in keys :: k in a
    ensures forall o | o in DiffFields(a, b, keys) :: o.path != []
    decreases |keys|
  {
    if keys != [] {
      FieldPaths(a, b, keys[1..]);
    }
  }

  lemma {:induction false} AddFieldPaths(b: map<string, Json>, keys: seq<string>)
    requires forall k | k in keys :: k in b
    ensures forall o | o in AddFields(b, keys) :: o.path != []
    decreases |keys|
  {
    if keys != [] {
      AddFieldPaths(b, keys[1..]);
    }
  }

  lemma {:induction false} DropKeeps(ops: seq<Op>)
    ensures forall o | o in DropRemoves(ops) :: o in ops
    decreases |ops|
  {
    if ops != [] {
      DropKeeps(ops[1..]);
      assert ops == [ops[0]] + ops[1..];
    }
  }

  /** Operations inside a member do to the document what they do to the member. */
  lemma {:induction false} ApplyInsideKey(m: map<string, Json>, k: string, ops: seq<Op>, v: Json, v': Json)
    requires k in m && m[k] == v && RootSafe(ops) && ApplyAll(v, ops) == Some(v')
    ensures ApplyAll(Obj(m), Inside(Key(k), ops)) == Some(Obj(m[k := v']))
    decreases |ops|
  {
    if ops == [] {
      assert m[k := v'] == m;
    } else {
      var op, in' := ops[0], Inside(Key(k), ops)[0];
      var w := ApplyOne(v, op).value;
      assert in'.path[1..] == op.path;
      assert ApplyOne(Obj(m), in') == Some(Obj(m[k := w]));
      assert Inside(Key(k), ops)[1..] == Inside(Key(k), ops[1..]);
      ApplyInsideKey(m[k := w], k, ops[1..], w, v');
      assert m[k := w][k := v'] == m[k := v'];
    }
  }

  lemma {:induction false} ApplyInsideIdx(s: seq<Json>, i: nat, ops: seq<Op>, v: Json, v': Json)
    requires i < |s| && s[i] == v && RootSafe(ops) && ApplyAll(v, ops) == Some(v')
    ensures ApplyAll(Arr(s), Inside(Idx(i), ops)) == Some(Arr(s[i := v']))
    decreases |ops|
  {
    if ops == [] {
      assert s[i := v'] == s;
    } else {
      var op, in' := ops[0], Inside(Idx(i), ops)[0];
      var w := ApplyOne(v, op).value;
      assert in'.path[1..] == op.path;
      assert ApplyOne(Arr(s), in') == Some(Arr(s[i := w]));
      assert Inside(Idx(i), ops)[1..] == Inside(Idx(i), ops[1..]);
      ApplyInsideIdx(s[i := w], i, ops[1..], w, v');
      assert s[i := w][i := v'] == s[i := v'];
    }
  }

  /** What the members named in `keys` become. */
  function MergedFields(cur: map<string, Json>, b: Json, keys: seq<string>): map<string, Json>
    requires b.Obj? && forall k | k in keys :: k in cur
    decreases |keys|
  {
    if keys == [] then cur
    else
      var k := keys[0];
      var next := if k in b.fields then cur[k := Merge(cur[k], b.fields[k])] else cur;
      MergedFields(next, b, keys[1..])
  }

  lemma {:induction false} MergedAt(cur: map<string, Json>, b: Json, keys: seq<string>, j: string)
    requires b.Obj? && (forall k | k in keys :: k in cur) && Ascending(keys) && j in cur
    ensures MergedFields(cur, b, keys).Keys == cur.Keys
    ensures MergedFields(cur, b, keys)[j] ==
              if j in keys && j in b.fields then Merge(cur[j], b.fields[j]) else cur[j]
    decreases |keys|
  {
    if keys != [] {
      var k := keys[0];
      var next := if k in b.fields then cur[k := Merge(cur[k], b.fields[k])] else cur;
      MergedAt(next, b, keys[1..], j);
      if k in keys[1..] {
        var i :| 0 <= i < |keys| - 1 && keys[1..][i] == k;
        assert Less(keys[0], keys[i + 1]);
        LessIrreflexive(k);
      }
    }
  }

  lemma {:induction false} ApplyFields(cur: map<string, Json>, a: map<string, Json>, b: Json, keys: seq<string>)
    requires b.Obj? && (forall k | k in keys :: k in a && k in cur && cur[k] == a[k]) && Ascending(keys)
    ensures ApplyAll(Obj(cur), DropRemoves(DiffFields(a, b, keys))) == Some(Obj(MergedFields(cur, b, keys)))
    decreases b, 0, |keys|
  {
    if keys != [] {
      var k, rest := keys[0], keys[1..];
      var first := if k in b.fields then Inside(Key(k), Diff(a[k], b.fields[k])) else [Remove([Key(k)])];
      var next := if k in b.fields then cur[k := Merge(cur[k], b.fields[k])] else cur;
      DropRemovesConcat(first, DiffFields(a, b, rest));
      forall j | j in rest ensures j in next && next[j] == a[j] {
        var i :| 0 <= i < |rest| && rest[i] == j;
        assert Less(keys[0], keys[i + 1]);
        LessIrreflexive(k);
      }
      ApplyFields(next, a, b, rest);
      if k in b.fields {
        var ops := Diff(a[k], b.fields[k]);
        PatchIsMerge(a[k], b.fields[k]);
        DiffRootSafe(a[k], b.fields[k]);
        DropRemovesInside(Key(k), ops);
        ApplyInsideKey(cur, k, DropRemoves(ops), a[k], Merge(a[k], b.fields[k]));
      } else {
        assert first[1..] == [];
      }
      ApplyConcat(Obj(cur), DropRemoves(first), DropRemoves(DiffFields(a, b, rest)));
    }
  }

  function NewFields(b: map<string, Json>, keys: seq<string>): map<string, Json>
    requires forall k | k in keys :: k in b
  {
    map k | k in keys :: b[k]
  }

  lemma {:induction false} ApplyFieldAdds(cur: map<string, Json>, b: map<string, Json>, keys: seq<string>)
    requires forall k | k in keys :: k in b
    ensures ApplyAll(Obj(cur), AddFields(b, keys)) == Some(Obj(cur + NewFields(b, keys)))
    decreases |keys|
  {
    if keys == [] {
      assert cur + NewFields(b, keys) == cur;
    } else {
      var k := keys[0];
      assert AddFields(b, keys)[1..] == AddFields(b, keys[1..]);
      assert ApplyOne(Obj(cur), AddFields(b, keys)[0]) == Some(Obj(cur[k := b[k]]));
      ApplyFieldAdds(cur[k := b[k]], b, keys[1..]);
      assert cur[k := b[k]] + NewFields(b, keys[1..]) == cur + NewFields(b, keys);
    }
  }

  /** The old array with the elements from `i` on merged where the overlay has one. */
  function Mixed(cur: seq<Json>, a: seq<Json>, b: Json, i: nat): (r: seq<Json>)
    requires b.Arr? && |cur| == |a|
    ensures |r| == |a|
    ensures forall j | 0 <= j < |a| :: r[j] == if i <= j && j < |b.items| then Merge(a[j], b.items[j]) else cur[j]
  {
    seq(|a|, j requires 0 <= j < |a| => if i <= j && j < |b.items| then Merge(a[j], b.items[j]) else cur[j])
  }

  lemma {:induction false} ApplyItems(cur: seq<Json>, a: seq<Json>, b: Json, i: nat)
    requires b.Arr? && |cur| == |a| && forall j | i <= j < |a| :: cur[j] == a[j]
    ensures ApplyAll(Arr(cur), DropRemoves(DiffItems(a, b, i))) == Some(Arr(Mixed(cur, a, b, i)))
    decreases b, 0, |a| - i
  {
    if i < |a| && i < |b.items| {
      var ops := Diff(a[i], b.items[i]);
      var next := cur[i := Merge(a[i], b.items[i])];
      DropRemovesConcat(Inside(Idx(i), ops), DiffItems(a, b, i + 1));
      DropRemovesInside(Idx(i), ops);
      PatchIsMerge(a[i], b.items[i]);
      DiffRootSafe(a[i], b.items[i]);
      ApplyInsideIdx(cur, i, DropRemoves(ops), a[i], Merge(a[i], b.items[i]));
      ApplyItems(next, a, b, i + 1);
      ApplyConcat(Arr(cur), Inside(Idx(i), DropRemoves(ops)), DropRemoves(DiffItems(a, b, i + 1)));
      assert Mixed(next, a, b, i + 1) == Mixed(cur, a, b, i);
    } else {
      assert Mixed(cur, a, b, i) == cur;
    }
  }

  function Tail(b: seq<Json>, i: nat): seq<Json> {
    if i < |b| then b[i..] else []
  }

  lemma {:induction false} AppendNext(cur: seq<Json>, b: seq<Json>, i: nat)
    requires i < |b| && |cur| == i
    ensures InsertAt(cur, i, b[i]) == cur + [b[i]]
    ensures (cur + [b[i]]) + Tail(b, i + 1) == cur + Tail(b, i)
  {
  }

  lemma {:induction false} ApplyItemAdds(cur: seq<Json>, b: seq<Json>, i: nat)
    requires |cur| == i
    ensures ApplyAll(Arr(cur), AddItems(b, i)) == Some(Arr(cur + Tail(b, i)))
    decreases |b| - i
  {
    if i < |b| {
      var ops := AddItems(b, i);
      assert ops[0] == Add([Idx(i)], b[i]) && ops[1..] == AddItems(b, i + 1);
      AppendNext(cur, b, i);
      assert ApplyOne(Arr(cur), ops[0]) == Some(Arr(cur + [b[i]]));
      ApplyItemAdds(cur + [b[i]], b, i + 1);
    } else {
      assert cur + [] == cur;
    }
  }

  lemma {:induction false} PatchItems(a: seq<Json>, b: Json)
    requires b.Arr? && Arr(a) != b
    ensures ApplyAll(Arr(a), DropRemoves(Diff(Arr(a), b))) == Some(Merge(Arr(a), b))
    decreases b, 1, 0
  {
    var x, y, z := DiffItems(a, b, 0), RemoveItems(|b.items|, |a|), AddItems(b.items, |a|);
    DropRemovesConcat(x + y, z);
    DropRemovesConcat(x, y);
    RemovesGone(|b.items|, |a|);
    AddsStay(b.items, |a|);
    ApplyItems(a, a, b, 0);
    assert DropRemoves(x) + [] == DropRemoves(x);
    ApplyConcat(Arr(a), DropRemoves(x), z);
    ApplyItemAdds(Mixed(a, a, b, 0), b.items, |a|);
    MixedIsMerge(a, b);
  }

  lemma {:induction false} MixedIsMerge(a: seq<Json>, b: Json)
    requires b.Arr?
    ensures Mixed(a, a, b, 0) + Tail(b.items, |a|) == MergeItems(a, b)
  {
  }

  lemma {:induction false} PatchFields(a: map<string, Json>, b: Json)
    requires b.Obj? && Obj(a) != b
    ensures ApplyAll(Obj(a), DropRemoves(Diff(Obj(a), b))) == Some(Merge(Obj(a), b))
    decreases b, 1, 0
  {
    PatchKeys(a, b, SortedKeys(a.Keys), SortedKeys(b.fields.Keys - a.Keys));
  }

  lemma {:induction false} PatchKeys(a: map<string, Json>, b: Json, keys: seq<string>, new': seq<string>)
    requires b.Obj? && Ascending(keys) && (forall k :: k in keys <==> k in a)
    requires forall k :: k in new' <==> k in b.fields && k !in a
    ensures ApplyAll(Obj(a), DropRemoves(DiffFields(a, b, keys) + AddFields(b.fields, new'))) == Some(Merge(Obj(a), b))
    decreases b, 0, |keys| + 1
  {
    var x, z := DiffFields(a, b, keys), AddFields(b.fields, new');
    DropRemovesConcat(x, z);
    FieldAddsStay(b.fields, new');
    ApplyFields(a, a, b, keys);
    ApplyConcat(Obj(a), DropRemoves(x), z);
    ApplyFieldAdds(MergedFields(a, b, keys), b.fields, new');
    MergedAll(a, b, keys, new');
  }

  lemma {:induction false} MergedAll(a: map<string, Json>, b: Json, keys: seq<string>, new': seq<string>)
    requires b.Obj? && Ascending(keys) && (forall k :: k in keys <==> k in a)
    requires forall k :: k in new' <==> k in b.fields && k !in a
    ensures Obj(MergedFields(a, b, keys) + NewFields(b.fields, new')) == Merge(Obj(a), b)
  {
    var m, n := MergedFields(a, b, keys), NewFields(b.fields, new');
    MergedEach(a, b, keys);
    assert n.Keys == b.fields.Keys - a.Keys;
    UnionIsMerge(a, b, m, n);
  }

  lemma {:induction false} MergedEach(a: map<string, Json>, b: Json, keys: seq<string>)
    requires b.Obj? && Ascending(keys) && (forall k :: k in keys <==> k in a)
    ensures MergedFields(a, b, keys).Keys == a.Keys
    ensures forall k | k in a ::
              MergedFields(a, b, keys)[k] == if k in b.fields then Merge(a[k], b.fields[k]) else a[k]
  {
    MergedKeys(a, b, keys);
    forall k | k in a
      ensures MergedFields(a, b, keys)[k] == if k in b.fields then Merge(a[k], b.fields[k]) else a[k]
    {
      MergedAt(a, b, keys, k);
    }
  }

  lemma {:induction false} UnionIsMerge(a: map<string, Json>, b: Json, m: map<string, Json>, n: map<string, Json>)
    requires b.Obj? && m.Keys == a.Keys && n.Keys == b.fields.Keys - a.Keys
    requires forall k | k in a :: m[k] == if k in b.fields then Merge(a[k], b.fields[k]) else a[k]
    requires forall k | k in n :: n[k] == b.fields[k]
    ensures Obj(m + n) == Merge(Obj(a), b)
  {
    assert (m + n).Keys == a.Keys + b.fields.Keys;
  }

  lemma {:induction false} MergedKeys(cur: map<string, Json>, b: Json, keys: seq<string>)
    requires b.Obj? && forall k | k in keys :: k in cur
    ensures MergedFields(cur, b, keys).Keys == cur.Keys
    decreases |keys|
  {
    if keys != [] {
      var k := keys[0];
      MergedKeys(if k in b.fields then cur[k := Merge(cur[k], b.fields[k])] else cur, b, keys[1..]);
    }
  }

  /**
    Overlay meaning: diffing two trees, dropping every remove operation and applying the rest
    in order succeeds, and the result is the recursive merge in which the overlay wins.
   */
  lemma {:induction false} PatchIsMerge(a: Json, b: Json)
    ensures ApplyAll(a, DropRemoves(Diff(a, b))) == Some(Merge(a, b))
    decreases b, 1, 1
  {
    if a == b {
      MergeSelf(b);
    } else if a.Arr? && b.Arr? {
      PatchItems(a.items, b);
    } else if a.Obj? && b.Obj? {
      PatchFields(a.fields, b);
    } else {
      assert DropRemoves([Replace([], b)]) == [Replace([], b)];
      assert ApplyAll(b, []) == Some(b);
    }
  }

  // ------------------------------------------------------------------ laws of the merge

  /** Applying the same overlay twice is applying it once. */
  lemma {:induction false} MergeTwice(a: Json, b: Json)
    ensures Merge(Merge(a, b), b) == Merge(a, b)
    decreases b
  {
    if a.Obj? && b.Obj? {
      forall k | k in b.fields
        ensures k in a.fields ==> Merge(Merge(a.fields[k], b.fields[k]), b.fields[k]) == Merge(a.fields[k], b.fields[k])
        ensures Merge(b.fields[k], b.fields[k]) == b.fields[k]
      {
        MergeSelf(b.fields[k]);
        if k in a.fields {
          MergeTwice(a.fields[k], b.fields[k]);
        }
      }
    } else if a.Arr? && b.Arr? {
      var m := MergeItems(a.items, b);
      forall i | 0 <= i < |b.items| ensures Merge(m[i], b.items[i]) == m[i] {
        MergeSelf(b.items[i]);
        if i < |a.items| {
          MergeTwice(a.items[i], b.items[i]);
        }
      }
      assert MergeItems(m, b) == m;
    } else {
      MergeSelf(b);
    }
  }

  /** A path of member names into a value. */
  predicate HasPath(j: Json, path: seq<string>)
    decreases |path|
  {
    path == [] || (j.Obj? && path[0] in j.fields && HasPath(j.fields[path[0]], path[1..]))
  }

  /** The overlay puts something that is no object where the path still goes on. */
  predicate Cuts(b: Json, path: seq<string>)
    decreases |path|
  {
    path != [] && (!b.Obj? || (path[0] in b.fields && Cuts(b.fields[path[0]], path[1..])))
  }

  /** What exists stays, exactly unless the overlay cuts it off; what the overlay has is there. */
  lemma {:induction false} MergeKeeps(a: Json, b: Json, path: seq<string>)
    ensures HasPath(a, path) ==> (HasPath(Merge(a, b), path) <==> !Cuts(b, path))
    ensures HasPath(b, path) ==> HasPath(Merge(a, b), path)
    decreases |path|
  {
    if path != [] && a.Obj? && b.Obj? && path[0] in a.fields && path[0] in b.fields {
      MergeKeeps(a.fields[path[0]], b.fields[path[0]], path[1..]);
    }
  }

  /** The value at the end of a path of member names. */
  function ValueAt(j: Json, path: seq<string>): Option<Json>
    decreases |path|
  {
    if path == [] then Some(j)
    else if j.Obj? && path[0] in j.fields then ValueAt(j.fields[path[0]], path[1..])
    else None
  }

  /**
    The merged tree, path by path: where only one of the two has a value, that one (unless the
    overlay cuts the path off); where both have one, the two merged, which is the overlay's
    unless both are objects or both arrays.
   */
  lemma {:induction false} MergedValue(a: Json, b: Json, path: seq<string>)
    ensures
      var x, y, z := ValueAt(a, path), ValueAt(b, path), ValueAt(Merge(a, b), path);
      && z == (if x.Some? && y.Some? then Some(Merge(x.value, y.value))
               else if y.Some? then y
               else if Cuts(b, path) then None else x)
      && (x.Some? && y.Some? && !(x.value.Obj? && y.value.Obj?) && !(x.value.Arr? && y.value.Arr?) ==> z == y)
    decreases |path|
  {
    if path != [] && a.Obj? && b.Obj? && path[0] in a.fields && path[0] in b.fields {
      MergedValue(a.fields[path[0]], b.fields[path[0]], path[1..]);
    } else if path != [] && b.Obj? && path[0] in b.fields {
      CutsNothing(b, path);
    }
  }

  /** A path that the overlay itself has is not cut off by it. */
  lemma {:induction false} CutsNothing(b: Json, path: seq<string>)
    ensures ValueAt(b, path).Some? ==> !Cuts(b, path)
    decreases |path|
  {
    if path != [] && b.Obj? && path[0] in b.fields {
      CutsNothing(b.fields[path[0]], path[1..]);
    }
  }

  /** The exception at its smallest: a branch overlaid with null loses the signal below it. */
  lemma {:induction false} CutExample(signal: Json)
    ensures
      var tree := Obj(map["Vehicle" := Obj(map["children" := signal])]);
      var overlay := Obj(map["Vehicle" := Null]);
      var path := ["Vehicle", "children"];
      && HasPath(tree, path) && !HasPath(Merge(tree, overlay), path)
      && ApplyAll(tree, DropRemoves(Diff(tree, overlay))) == Some(Merge(tree, overlay))
  {
    var tree := Obj(map["Vehicle" := Obj(map["children" := signal])]);
    var overlay := Obj(map["Vehicle" := Null]);
    var path := ["Vehicle", "children"];
    assert path[1..] == ["children"] && path[1..][1..] == [];
    assert HasPath(tree.fields["Vehicle"], path[1..]);
    MergeKeeps(tree, overlay, path);
    PatchIsMerge(tree, overlay);
  }
}
