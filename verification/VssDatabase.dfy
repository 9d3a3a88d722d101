/** The database object: the two trees as fields, changed in place by its methods. */
module VssDatabase {
  import opened Basics
  import opened Json
  import opened Tree
  import opened Overlay
  import opened TwinTree
  import opened Sanitizer
  import opened Database

  /** updateJsonTree on one tree: diff, keep what is no removal, apply. */
  method OverlayTree(source: Json, overlay: Json) returns (result: Json)
    ensures result == Merge(source, overlay)
  {
    var patches := Diff(source, overlay);
    var patchArray: seq<Op> := [];
    for i := 0 to |patches|
      invariant patchArray + DropRemoves(patches[i..]) == DropRemoves(patches)
    {
      KeepStep(patchArray, patches, i);
      if !patches[i].Remove? {
        patchArray := patchArray + [patches[i]];
      }
    }
    assert patchArray == DropRemoves(patches);
    PatchIsMerge(source, overlay);
    result := ApplyAll(source, patchArray).value;
  }

  lemma {:induction false} KeepStep(kept: seq<Op>, ops: seq<Op>, i: nat)
    requires i < |ops|
    ensures kept + DropRemoves(ops[i..]) ==
              (if ops[i].Remove? then kept else kept + [ops[i]]) + DropRemoves(ops[i + 1..])
  {
    assert ops[i..][1..] == ops[i + 1..];
  }

  /** A list of overlays is the left fold of the merge. */
  function FoldOverlays(lib: Library, tree: Json, overlays: seq<Json>): Json
    decreases |overlays|
  {
    if overlays == [] then tree
    else
      var n := |overlays| - 1;
      Merge(FoldOverlays(lib, tree, overlays[..n]), VehicleDefaults(lib, overlays[n]))
  }

  class VssDatabase {
    const lib: Library
    var data: Json
    var meta: Json
    var published: seq<Publication>

    ghost function State(): Db
      reads this
    {
      Db(data, meta)
    }

    /** Both trees are equal up to runtime keys. */
    ghost predicate Valid()
      reads this
    {
      Twin(State())
    }

    constructor (lib: Library)
      ensures Valid() && this.lib == lib && published == []
    {
      this.lib := lib;
      data, meta, published := Null, Null, [];
    }

    /** initJsonTree, given the parsed file.  Without a Vehicle it throws, with both trees loaded. */
    method InitJsonTree(tree: Json) returns (ok: bool)
      modifies this`data, this`meta
      ensures Valid() && State() == DoInit(lib, tree)
      ensures ok <==> tree.Obj? && "Vehicle" in tree.fields
    {
      data, meta := tree, tree;
      ok := tree.Obj? && "Vehicle" in tree.fields;
      if ok {
        var v := ApplyDefaultValues(lib, tree.fields["Vehicle"]);
        data := Obj(tree.fields["Vehicle" := v]);
      }
      TwinInit(lib, tree);
    }

    method UpdateJsonTree(authorized: bool, jsonTree: Json) returns (err: Option<DbError>)
      requires Valid()
      modifies this`data, this`meta
      ensures Valid()
      ensures match DoOverlay(lib, old(State()), authorized, jsonTree)
              case Ok(db) => err.None? && State() == db
              case Err(e) => err == Some(e) && State() == old(State())
    {
      if !authorized {
        return Some(NoPermission);
      }
      TwinOverlay(lib, State(), authorized, jsonTree);
      var overlay := jsonTree;
      if overlay.Obj? && "Vehicle" in overlay.fields {
        var v := ApplyDefaultValues(lib, overlay.fields["Vehicle"]);
        overlay := Obj(overlay.fields["Vehicle" := v]);
      }
      meta := OverlayTree(meta, overlay);
      data := OverlayTree(data, overlay);
      return None;
    }

    /** applyOverlays: the loaded files in order, with a channel that may modify the tree. */
    method ApplyOverlays(overlays: seq<Json>)
      requires Valid()
      modifies this`data, this`meta
      ensures Valid()
      ensures data == FoldOverlays(lib, old(data), overlays)
      ensures meta == FoldOverlays(lib, old(meta), overlays)
    {
      for i := 0 to |overlays|
        invariant Valid()
        invariant data == FoldOverlays(lib, old(data), overlays[..i])
        invariant meta == FoldOverlays(lib, old(meta), overlays[..i])
      {
        var err := UpdateJsonTree(true, overlays[i]);
        assert overlays[..i + 1][..i] == overlays[..i];
      }
      assert overlays[..|overlays|] == overlays;
    }

    method UpdateMetaData(authorized: bool, path: string, metadata: Json) returns (err: Option<DbError>)
      requires Valid()
      modifies this`data, this`meta
      ensures Valid()
      ensures match DoPatch(old(State()), authorized, path, metadata)
              case Ok(db) => err.None? && State() == db
              case Err(e) => err == Some(e) && State() == old(State())
    {
      if !authorized {
        return Some(NoPermission);
      }
      var m, d := Query(Fields(meta), PatternOf(path)), Query(Fields(data), PatternOf(path));
      if |m| != 1 || |d| != 1 {
        return Some(NotValid);
      }
      var mn, dn := At(Fields(meta), m[0]), At(Fields(data), d[0]);
      if mn.None? || dn.None? || !mn.value.Obj? || !dn.value.Obj? || !metadata.Obj? {
        return Some(Malformed');
      }
      TwinPatch(State(), authorized, path, metadata);
      meta := Obj(Put(Fields(meta), m[0], Patched(mn.value, metadata)));
      data := Obj(Put(Fields(data), d[0], Patched(dn.value, metadata)));
      return None;
    }

    /** The trees stay twins for value and targetValue; processSet lets nothing else through. */
    method SetSignal(path: string, attr: string, value: Json, ts: Stamp) returns (err: Option<DbError>)
      requires Valid()
      modifies this`data, this`published
      ensures IsRuntimeAttr(attr) ==> Valid()
      ensures
        var r := DoSet(lib, old(State()), path, attr, value, ts);
        State() == r.db && err == r.error && published == old(published) + r.published
    {
      if IsRuntimeAttr(attr) {
        SetErased(lib, State(), path, attr, value, ts);
      }
      var res := Query(Fields(data), PatternOf(path));
      if |res| != 1 {
        return None;
      }
      QueryExact(Fields(data), PatternOf(path), res[0]);
      var node := At(Fields(data), res[0]).value;
      if !node.Obj? || "datatype" !in node.fields {
        return Some(NotSettable);
      }
      var v, e := CheckAndSanitizeType(lib, node.fields, value);
      if e.Some? {
        return Some(Rejected(e.value));
      }
      data := Obj(Put(Fields(data), res[0], Stamped(node, attr, v, ts)));
      published := published + [Publication(path, attr, v)];
      return None;
    }

    /** processSet: the gates in their order, each with its early return, then setSignal. */
    method ProcessSet(mayWrite: bool, path: string, attr: string, value: Json, ts: Stamp) returns (answer: SetAnswer)
      requires Valid()
      modifies this`data, this`published
      ensures Valid()
      ensures
        var r := DoCommand(lib, old(State()), mayWrite, path, attr, value, ts);
        State() == r.db && answer == r.answer && published == old(published) + r.published
    {
      if |Query(Fields(data), PatternOf(path))| == 0 {
        return PathNotFound;
      }
      if !mayWrite {
        return NoAccess;
      }
      if !IsWritable(lib, Db(data, meta), path) {
        return NoAccess;
      }
      if !IsAttributable(lib, Db(data, meta), path, attr) {
        return NoAccess;
      }
      GatedAttr(lib, State(), path, attr);
      var err := SetSignal(path, attr, value, ts);
      answer := if err.Some? then SetFailed(err.value) else Done;
    }
  }
}
