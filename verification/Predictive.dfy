/** Predicted state kept apart from committed state (agui/predictive.go). */
module Predictive {
  import opened Events
  import opened JsonPatch
  import opened Locations
  import opened StateDiff

  /** The key under which predictions live. The functions below take it as a parameter; the
      tracker passes this one, and the laws hold for every key without '/' and '~'. */
  const PREDICTIVE: string := "_predictive"

  predicate SimpleKey(g: string) { '/' !in g && '~' !in g }

  lemma PredictiveIsSimple()
    ensures SimpleKey(PREDICTIVE)
  {
  }

  function Namespace(g: string): string { "/" + g }

  // ----- Paths -----

  function PrefixPath(g: string, path: string): string {
    if path == "" || path == "/" then Namespace(g) else Namespace(g) + path
  }

  function PrefixFrom(g: string, from: string): string {
    if from == "" || from == "/" then from else Namespace(g) + from
  }

  function PrefixOp(g: string, op: PatchOp): PatchOp {
    match op
    case Add(path, v) => Add(PrefixPath(g, path), v)
    case Remove(path) => Remove(PrefixPath(g, path))
    case Replace(path, v) => Replace(PrefixPath(g, path), v)
    case Move(from, path) => Move(PrefixFrom(g, from), PrefixPath(g, path))
    case Copy(from, path) => Copy(PrefixFrom(g, from), PrefixPath(g, path))
    case Test(path, v) => Test(PrefixPath(g, path), v)
  }

  function PrefixAll(g: string, patch: seq<PatchOp>): seq<PatchOp> {
    if patch == [] then [] else PrefixAll(g, patch[..|patch| - 1]) + [PrefixOp(g, patch[|patch| - 1])]
  }

  method PrefixPatchPaths(g: string, patch: seq<PatchOp>) returns (out: seq<PatchOp>)
    ensures out == PrefixAll(g, patch)
  {
    out := [];
    for i := 0 to |patch|
      invariant out == PrefixAll(g, patch[..i])
    {
      assert patch[..i + 1][..i] == patch[..i];
      out := out + [PrefixOp(g, patch[i])];
    }
    assert patch[..|patch|] == patch;
  }

  /** The non-empty segments of a path. */
  function Segments(p: string): seq<string> { NonEmpty(Split(p)) }

  function NonEmpty(parts: seq<string>): seq<string> {
    if parts == [] then []
    else if parts[0] == "" then NonEmpty(parts[1..])
    else [parts[0]] + NonEmpty(parts[1..])
  }

  /** What comes up to a slash is a segment, unless it is empty. */
  lemma SegmentsSplit(p: string, start: nat, i: nat)
    requires start <= i < |p| && p[i] == '/' && '/' !in p[start..i]
    ensures Segments(p[start..]) == (if i > start then [p[start..i]] else []) + Segments(p[i + 1..])
  {
    var first, rest := p[start..i], p[i + 1..];
    assert p[start..] == first + "/" + rest;
    SplitConcat(first, rest);
    SplitPlain(first);
    OneSegment(first);
    NonEmptyConcat([first], Split(rest));
  }

  method SplitPath(p: string) returns (segs: seq<string>)
    ensures segs == Segments(p)
  {
    segs := [];
    var start := 0;
    assert p[0..] == p;
    for i := 0 to |p|
      invariant 0 <= start <= i && '/' !in p[start..i]
      invariant segs + Segments(p[start..]) == Segments(p)
    {
      if p[i] == '/' {
        OneMoreSegment(p, segs, start, i);
        if i > start {
          segs := segs + [p[start..i]];
        }
        start := i + 1;
      } else {
        assert p[start..i + 1] == p[start..i] + [p[i]];
      }
    }
    assert p[start..] == p[start..|p|];
    OneSegment(p[start..]);
    assert segs + [] == segs;
    if start < |p| {
      segs := segs + [p[start..]];
    }
  }

  lemma OneMoreSegment(p: string, segs: seq<string>, start: nat, i: nat)
    requires start <= i < |p| && p[i] == '/' && '/' !in p[start..i] && segs + Segments(p[start..]) == Segments(p)
    ensures (if i > start then segs + [p[start..i]] else segs) + Segments(p[i + 1..]) == Segments(p)
  {
    SegmentsSplit(p, start, i);
    var more := if i > start then [p[start..i]] else [];
    assert segs + more + Segments(p[i + 1..]) == segs + (more + Segments(p[i + 1..]));
    assert segs + [] == segs;
  }

  lemma OneSegment(s: string)
    requires '/' !in s
    ensures Segments(s) == if s == "" then [] else [s]
  {
    SplitPlain(s);
    assert [s][1..] == [];
    assert NonEmpty([s][1..]) == [];
  }

  lemma {:induction false} NonEmptyConcat(a: seq<string>, b: seq<string>)
    ensures NonEmpty(a + b) == NonEmpty(a) + NonEmpty(b)
  {
    if a == [] {
      assert a + b == b;
    } else {
      assert (a + b)[1..] == a[1..] + b;
      NonEmptyConcat(a[1..], b);
    }
  }

  function Nested(segs: seq<string>, v: Json): Json {
    if segs == [] then v else Obj(map[segs[0] := Nested(segs[1..], v)])
  }

  /** {"a": {"b": value}} for the suffix "/a/b". */
  method BuildNestedValue(suffix: string, v: Json) returns (nested: Json)
    ensures nested == Nested(Segments(suffix), v)
  {
    if suffix == "" || suffix == "/" {
      assert "/"[1..] == "" && Split("") == [""] && Split("/") == [""] + [""];
      return v;
    }
    var segs := SplitPath(suffix);
    nested := v;
    var i := |segs|;
    while i > 0
      invariant 0 <= i <= |segs| && nested == Nested(segs[i..], v)
    {
      i := i - 1;
      assert segs[i..][1..] == segs[i + 1..];
      nested := Obj(map[segs[i] := nested]);
    }
  }

  /** Where the first '/' of a string is, or its length. */
  function FirstSlash(s: string): (n: nat)
    ensures n <= |s| && '/' !in s[..n] && (n < |s| ==> s[n] == '/')
  {
    if s == "" || s[0] == '/' then 0
    else
      var n := FirstSlash(s[1..]);
      assert s[..n + 1] == [s[0]] + s[1..][..n];
      n + 1
  }

  /** An add to a deep path becomes an add of a nested value under its first segment. */
  function EnsureParent(op: PatchOp): PatchOp {
    if !op.Add? || op.path == "" || op.path == "/" then op
    else
      var trimmed := op.path[1..];
      var n := FirstSlash(trimmed);
      if n == 0 || n == |trimmed| then op
      else Add("/" + trimmed[..n], Nested(Segments(trimmed[n..]), op.value))
  }

  method EnsureParentPath(op: PatchOp) returns (out: PatchOp)
    ensures out == EnsureParent(op)
  {
    out := op;
    if !op.Add? || op.path == "" || op.path == "/" {
      return;
    }
    var trimmed := op.path[1..];
    var segIdx := -1;
    var j := 0;
    while j < |trimmed| && segIdx == -1
      invariant 0 <= j <= |trimmed|
      invariant segIdx == -1 ==> j <= FirstSlash(trimmed)
      invariant segIdx != -1 ==> segIdx == FirstSlash(trimmed) < |trimmed|
    {
      assert trimmed[j] == '/' ==> !(j < FirstSlash(trimmed)) by {
        assert j < FirstSlash(trimmed) ==> trimmed[j] in trimmed[..FirstSlash(trimmed)];
      }
      if trimmed[j] == '/' {
        segIdx := j;
      }
      j := j + 1;
    }
    if segIdx <= 0 {
      return;
    }
    var nested := BuildNestedValue(trimmed[segIdx..], op.value);
    out := Add("/" + trimmed[..segIdx], nested);
  }

  // ----- The tracker -----

  function EnsureNamespace(g: string): seq<PatchOp> { [Add(Namespace(g), Obj(map[]))] }

  /** The state after a prediction and whether it succeeded. */
  function Predicted(g: string, state: Fields, patch: seq<PatchOp>): (Fields, bool) {
    if patch == [] then (state, true)
    else
      var first := Patched(state, PrefixAll(g, patch));
      if first.1 then first
      else
        var ensured := Patched(first.0, EnsureNamespace(g));
        if ensured.1 then Patched(ensured.0, PrefixAll(g, patch)) else ensured
  }

  function Committed(state: Fields, path: string, v: Json): (Fields, bool) {
    var direct := Patched(state, [Add(path, v)]);
    if direct.1 then direct else Patched(direct.0, [EnsureParent(Add(path, v))])
  }

  function Removal(g: string): seq<PatchOp> { [Remove(Namespace(g))] }

  function Cleared(g: string, state: Fields): Fields { Patched(state, Removal(g)).0 }

  class PredictiveStateTracker {
    const state: StateManager
    var emitted: seq<seq<PatchOp>>

    constructor (state: StateManager)
      ensures this.state == state && emitted == []
    {
      this.state, emitted := state, [];
    }

    method PredictiveDelta(patch: seq<PatchOp>) returns (ok: bool)
      modifies this, state
      ensures (state.state, ok) == Predicted(PREDICTIVE, old(state.state), patch)
      ensures emitted == old(emitted) + if ok && patch != [] then [PrefixAll(PREDICTIVE, patch)] else []
    {
      if |patch| == 0 {
        return true;
      }
      var prefixed := PrefixPatchPaths(PREDICTIVE, patch);
      ok := state.Apply(prefixed);
      if !ok {
        ok := state.Apply(EnsureNamespace(PREDICTIVE));
        if !ok {
          return;
        }
        ok := state.Apply(prefixed);
        if !ok {
          return;
        }
      }
      emitted := emitted + [prefixed];
    }

    method Commit(path: string, v: Json) returns (ok: bool)
      modifies this, state
      ensures (state.state, ok) == Committed(old(state.state), path, v)
      ensures emitted == old(emitted) + if ok then [[Add(path, v)]] else []
    {
      ok := state.Apply([Add(path, v)]);
      if !ok {
        var nested := EnsureParentPath(Add(path, v));
        ok := state.Apply([nested]);
        if !ok {
          return;
        }
      }
      emitted := emitted + [[Add(path, v)]];
    }

    method Clear()
      modifies this, state
      ensures state.state == Cleared(PREDICTIVE, old(state.state)) && emitted == old(emitted) + [Removal(PREDICTIVE)]
    {
      var _ := state.Apply(Removal(PREDICTIVE));
      emitted := emitted + [Removal(PREDICTIVE)];
    }
  }

  // ----- Predictions stay in their namespace -----

  function Visible(g: string, state: Fields): Fields { state - {g} }

  predicate Slashed(path: string) { path == "" || path[0] == '/' }

  /** Operations that predictions may use: paths are empty or start with a slash, and nothing
      is moved from the root's empty key. */
  predicate Confined(op: PatchOp) {
    Slashed(op.path) && (op.Move? ==> op.from != "/" && Slashed(op.from))
  }

  predicate AllConfined(patch: seq<PatchOp>) { forall i :: 0 <= i < |patch| ==> Confined(patch[i]) }

  lemma {:induction false} NothingToUnescape(k: string)
    requires '~' !in k
    ensures Unescape(k) == k
  {
    if k != "" {
      NothingToUnescape(k[1..]);
    }
  }

  lemma NamespaceTokens(g: string)
    requires SimpleKey(g)
    ensures Parse(Namespace(g)) == Some([g])
  {
    NothingToUnescape(g);
    AppendKey("", g);
    assert "" + "/" + g == Namespace(g) && Parse("") == Some([]) && [] + [g] == [g];
  }

  lemma GhostTokens(g: string, path: string)
    requires SimpleKey(g) && Slashed(path) && path != "" && path != "/"
    ensures Parse(Namespace(g) + path).Some? && |Parse(Namespace(g) + path).value| > 1 && Parse(Namespace(g) + path).value[0] == g
  {
    NamespaceTokens(g);
    AppendTokens(Namespace(g), path[1..]);
    assert Namespace(g) + path == Namespace(g) + "/" + path[1..];
  }

  lemma PrefixedTokens(g: string, path: string)
    requires SimpleKey(g) && Slashed(path)
    ensures Parse(PrefixPath(g, path)).Some? && Parse(PrefixPath(g, path)).value != [] && Parse(PrefixPath(g, path)).value[0] == g
  {
    NamespaceTokens(g);
    if path != "" && path != "/" {
      GhostTokens(g, path);
    }
  }

  /** An edit below a top-level key leaves the other keys. */
  lemma EditKeepsOthers(f: Fields, path: seq<string>, e: Edit)
    requires path != []
    ensures EditAt(Obj(f), path, e).Some? ==>
      EditAt(Obj(f), path, e).value.Obj? && EditAt(Obj(f), path, e).value.fields - {path[0]} == f - {path[0]}
  {
  }

  lemma PredictedOpHidden(g: string, f: Fields, op: PatchOp)
    requires SimpleKey(g) && Confined(op)
    ensures Apply(Obj(f), PrefixOp(g, op)).Some? ==>
      Apply(Obj(f), PrefixOp(g, op)).value.Obj? && Visible(g, Apply(Obj(f), PrefixOp(g, op)).value.fields) == Visible(g, f)
  {
    PrefixedTokens(g, op.path);
    var path := Parse(PrefixPath(g, op.path)).value;
    match op
    case Add(_, v) => EditKeepsOthers(f, path, Put(v));
    case Remove(_) => EditKeepsOthers(f, path, Drop);
    case Replace(_, v) => EditKeepsOthers(f, path, Swap(v));
    case Move(from, _) =>
      if from != "" {
        GhostTokens(g, from);
        var source := Parse(Namespace(g) + from).value;
        EditKeepsOthers(f, source, Drop);
        if Get(Obj(f), source).Some? && EditAt(Obj(f), source, Drop).Some? {
          EditKeepsOthers(EditAt(Obj(f), source, Drop).value.fields, path, Put(Get(Obj(f), source).value));
        }
      }
    case Copy(from, _) =>
      if Parse(PrefixFrom(g, from)).Some? && Get(Obj(f), Parse(PrefixFrom(g, from)).value).Some? {
        EditKeepsOthers(f, path, Put(Get(Obj(f), Parse(PrefixFrom(g, from)).value).value));
      }
    case Test(_, _) =>
  }

  lemma {:induction false} PrefixAllShape(g: string, patch: seq<PatchOp>)
    ensures |PrefixAll(g, patch)| == |patch| && forall i :: 0 <= i < |patch| ==> PrefixAll(g, patch)[i] == PrefixOp(g, patch[i])
  {
    if patch != [] {
      PrefixAllShape(g, patch[..|patch| - 1]);
    }
  }

  lemma {:induction false} PredictedPatchHidden(g: string, f: Fields, patch: seq<PatchOp>, prefixed: seq<PatchOp>)
    requires SimpleKey(g) && AllConfined(patch) && |prefixed| == |patch| && forall i :: 0 <= i < |patch| ==> prefixed[i] == PrefixOp(g, patch[i])
    ensures ApplyAll(Obj(f), prefixed).Some? ==>
      ApplyAll(Obj(f), prefixed).value.Obj? && Visible(g, ApplyAll(Obj(f), prefixed).value.fields) == Visible(g, f)
    decreases patch
  {
    if patch != [] {
      PredictedOpHidden(g, f, patch[0]);
      if Apply(Obj(f), prefixed[0]).Some? {
        PredictedPatchHidden(g, Apply(Obj(f), prefixed[0]).value.fields, patch[1..], prefixed[1..]);
      }
    }
  }

  /** The operation has a place of its own in the namespace. */
  predicate Placed(op: PatchOp) {
    op.path !in {"", "/"} && Slashed(op.path) && (op.Move? || op.Copy? ==> op.from !in {"", "/"} && Slashed(op.from))
  }

  lemma PlacedTokens(g: string, path: string)
    requires SimpleKey(g) && path !in {"", "/"} && Slashed(path)
    ensures Parse(path).Some? && Parse(PrefixPath(g, path)) == Parse(PrefixFrom(g, path)) == Some([g] + Parse(path).value)
  {
    NamespaceTokens(g);
    AppendTokens(Namespace(g), path[1..]);
    assert Namespace(g) + path == Namespace(g) + "/" + path[1..];
  }

  lemma BelowKey(f: Fields, g: string, path: seq<string>, e: Edit)
    requires path != []
    ensures EditAt(Obj(f), [g] + path, e) ==
      if g !in f then None else match EditAt(f[g], path, e) case None => None case Some(d) => Some(Obj(f[g := d]))
    ensures Get(Obj(f), [g] + path) == if g in f then Get(f[g], path) else None
  {
    var p := [g] + path;
    assert p[0] == g && p[1..] == path && |p| > 1;
  }

  /** A prediction on the state is the same operation on what the namespace holds. */
  lemma PredictionIsLocal(g: string, f: Fields, op: PatchOp)
    requires SimpleKey(g) && Placed(op)
    ensures Apply(Obj(f), PrefixOp(g, op)) ==
      if g !in f then None else match Apply(f[g], op) case None => None case Some(d) => Some(Obj(f[g := d]))
  {
    PlacedTokens(g, op.path);
    var path := Parse(op.path).value;
    PathTokens(op.path);
    match op
    case Add(_, v) => BelowKey(f, g, path, Put(v));
    case Remove(_) => BelowKey(f, g, path, Drop);
    case Replace(_, v) => BelowKey(f, g, path, Swap(v));
    case Move(from, _) => TransferIsLocal(g, f, from, path, true);
    case Copy(from, _) => TransferIsLocal(g, f, from, path, false);
    case Test(_, v) => BelowKey(f, g, path, Drop);
      if g in f {
        assert f[g := f[g]] == f;
      }
  }

  lemma TransferIsLocal(g: string, f: Fields, from: string, path: seq<string>, moving: bool)
    requires SimpleKey(g) && from !in {"", "/"} && Slashed(from) && path != []
    ensures Parse(from).Some? && Parse(from).value != [] && Parse(PrefixFrom(g, from)) == Some([g] + Parse(from).value)
    ensures
      var source := Parse(from).value;
      && (ProperPrefix([g] + source, [g] + path) <==> ProperPrefix(source, path))
      && Get(Obj(f), [g] + source) == (if g in f then Get(f[g], source) else None)
      && (g in f && Get(f[g], source).Some? ==>
        var v := Get(f[g], source).value;
        && EditAt(Obj(f), [g] + path, Put(v)) == (match EditAt(f[g], path, Put(v)) case None => None case Some(d) => Some(Obj(f[g := d])))
        && match EditAt(f[g], source, Drop)
           case None => EditAt(Obj(f), [g] + source, Drop) == None
           case Some(e) =>
             && EditAt(Obj(f), [g] + source, Drop) == Some(Obj(f[g := e]))
             && EditAt(Obj(f[g := e]), [g] + path, Put(v)) ==
               match EditAt(e, path, Put(v)) case None => None case Some(d) => Some(Obj(f[g := d])))
  {
    PlacedTokens(g, from);
    PathTokens(from);
    var source := Parse(from).value;
    BelowKey(f, g, source, Drop);
    assert ([g] + source)[1..] == source && ([g] + path)[1..] == path;
    if source <= path {
      assert [g] + source <= [g] + path;
    }
    if [g] + source <= [g] + path {
      assert source == ([g] + path)[..|source| + 1][1..] == path[..|source|];
    }
    if g in f && Get(f[g], source).Some? {
      var v := Get(f[g], source).value;
      BelowKey(f, g, path, Put(v));
      if EditAt(f[g], source, Drop).Some? {
        var e := EditAt(f[g], source, Drop).value;
        BelowKey(f[g := e], g, path, Put(v));
        match EditAt(e, path, Put(v))
        case None =>
        case Some(d) => assert f[g := e][g := d] == f[g := d];
      }
    }
  }

  /** At the root of the namespace, an operation is one on the namespace's key. */
  lemma PredictionAtRoot(g: string, f: Fields, path: string, v: Json)
    requires SimpleKey(g) && path in {"", "/"}
    ensures Apply(Obj(f), PrefixOp(g, Add(path, v))) == Some(Obj(f[g := v]))
    ensures Apply(Obj(f), PrefixOp(g, Remove(path))) == if g in f then Some(Obj(f - {g})) else None
    ensures Apply(Obj(f), PrefixOp(g, Replace(path, v))) == if g in f then Some(Obj(f[g := v])) else None
  {
    NamespaceTokens(g);
    assert [g][1..] == [];
  }

  lemma {:induction false} PredictionsAreLocal(g: string, f: Fields, patch: seq<PatchOp>, prefixed: seq<PatchOp>, result: Option<Json>)
    requires SimpleKey(g) && g in f && (forall i :: 0 <= i < |patch| ==> Placed(patch[i])) && result == ApplyAll(f[g], patch)
    requires |prefixed| == |patch| && forall i :: 0 <= i < |patch| ==> prefixed[i] == PrefixOp(g, patch[i])
    ensures ApplyAll(Obj(f), prefixed) == if result.Some? then Some(Obj(f[g := result.value])) else None
    decreases patch
  {
    if patch == [] {
      assert f[g := f[g]] == f;
    } else {
      var first := Apply(f[g], patch[0]);
      assert Apply(Obj(f), prefixed[0]) == if first.Some? then Some(Obj(f[g := first.value])) else None by {
        PredictionIsLocal(g, f, patch[0]);
      }
      if first.Some? {
        PredictionsAreLocal(g, f[g := first.value], patch[1..], prefixed[1..], result);
        if result.Some? {
          assert f[g := first.value][g := result.value] == f[g := result.value];
        }
      }
    }
  }

  lemma PatchedLocally(g: string, f: Fields, patch: seq<PatchOp>, here: Option<Json>)
    requires SimpleKey(g) && patch != [] && (forall i :: 0 <= i < |patch| ==> Placed(patch[i]))
    requires here == if g in f then ApplyAll(f[g], patch) else None
    ensures Patched(f, PrefixAll(g, patch)) == if here.Some? then (f[g := here.value], true) else (f, false)
  {
    PrefixAllShape(g, patch);
    if g in f {
      PredictionsAreLocal(g, f, patch, PrefixAll(g, patch), here);
    } else {
      PredictionIsLocal(g, f, patch[0]);
    }
  }

  lemma PredictedAs(g: string, f: Fields, patch: seq<PatchOp>, first: (Fields, bool), e: Fields, second: (Fields, bool))
    requires patch != [] && Patched(f, PrefixAll(g, patch)) == first && (!first.1 ==> first.0 == f)
    requires Patched(f, EnsureNamespace(g)) == (e, true) && Patched(e, PrefixAll(g, patch)) == second
    ensures Predicted(g, f, patch) == if first.1 then first else second
  {
  }

  /** What a prediction leaves: the patch applied to what the namespace holds; if that fails, to
      an empty namespace; and if that fails as well, the namespace is empty. */
  lemma PredictionMeans(g: string, f: Fields, patch: seq<PatchOp>, here: Option<Json>, anew: Option<Json>)
    requires SimpleKey(g) && patch != [] && (forall i :: 0 <= i < |patch| ==> Placed(patch[i]))
    requires here == (if g in f then ApplyAll(f[g], patch) else None) && anew == ApplyAll(Obj(map[]), patch)
    ensures Predicted(g, f, patch) ==
      if here.Some? then (f[g := here.value], true) else if anew.Some? then (f[g := anew.value], true) else (f[g := Obj(map[])], false)
  {
    var e := f[g := Obj(map[])];
    var first := if here.Some? then (f[g := here.value], true) else (f, false);
    var second := if anew.Some? then (f[g := anew.value], true) else (e, false);
    assert Patched(f, PrefixAll(g, patch)) == first by {
      PatchedLocally(g, f, patch, here);
    }
    assert Patched(f, EnsureNamespace(g)) == (e, true) by {
      EnsureNamespaceDoes(g, f);
    }
    PatchedAnew(g, f, patch, anew);
    PredictedAs(g, f, patch, first, e, second);
  }

  lemma PatchedAnew(g: string, f: Fields, patch: seq<PatchOp>, anew: Option<Json>)
    requires SimpleKey(g) && patch != [] && (forall i :: 0 <= i < |patch| ==> Placed(patch[i]))
    requires anew == ApplyAll(Obj(map[]), patch)
    ensures Patched(f[g := Obj(map[])], PrefixAll(g, patch)) ==
      if anew.Some? then (f[g := anew.value], true) else (f[g := Obj(map[])], false)
  {
    PatchedLocally(g, f[g := Obj(map[])], patch, anew);
    if anew.Some? {
      assert f[g := Obj(map[])][g := anew.value] == f[g := anew.value];
    }
  }

  lemma EnsureNamespaceDoes(g: string, f: Fields)
    requires SimpleKey(g)
    ensures Patched(f, EnsureNamespace(g)) == (f[g := Obj(map[])], true)
  {
    NamespaceTokens(g);
    ApplySingle(Obj(f), EnsureNamespace(g)[0]);
  }

  /** A prediction, successful or failed and retried, leaves the committed state alone. */
  lemma PredictionHidden(g: string, f: Fields, patch: seq<PatchOp>)
    requires SimpleKey(g) && AllConfined(patch)
    ensures Visible(g, Predicted(g, f, patch).0) == Visible(g, f)
  {
    PrefixAllShape(g, patch);
    PredictedPatchHidden(g, f, patch, PrefixAll(g, patch));
    EnsureNamespaceDoes(g, f);
    PredictedPatchHidden(g, f[g := Obj(map[])], patch, PrefixAll(g, patch));
  }

  lemma ClearHidden(g: string, f: Fields)
    requires SimpleKey(g)
    ensures Cleared(g, f) == Visible(g, f)
  {
    NamespaceTokens(g);
    ApplySingle(Obj(f), Removal(g)[0]);
    if g !in f {
      assert f - {g} == f;
    }
  }

  // ----- Commits do not see predictions -----

  /** The top-level key a single add touches, if its path is a pointer. */
  lemma AddRelated(g: string, f: Fields, h: Fields, path: seq<string>, v: Json)
    requires Visible(g, f) == Visible(g, h) && path != []
    ensures path[0] != g ==>
      var a, b := EditAt(Obj(f), path, Put(v)), EditAt(Obj(h), path, Put(v));
      && (a.Some? <==> b.Some?)
      && (a.Some? ==> a.value.Obj? && b.value.Obj? && Visible(g, a.value.fields) == Visible(g, b.value.fields))
  {
    if path[0] != g {
      var k := path[0];
      assert k in f <==> k in Visible(g, f);
      assert k in h <==> k in Visible(g, h);
      assert k in f ==> Visible(g, f)[k] == f[k] && Visible(g, h)[k] == h[k];
      EditKeepsOthers(f, path, Put(v));
      EditKeepsOthers(h, path, Put(v));
      if EditAt(Obj(f), path, Put(v)).Some? {
        var a, b := EditAt(Obj(f), path, Put(v)).value.fields, EditAt(Obj(h), path, Put(v)).value.fields;
        forall l | l in Visible(g, a) ensures l in Visible(g, b) && Visible(g, a)[l] == Visible(g, b)[l] {
          assert l != k ==> l in a - {k} && l in f - {k} && l in Visible(g, f) && l in Visible(g, h) && l in b - {k};
        }
        forall l | l in Visible(g, b) ensures l in Visible(g, a) {
          assert l != k ==> l in b - {k} && l in h - {k} && l in Visible(g, h) && l in Visible(g, f) && l in a - {k};
        }
      }
    }
  }

  lemma {:induction false} FirstPart(s: string)
    ensures Split(s)[0] == s[..FirstSlash(s)]
    ensures if FirstSlash(s) == |s| then Split(s) == [s] else Split(s) == [s[..FirstSlash(s)]] + Split(s[FirstSlash(s) + 1..])
  {
    var n := FirstSlash(s);
    if n == |s| {
      assert s[..n] == s;
      SplitPlain(s);
    } else {
      SlashAt(s, n);
    }
  }

  lemma SlashAt(s: string, n: nat)
    requires n < |s| && s[n] == '/' && '/' !in s[..n]
    ensures Split(s) == [s[..n]] + Split(s[n + 1..])
  {
    assert s == s[..n] + "/" + s[n + 1..];
    SplitConcat(s[..n], s[n + 1..]);
    SplitPlain(s[..n]);
  }

  /** The rewritten add, if it is one, adds at the unescaped first segment of the path. */
  lemma FallbackTokens(path: string, v: Json)
    requires path != "" && EnsureParent(Add(path, v)) != Add(path, v)
    ensures
      var op := EnsureParent(Add(path, v));
      var n := FirstSlash(path[1..]);
      && op.Add? && Parse(op.path) == Some([Unescape(path[1..][..n])])
      && (Parse(path).Some? ==> Parse(path).value != [] && Parse(path).value[0] == Unescape(path[1..][..n]))
  {
    var trimmed := path[1..];
    var n := FirstSlash(trimmed);
    FirstPart(trimmed);
    SplitPlain(trimmed[..n]);
    AppendTokens("", trimmed[..n]);
    assert "" + "/" + trimmed[..n] == "/" + trimmed[..n] && Parse("") == Some([]);
    assert Split(trimmed[..n]) == [trimmed[..n]];
    assert [] + UnescapeAll([trimmed[..n]]) == [Unescape(trimmed[..n])];
  }

  /** A commit's effect outside the namespace does not depend on what is predicted. */
  lemma CommitIgnoresPredictions(g: string, f: Fields, h: Fields, path: string, v: Json)
    requires SimpleKey(g) && path != "" && Visible(g, f) == Visible(g, h)
    ensures Visible(g, Committed(f, path, v).0) == Visible(g, Committed(h, path, v).0)
  {
    var op, fallback := Add(path, v), EnsureParent(Add(path, v));
    ApplySingle(Obj(f), op);
    ApplySingle(Obj(h), op);
    ApplySingle(Obj(f), fallback);
    ApplySingle(Obj(h), fallback);
    if fallback != op {
      FallbackTokens(path, v);
    }
    if Parse(path).Some? {
      PathTokens(path);
      SingleAdd(g, f, h, Parse(path).value, v);
    }
    if fallback != op {
      SingleAdd(g, f, h, Parse(fallback.path).value, fallback.value);
    }
  }

  lemma PathTokens(path: string)
    requires path != "" && Parse(path).Some?
    ensures Parse(path).value != []
  {
  }

  lemma SingleAdd(g: string, f: Fields, h: Fields, path: seq<string>, v: Json)
    requires Visible(g, f) == Visible(g, h) && path != []
    ensures
      var a, b := EditAt(Obj(f), path, Put(v)), EditAt(Obj(h), path, Put(v));
      && (a.Some? ==> a.value.Obj?) && (b.Some? ==> b.value.Obj?)
      && if path[0] == g then
        (a.Some? ==> Visible(g, a.value.fields) == Visible(g, f)) && (b.Some? ==> Visible(g, b.value.fields) == Visible(g, h))
      else
        (a.Some? <==> b.Some?) && (a.Some? ==> Visible(g, a.value.fields) == Visible(g, b.value.fields))
  {
    EditKeepsOthers(f, path, Put(v));
    EditKeepsOthers(h, path, Put(v));
    AddRelated(g, f, h, path, v);
  }

  // ----- Whole runs -----

  datatype Action = Predict(patch: seq<PatchOp>) | CommitTo(path: string, value: Json) | ClearAll

  function Act(g: string, state: Fields, a: Action): Fields {
    match a
    case Predict(patch) => Predicted(g, state, patch).0
    case CommitTo(path, v) => Committed(state, path, v).0
    case ClearAll => Cleared(g, state)
  }

  function Run(g: string, state: Fields, actions: seq<Action>): Fields {
    if actions == [] then state else Act(g, Run(g, state, actions[..|actions| - 1]), actions[|actions| - 1])
  }

  function Commits(actions: seq<Action>): seq<Action> {
    if actions == [] then []
    else
      var last := actions[|actions| - 1];
      Commits(actions[..|actions| - 1]) + if last.CommitTo? then [last] else []
  }

  predicate Allowed(a: Action) {
    (a.Predict? ==> AllConfined(a.patch)) && (a.CommitTo? ==> a.path != "")
  }

  /** The visible state of any run is that of its commits alone. */
  lemma {:induction false} PredictionsAreInvisible(g: string, state: Fields, actions: seq<Action>)
    requires SimpleKey(g) && forall i :: 0 <= i < |actions| ==> Allowed(actions[i])
    ensures Visible(g, Run(g, state, actions)) == Visible(g, Run(g, state, Commits(actions)))
  {
    if actions != [] {
      var before, last := actions[..|actions| - 1], actions[|actions| - 1];
      PredictionsAreInvisible(g, state, before);
      match last
      case Predict(patch) =>
        PredictionHidden(g, Run(g, state, before), patch);
        assert Commits(actions) == Commits(before);
      case ClearAll =>
        ClearHidden(g, Run(g, state, before));
        assert Commits(actions) == Commits(before);
      case CommitTo(path, v) =>
        assert (Commits(before) + [last])[..|Commits(before)|] == Commits(before);
        CommitIgnoresPredictions(g, Run(g, state, before), Run(g, state, Commits(before)), path, v);
    }
  }

  /** So it is for the tracker's own namespace. */
  lemma TrackerPredictionsAreInvisible(state: Fields, actions: seq<Action>)
    requires forall i :: 0 <= i < |actions| ==> Allowed(actions[i])
    ensures Visible(PREDICTIVE, Run(PREDICTIVE, state, actions)) == Visible(PREDICTIVE, Run(PREDICTIVE, state, Commits(actions)))
  {
    PredictiveIsSimple();
    PredictionsAreInvisible(PREDICTIVE, state, actions);
  }

  // ----- What a prediction leaves of earlier ones -----

  /** What is spared in a namespace is spared once it is empty. */
  lemma SparedInEmptied(g: string, f: Fields, path: seq<string>, shifts: bool, rest: seq<string>)
    requires Beside(Some(Obj(f)), path, shifts, [g] + rest)
    ensures Beside(Some(Obj(f[g := Obj(map[])])), path, shifts, [g] + rest)
  {
    var other := [g] + rest;
    assert other[1..] == rest;
    ChildOf(Obj(f[g := Obj(map[])]), other);
    if path[0] == g {
      BesideNothing(Child(Some(Obj(f)), g), path[1..], shifts, rest);
    }
  }

  lemma SparedAllInEmptied(g: string, f: Fields, ops: seq<PatchOp>, rest: seq<string>)
    requires SparesAll(Obj(f), ops, [g] + rest)
    ensures SparesAll(Obj(f[g := Obj(map[])]), ops, [g] + rest)
  {
    forall i | 0 <= i < |ops| ensures Spares(Obj(f[g := Obj(map[])]), ops[i], [g] + rest) {
      var op := ops[i];
      assert Spares(Obj(f), op, [g] + rest);
      if !op.Test? {
        SparedInEmptied(g, f, Parse(op.path).value, !op.Replace?, rest);
        if op.Move? {
          SparedInEmptied(g, f, Parse(op.from).value, true, rest);
        }
      }
    }
  }

  /** A prediction keeps an earlier one at a location that its patch spares if and only if the
      patch applies directly or there was no earlier one: a patch that fails starts over from
      an empty namespace, whether or not the namespace existed. */
  lemma EarlierPredictionKept(g: string, f: Fields, patch: seq<PatchOp>, rest: seq<string>)
    requires SimpleKey(g) && AllConfined(patch) && patch != [] && rest != []
    requires SparesAll(Obj(f), PrefixAll(g, patch), [g] + rest)
    ensures Get(Obj(Predicted(g, f, patch).0), [g] + rest) == Get(Obj(f), [g] + rest)
      <==> ApplyAll(Obj(f), PrefixAll(g, patch)).Some? || Get(Obj(f), [g] + rest).None?
  {
    var ops, other := PrefixAll(g, patch), [g] + rest;
    PrefixAllShape(g, patch);
    PredictedPatchHidden(g, f, patch, ops);
    if ApplyAll(Obj(f), ops).Some? {
      PatchSpares(Obj(f), ops, other);
    } else {
      var emptied := f[g := Obj(map[])];
      EnsureNamespaceDoes(g, f);
      PredictedPatchHidden(g, emptied, patch, ops);
      SparedAllInEmptied(g, f, ops, rest);
      NothingIn(g, f, rest);
      if ApplyAll(Obj(emptied), ops).Some? {
        PatchSpares(Obj(emptied), ops, other);
      }
    }
  }

  lemma NothingIn(g: string, f: Fields, rest: seq<string>)
    requires rest != []
    ensures Get(Obj(f[g := Obj(map[])]), [g] + rest).None?
  {
    assert ([g] + rest)[1..] == rest;
  }

  lemma NothingToRemove(g: string, m: Fields, k: string)
    requires SimpleKey(g) && SimpleKey(k) && k !in m
    ensures Patched(map[g := Obj(m)], [Remove(Namespace(g) + "/" + k)]) == (map[g := Obj(m)], false)
  {
    var op, f: Fields := Remove(Namespace(g) + "/" + k), map[g := Obj(m)];
    NothingToUnescape(k);
    NamespaceTokens(g);
    AppendKey(Namespace(g), k);
    assert Parse(op.path) == Some([g] + [k]);
    var path := [g] + [k];
    assert path[0] == g && path[1..] == [k];
    assert EditAt(Obj(m), [k], Drop) == None;
    ApplySingle(Obj(f), op);
  }

  lemma PrefixOne(g: string, op: PatchOp)
    ensures PrefixAll(g, [op]) == [PrefixOp(g, op)]
  {
    assert [op][..0] == [] && PrefixAll(g, []) == [];
  }

  lemma RetriedOnEmpty(g: string, f: Fields, patch: seq<PatchOp>)
    requires SimpleKey(g) && patch != [] && Patched(f, PrefixAll(g, patch)) == (f, false)
    ensures Predicted(g, f, patch) == Patched(f[g := Obj(map[])], PrefixAll(g, patch))
  {
    EnsureNamespaceDoes(g, f);
  }

  /** For example, a patch that removes what is not there loses what was predicted before. */
  lemma RemovalResets(g: string, m: Fields, k: string)
    requires SimpleKey(g) && SimpleKey(k) && k != "" && k !in m
    ensures Predicted(g, map[g := Obj(m)], [Remove("/" + k)]) == (map[g := Obj(map[])], false)
  {
    var patch, f: Fields := [Remove("/" + k)], map[g := Obj(m)];
    PrefixOne(g, patch[0]);
    assert Namespace(g) + ("/" + k) == Namespace(g) + "/" + k;
    NothingToRemove(g, m, k);
    NothingToRemove(g, map[], k);
    RetriedOnEmpty(g, f, patch);
    assert f[g := Obj(map[])] == map[g := Obj(map[])];
  }

  lemma FailedPredictionResets(v: Json)
    ensures Predicted(PREDICTIVE, map[PREDICTIVE := Obj(map["draft" := v])], [Remove("/nope")])
      == (map[PREDICTIVE := Obj(map[])], false)
  {
    PredictiveIsSimple();
    assert "/" + "nope" == "/nope" && "nope"[0] != "draft"[0];
    RemovalResets(PREDICTIVE, map["draft" := v], "nope");
  }

  // ----- Which operations disturb the visible state -----

  /** Some state in which the operation, made a prediction, succeeds and changes committed values. */
  ghost predicate Disturbs(g: string, op: PatchOp) {
    exists f: Fields :: DisturbsIn(g, op, f)
  }

  ghost predicate DisturbsIn(g: string, op: PatchOp, f: Fields) {
    var d := Apply(Obj(f), PrefixOp(g, op));
    d.Some? && !(d.value.Obj? && Visible(g, d.value.fields) == Visible(g, f))
  }

  lemma {:induction false} UnescapeConcat(a: string, b: string)
    requires '~' !in a
    ensures Unescape(a + b) == a + Unescape(b)
  {
    if a == "" {
      assert a + b == b;
    } else {
      assert (a + b)[1..] == a[1..] + b;
      UnescapeConcat(a[1..], b);
    }
  }

  lemma {:induction false} SplitAfter(a: string, b: string)
    requires '/' !in a
    ensures Split(a + b) == [a + Split(b)[0]] + Split(b)[1..]
  {
    if a == "" {
      assert a + b == b && a + Split(b)[0] == Split(b)[0];
    } else {
      assert (a + b)[1..] == a[1..] + b;
      SplitAfter(a[1..], b);
      assert [a[0]] + (a[1..] + Split(b)[0]) == a + Split(b)[0];
    }
  }

  /** A path without the slash lengthens the namespace's own key. */
  lemma UnslashedTokens(g: string, path: string)
    requires SimpleKey(g) && !Slashed(path)
    ensures Parse(PrefixPath(g, path)).Some? && Parse(PrefixPath(g, path)).value != [] && Parse(PrefixPath(g, path)).value[0] != g
  {
    var p := Namespace(g) + path;
    assert p[1..] == g + path;
    SplitAfter(g, path);
    var first := Split(path)[0];
    assert first != "";
    UnescapeConcat(g, first);
    assert Unescape(first) != "";
  }

  /** Editing the end of a chain of objects. */
  lemma {:induction false} EditNested(p: seq<string>, x: Json, v: Json)
    requires p != []
    ensures EditAt(Nested(p, x), p, Put(v)) == Some(Nested(p, v)) == EditAt(Nested(p, x), p, Swap(v))
    ensures EditAt(Nested(p, x), p, Drop).Some?
    ensures Get(Nested(p, x), p) == Some(x)
  {
    if |p| == 1 {
      assert p[1..] == [] && Nested(p[1..], x) == x && Nested(p[1..], v) == v;
      assert map[p[0] := x][p[0] := v] == map[p[0] := v];
      assert Get(x, p[1..]) == Some(x);
    } else {
      EditNested(p[1..], x, v);
      assert map[p[0] := Nested(p[1..], x)][p[0] := Nested(p[1..], v)] == map[p[0] := Nested(p[1..], v)];
    }
  }

  lemma {:induction false} DroppedNested(p: seq<string>, x: Json)
    requires p != []
    ensures
      var d := EditAt(Nested(p, x), p, Drop);
      d.Some? && d.value != Nested(p, x)
  {
    if |p| == 1 {
      assert p[0] in map[p[0] := Nested(p[1..], x)];
    } else {
      DroppedNested(p[1..], x);
      var d := EditAt(Nested(p[1..], x), p[1..], Drop).value;
      assert map[p[0] := Nested(p[1..], x)][p[0] := d][p[0]] == d;
    }
  }

  lemma {:induction false} NestedDiffers(p: seq<string>, x: Json, v: Json)
    requires x != v
    ensures Nested(p, x) != Nested(p, v)
  {
    if p != [] {
      NestedDiffers(p[1..], x, v);
      assert map[p[0] := Nested(p[1..], x)][p[0]] != map[p[0] := Nested(p[1..], v)][p[0]];
    }
  }

  /** Objects without the namespace are visible as a whole. */
  lemma AllVisible(g: string, f: Fields, d: Json)
    requires g !in f && d != Obj(f)
    ensures !(d.Obj? && Visible(g, d.fields) == Visible(g, f) && g !in d.fields)
  {
    if d.Obj? && g !in d.fields {
      assert d.fields - {g} == d.fields && f - {g} == f;
    }
  }

  /** An addition, removal or replacement whose path lacks the slash lands beside the namespace. */
  lemma UnslashedDisturbs(g: string, op: PatchOp)
    requires SimpleKey(g) && !Slashed(op.path) && (op.Add? || op.Remove? || op.Replace?)
    ensures Disturbs(g, op)
  {
    UnslashedTokens(g, op.path);
    var p := Parse(PrefixPath(g, op.path)).value;
    var x := if !op.Remove? && op.value == Null then Bool(true) else Null;
    var v := if op.Remove? then Null else op.value;
    var f := Nested(p, x).fields;
    EditNested(p, x, v);
    DroppedNested(p, x);
    if !op.Remove? {
      NestedDiffers(p, x, v);
    }
    var d := Apply(Obj(f), PrefixOp(g, op));
    EditKeepsOthers(f, p, if op.Add? then Put(v) else if op.Replace? then Swap(v) else Drop);
    assert f - {p[0]} == map[];
    assert d.value.Obj? && d.value.fields - {p[0]} == map[];
    assert g !in d.value.fields - {p[0]};
    AllVisible(g, f, d.value);
    assert DisturbsIn(g, op, f);
  }

  lemma FromTokens(g: string, from: string)
    requires SimpleKey(g) && g != "" && (from == "/" || !Slashed(from))
    ensures Parse(PrefixFrom(g, from)).Some? && Parse(PrefixFrom(g, from)).value != [] && Parse(PrefixFrom(g, from)).value[0] != g
  {
    if from == "/" {
      assert "/"[1..] == "" && Split("") == [""] && UnescapeAll([""]) == [""];
    } else {
      UnslashedTokens(g, from);
    }
  }

  /** A move out of the visible state into the namespace takes a committed value. */
  lemma MoveDisturbs(g: string, from: string, path: string)
    requires SimpleKey(g) && g != "" && Slashed(path) && (from == "/" || !Slashed(from))
    ensures Disturbs(g, Move(from, path))
  {
    FromTokens(g, from);
    PrefixedTokens(g, path);
    var source, target := Parse(PrefixFrom(g, from)).value, Parse(PrefixPath(g, path)).value;
    var here, there := Nested(source, Null).fields, Nested(target, Null).fields;
    var f := here + there;
    var mid := MovedOut(here, there, source, target);
    MovedIn(here, there, mid, target);
    MovesTo(g, from, path, f, mid + there);
    assert f - {g} == here && (mid + there) - {g} == mid;
  }

  lemma MovesTo(g: string, from: string, path: string, f: Fields, d: Fields)
    requires Parse(PrefixFrom(g, from)).Some? && Parse(PrefixPath(g, path)).Some? && Visible(g, d) != Visible(g, f)
    requires
      var source, target := Parse(PrefixFrom(g, from)).value, Parse(PrefixPath(g, path)).value;
      && source != [] && target != [] && source[0] != target[0] && Get(Obj(f), source).Some? && EditAt(Obj(f), source, Drop).Some?
      && EditAt(EditAt(Obj(f), source, Drop).value, target, Put(Get(Obj(f), source).value)) == Some(Obj(d))
    ensures Disturbs(g, Move(from, path))
  {
    assert DisturbsIn(g, Move(from, path), f);
  }

  lemma MovedOut(here: Fields, there: Fields, source: seq<string>, target: seq<string>) returns (mid: Fields)
    requires source != [] && target != [] && source[0] != target[0]
    requires Obj(here) == Nested(source, Null) && Obj(there) == Nested(target, Null)
    ensures Get(Obj(here + there), source) == Some(Null)
    ensures EditAt(Obj(here + there), source, Drop) == Some(Obj(mid + there)) && mid != here && target[0] !in mid
  {
    EditNested(source, Null, Null);
    DroppedNested(source, Null);
    var f := here + there;
    EditKeepsOthers(here, source, Drop);
    EditKeepsOthers(f, source, Drop);
    mid := EditAt(Obj(here), source, Drop).value.fields;
    assert here == map[source[0] := here[source[0]]] && there == map[target[0] := there[target[0]]];
    assert mid - {source[0]} == map[];
    assert target[0] !in mid - {source[0]};
    assert f[source[0]] == here[source[0]];
    if |source| == 1 {
      assert f - {source[0]} == mid + there;
    } else {
      assert EditAt(Obj(f), source, Drop).value.fields == mid + there;
    }
  }

  lemma MovedIn(here: Fields, there: Fields, mid: Fields, target: seq<string>)
    requires target != [] && Obj(there) == Nested(target, Null) && target[0] !in mid && target[0] !in here
    ensures EditAt(Obj(mid + there), target, Put(Null)) == Some(Obj(mid + there))
    ensures (mid + there) - {target[0]} == mid && (here + there) - {target[0]} == here
  {
    EditNested(target, Null, Null);
    var f := mid + there;
    assert there == map[target[0] := there[target[0]]] && f[target[0]] == there[target[0]];
    assert f[target[0] := there[target[0]]] == f;
    if |target| == 1 {
      assert target[1..] == [];
    }
  }

  // ----- Moves and copies out of the namespace -----

  /** Editing below a chain of objects edits what is at its end. */
  lemma {:induction false} EditUnder(p: seq<string>, d: Json, x: seq<string>, e: Edit)
    requires x != []
    ensures EditAt(Nested(p, d), p + x, e) == match EditAt(d, x, e) case None => None case Some(v) => Some(Nested(p, v))
    ensures Get(Nested(p, d), p + x) == Get(d, x)
  {
    if p == [] {
      assert p + x == x;
    } else {
      EditUnder(p[1..], d, x, e);
      var q := p + x;
      assert q[0] == p[0] && q[1..] == p[1..] + x && |q| > 1;
      match EditAt(d, x, e)
      case None =>
      case Some(v) => assert map[p[0] := Nested(p[1..], d)][p[0] := Nested(p[1..], v)] == map[p[0] := Nested(p[1..], v)];
    }
  }

  lemma PutChain(f: Fields, x: seq<string>, y: Json, v: Json)
    requires x != [] && x[0] in f && f[x[0]] == Nested(x[1..], y)
    ensures EditAt(Obj(f), x, Put(v)) == Some(Obj(f[x[0] := Nested(x[1..], v)])) && Get(Obj(f), x) == Some(y)
  {
    if |x| == 1 {
      assert x[1..] == [] && Get(y, x[1..]) == Some(y);
    } else {
      EditNested(x[1..], y, v);
    }
  }

  lemma DropChain(f: Fields, x: seq<string>, y: Json)
    requires x != [] && x[0] in f && f[x[0]] == Nested(x[1..], y)
    ensures EditAt(Obj(f), x, Drop).Some? && EditAt(Obj(f), x, Drop).value.Obj?
    ensures EditAt(Obj(f), x, Drop).value.fields - {x[0]} == f - {x[0]}
  {
    EditKeepsOthers(f, x, Drop);
    if |x| > 1 {
      EditNested(x[1..], y, y);
    }
  }

  /** What moving or copying a value means, once the operation is parsed. */
  function Transferred(doc: Json, moving: bool, source: seq<string>, target: seq<string>): Option<Json> {
    if (moving && ProperPrefix(source, target)) || Get(doc, source).None? then None
    else
      var d := if moving then EditAt(doc, source, Drop) else Some(doc);
      if d.None? then None else EditAt(d.value, target, Put(Get(doc, source).value))
  }

  /** The document has a value at the key, and the other one a different value. */
  predicate ChangedAt(k: string, doc: Json, d: Option<Json>) {
    && doc.Obj? && k in doc.fields && d.Some? && d.value.Obj?
    && k in d.value.fields && d.value.fields[k] != doc.fields[k]
  }

  /** Two chains of objects that part at once. */
  function Forked(source: seq<string>, target: seq<string>): Json
    requires source != [] && target != []
  {
    Obj(map[source[0] := Nested(source[1..], Null), target[0] := Nested(target[1..], Bool(true))])
  }

  lemma ForkTransferred(moving: bool, source: seq<string>, target: seq<string>)
    requires source != [] && target != [] && source[0] != target[0]
    ensures ChangedAt(target[0], Forked(source, target), Transferred(Forked(source, target), moving, source, target))
  {
    var f := Forked(source, target).fields;
    PutChain(f, source, Null, Null);
    DropChain(f, source, Null);
    var d := if moving then EditAt(Obj(f), source, Drop).value.fields else f;
    assert d - {source[0]} == f - {source[0]};
    assert target[0] in d - {source[0]} && (d - {source[0]})[target[0]] == (f - {source[0]})[target[0]];
    PutChain(d, target, Bool(true), Null);
    NestedDiffers(target[1..], Null, Bool(true));
  }

  lemma TransferredUnder(p: seq<string>, doc: Json, moving: bool, source: seq<string>, target: seq<string>)
    requires source != [] && target != []
    ensures Transferred(Nested(p, doc), moving, p + source, p + target) ==
      match Transferred(doc, moving, source, target) case None => None case Some(d) => Some(Nested(p, d))
  {
    var v := if Get(doc, source).Some? then Get(doc, source).value else Null;
    EditUnder(p, doc, source, Drop);
    var d := if moving then EditAt(doc, source, Drop) else Some(doc);
    if d.Some? {
      EditUnder(p, d.value, target, Put(v));
    }
    assert (p + source)[|p|..] == source && (p + target)[|p|..] == target;
    assert source <= target ==> p + source <= p + target;
    assert p + source <= p + target ==> source == (p + target)[..|p + source|][|p|..] == target[..|source|];
  }

  lemma {:induction false} PartsAt(a: seq<string>, b: seq<string>) returns (n: nat)
    requires !(a <= b) && !(b <= a)
    ensures n < |a| && n < |b| && a[..n] == b[..n] && a[n] != b[n]
  {
    if a[0] != b[0] {
      n := 0;
    } else {
      assert a == [a[0]] + a[1..] && b == [b[0]] + b[1..];
      var m := PartsAt(a[1..], b[1..]);
      n := m + 1;
      assert a[..n] == [a[0]] + a[1..][..m] && b[..n] == [b[0]] + b[1..][..m];
    }
  }

  /** The values differ at the end of a chain, so they differ at its start. */
  lemma ChangedAbove(p: seq<string>, x: Json, y: Json)
    requires p != [] && x != y
    ensures ChangedAt(p[0], Nested(p, x), Some(Nested(p, y)))
  {
    NestedDiffers(p[1..], x, y);
  }

  /** Between locations of which neither is above the other. */
  lemma ForkWitness(moving: bool, source: seq<string>, target: seq<string>) returns (doc: Json)
    requires !(source <= target) && !(target <= source)
    ensures ChangedAt(target[0], doc, Transferred(doc, moving, source, target))
  {
    var n := PartsAt(source, target);
    var p, a, b := target[..n], source[n..], target[n..];
    assert source == p + a && target == p + b;
    doc := Nested(p, Forked(a, b));
    ForkTransferred(moving, a, b);
    TransferredUnder(p, Forked(a, b), moving, a, b);
    if n > 0 {
      ChangedAbove(p, Forked(a, b), Transferred(Forked(a, b), moving, a, b).value);
    }
  }

  /** From below the target. */
  lemma BelowWitness(moving: bool, source: seq<string>, target: seq<string>) returns (doc: Json)
    requires target != [] && ProperPrefix(target, source)
    ensures ChangedAt(target[0], doc, Transferred(doc, moving, source, target))
  {
    var x := source[|target|..];
    assert source == target + x && x != [];
    doc := Nested(target, Nested(x, Null));
    EditUnder(target, Nested(x, Null), x, Drop);
    EditNested(x, Null, Null);
    DroppedNested(x, Null);
    var inner := if moving then EditAt(Nested(x, Null), x, Drop).value else Nested(x, Null);
    EditNested(target, inner, Null);
    ChangedAbove(target, Nested(x, Null), Null);
  }

  /** Copied from above the target. */
  lemma AboveWitness(source: seq<string>, target: seq<string>) returns (doc: Json)
    requires ProperPrefix(source, target)
    ensures ChangedAt(target[0], doc, Transferred(doc, false, source, target))
  {
    var x := target[|source|..];
    assert target == source + x && x != [];
    doc := Nested(target, Null);
    NestedTwice(source, x, Null);
    NestedGet(source, Nested(x, Null));
    EditNested(target, Null, Nested(x, Null));
    ChangedAbove(target, Null, Nested(x, Null));
  }

  lemma {:induction false} NestedTwice(p: seq<string>, x: seq<string>, v: Json)
    ensures Nested(p + x, v) == Nested(p, Nested(x, v))
  {
    if p == [] {
      assert p + x == x;
    } else {
      assert (p + x)[1..] == p[1..] + x;
      NestedTwice(p[1..], x, v);
    }
  }

  /** Copying an item of an array onto itself repeats it. */
  lemma RepeatWitness(path: seq<string>) returns (doc: Json)
    requires |path| > 1 && Index(path[|path| - 1]).Some?
    ensures ChangedAt(path[0], doc, Transferred(doc, false, path, path))
  {
    var p, last := path[..|path| - 1], path[|path| - 1];
    var i := Index(last).value;
    var items := seq(i + 1, _ => Null);
    assert path == p + [last] && [last][1..] == [];
    doc := Nested(p, Arr(items));
    assert Get(Arr(items), [last]) == Some(Null);
    EditUnder(p, Arr(items), [last], Put(Null));
    var longer := items[..i] + [Null] + items[i..];
    assert |longer| == |items| + 1;
    ChangedAbove(p, Arr(items), Arr(longer));
  }

  /** Moving a value onto itself changes nothing. */
  lemma {:induction false} MovedOnItself(doc: Json, path: seq<string>)
    requires Get(doc, path).Some? && EditAt(doc, path, Drop).Some?
    ensures EditAt(EditAt(doc, path, Drop).value, path, Put(Get(doc, path).value)) == Some(doc)
    decreases path
  {
    var d := EditAt(doc, path, Drop).value;
    match doc
    case Obj(f) =>
      var k := path[0];
      if |path| == 1 {
        assert path[1..] == [] && (f - {k})[k := f[k]] == f;
      } else {
        MovedOnItself(f[k], path[1..]);
        assert f[k := d.fields[k]][k := f[k]] == f;
      }
    case Arr(items) =>
      var i := Index(path[0]).value;
      if |path| == 1 {
        var rest := items[..i] + items[i + 1..];
        assert path[1..] == [] && rest[..i] == items[..i] && rest[i..] == items[i + 1..];
        assert items[..i] + [items[i]] + items[i + 1..] == items;
      } else {
        MovedOnItself(items[i], path[1..]);
        assert items[i := d.items[i]][i := items[i]] == items;
      }
    case _ =>
  }

  /** Neither does copying a field onto itself. */
  lemma {:induction false} CopiedOnItself(doc: Json, path: seq<string>)
    requires path != [] && Get(doc, path).Some? && ((|path| == 1 && doc.Obj?) || Index(path[|path| - 1]).None?)
    ensures EditAt(doc, path, Put(Get(doc, path).value)) == Some(doc)
    decreases path
  {
    match doc
    case Obj(f) =>
      if |path| == 1 {
        assert path[1..] == [] && f[path[0] := f[path[0]]] == f;
      } else {
        CopiedOnItself(f[path[0]], path[1..]);
        assert f[path[0] := f[path[0]]] == f;
      }
    case Arr(items) =>
      if |path| > 1 {
        CopiedOnItself(items[Index(path[0]).value], path[1..]);
        var i := Index(path[0]).value;
        assert items[i := items[i]] == items;
      }
    case _ =>
  }

  function Tokens(pointer: string): seq<string> { if Parse(pointer).Some? then Parse(pointer).value else [] }

  function Source(g: string, op: PatchOp): seq<string>
    requires op.Move? || op.Copy?
  {
    Tokens(PrefixFrom(g, op.from))
  }

  function Target(g: string, op: PatchOp): seq<string> { Tokens(PrefixPath(g, op.path)) }

  lemma TransferIs(g: string, op: PatchOp, f: Fields)
    requires (op.Move? || op.Copy?) && Parse(PrefixPath(g, op.path)).Some?
    ensures Apply(Obj(f), PrefixOp(g, op)) == Transferred(Obj(f), op.Move?, Source(g, op), Target(g, op))
  {
    assert Parse(PrefixFrom(g, op.from)).Some?;
  }

  /** A transfer leaves every state alone exactly when it fails or goes from a location to itself. */
  predicate Idle(moving: bool, source: seq<string>, target: seq<string>)
    requires target != []
  {
    if moving then source <= target
    else source == target && (|target| == 1 || Index(target[|target| - 1]).None?)
  }

  lemma TransferWitness(moving: bool, source: seq<string>, target: seq<string>) returns (doc: Json)
    requires target != [] && !Idle(moving, source, target)
    ensures ChangedAt(target[0], doc, Transferred(doc, moving, source, target))
  {
    if source == target {
      doc := RepeatWitness(target);
    } else if source <= target {
      doc := AboveWitness(source, target);
    } else if target <= source {
      doc := BelowWitness(moving, source, target);
    } else {
      doc := ForkWitness(moving, source, target);
    }
  }

  lemma IdleTransfer(f: Fields, moving: bool, source: seq<string>, target: seq<string>)
    requires target != [] && Idle(moving, source, target)
    ensures var d := Transferred(Obj(f), moving, source, target); d.Some? ==> d.value == Obj(f)
  {
    if source == target && Get(Obj(f), target).Some? {
      if moving {
        if EditAt(Obj(f), target, Drop).Some? {
          MovedOnItself(Obj(f), target);
        }
      } else {
        CopiedOnItself(Obj(f), target);
      }
    }
  }

  lemma TransferDisturbs(g: string, op: PatchOp)
    requires SimpleKey(g) && (op.Move? || op.Copy?) && !Slashed(op.path)
    ensures Target(g, op) != [] && (Disturbs(g, op) <==> !Idle(op.Move?, Source(g, op), Target(g, op)))
  {
    UnslashedTokens(g, op.path);
    var source, target := Source(g, op), Target(g, op);
    if Idle(op.Move?, source, target) {
      forall f ensures !DisturbsIn(g, op, f) {
        TransferIs(g, op, f);
        IdleTransfer(f, op.Move?, source, target);
      }
    } else {
      var doc := TransferWitness(op.Move?, source, target);
      TransferIs(g, op, doc.fields);
      ChangedDisturbs(g, op, doc.fields, target[0]);
    }
  }

  lemma ChangedDisturbs(g: string, op: PatchOp, f: Fields, k: string)
    requires k != g && ChangedAt(k, Obj(f), Apply(Obj(f), PrefixOp(g, op)))
    ensures Disturbs(g, op)
  {
    var d := Apply(Obj(f), PrefixOp(g, op)).value.fields;
    assert Visible(g, d)[k] == d[k] && Visible(g, f)[k] == f[k];
    assert DisturbsIn(g, op, f);
  }

  /** Which predictions can disturb the visible state: additions, removals and replacements whose
      path lacks the slash; moves to a slashed path that start outside; moves to another path
      unless they start at or above their target; and copies to such a path unless they copy
      a value that cannot be an array's item onto itself. */
  ghost predicate CanDisturb(g: string, op: PatchOp) {
    match op
    case Move(from, path) => if Slashed(path) then from == "/" || !Slashed(from) else !(Source(g, op) <= Target(g, op))
    case Copy(_, path) =>
      !Slashed(path) &&
      var t := Target(g, op); Source(g, op) != t || (|t| > 1 && Index(t[|t| - 1]).Some?)
    case Test(_, _) => false
    case _ => !Slashed(op.path)
  }

  lemma DisturbsExactly(g: string, op: PatchOp)
    requires SimpleKey(g) && g != ""
    ensures Disturbs(g, op) <==> CanDisturb(g, op)
  {
    if Confined(op) {
      forall f ensures !DisturbsIn(g, op, f) {
        PredictedOpHidden(g, f, op);
      }
    } else if op.Move? && Slashed(op.path) {
      MoveDisturbs(g, op.from, op.path);
    } else if op.Move? || op.Copy? {
      TransferDisturbs(g, op);
    } else if !op.Test? {
      UnslashedDisturbs(g, op);
    }
  }

  /** For example, a prediction whose path lacks the slash. */
  lemma UnslashedPathEscapes(g: string, v: Json)
    requires SimpleKey(g)
    ensures Visible(g, Predicted(g, map[], [Add("x", v)]).0) == map[g + "x" := v]
  {
    var k := g + "x";
    assert Namespace(g) + "x" == Namespace(k);
    NamespaceTokens(k);
    PrefixOne(g, Add("x", v));
    ApplySingle(Obj(map[]), Add(Namespace(k), v));
    assert k != g;
    assert map[k := v] - {g} == map[k := v];
  }

  /** Moving from the path "/" takes the committed value under the empty key. */
  lemma MoveFromEmptyKeyDisturbs(g: string, v: Json)
    requires SimpleKey(g) && g != ""
    ensures Visible(g, Predicted(g, map["" := v], [Move("/", "")]).0) == map[]
  {
    var op := Move("/", Namespace(g));
    NamespaceTokens(g);
    assert Parse("/") == Some([""]) by { assert "/"[1..] == "" && Split("") == [""] && UnescapeAll([""]) == [""]; }
    PrefixOne(g, Move("/", ""));
    ApplySingle(Obj(map["" := v]), op);
    var f: Fields := map["" := v];
    assert [""][1..] == [] && Get(v, [""][1..]) == Some(v) && Get(Obj(f), [""]) == Some(v);
    assert EditAt(Obj(f), [""], Drop) == Some(Obj(f - {""}));
    assert [""][0] != [g][0];
    assert !ProperPrefix([""], [g]);
  }

  // ----- Commits are read back -----

  /** The pointer to a location reached through object keys. */
  function PathTo(keys: seq<string>): string {
    if keys == [] then "" else PathTo(keys[..|keys| - 1]) + "/" + keys[|keys| - 1]
  }

  predicate Canonical(keys: seq<string>) {
    keys != [] && keys[|keys| - 1] != "-" && forall i :: 0 <= i < |keys| ==> PlainKey(keys[i]) && keys[i] != ""
  }

  lemma {:induction false} PathToTokens(keys: seq<string>)
    requires forall i :: 0 <= i < |keys| ==> PlainKey(keys[i])
    ensures Parse(PathTo(keys)) == Some(keys)
  {
    if keys != [] {
      PathToTokens(keys[..|keys| - 1]);
      AppendKey(PathTo(keys[..|keys| - 1]), keys[|keys| - 1]);
      assert keys[..|keys| - 1] + [keys[|keys| - 1]] == keys;
    }
  }

  lemma {:induction false} PathToParts(keys: seq<string>)
    requires keys != [] && forall i :: 0 <= i < |keys| ==> PlainKey(keys[i])
    ensures PathTo(keys) != "" && Split(PathTo(keys)[1..]) == keys
  {
    var before, last := keys[..|keys| - 1], keys[|keys| - 1];
    SplitPlain(last);
    assert before + [last] == keys;
    if before == [] {
      assert PathTo(keys)[1..] == last;
    } else {
      PathToParts(before);
      assert PathTo(keys)[1..] == PathTo(before)[1..] + "/" + last;
      SplitConcat(PathTo(before)[1..], last);
    }
  }

  lemma {:induction false} NestedGet(segs: seq<string>, v: Json)
    ensures Get(Nested(segs, v), segs) == Some(v)
  {
    if segs != [] {
      NestedGet(segs[1..], v);
    }
  }

  lemma {:induction false} NonEmptyAll(parts: seq<string>)
    requires forall i :: 0 <= i < |parts| ==> parts[i] != ""
    ensures NonEmpty(parts) == parts
  {
    if parts != [] {
      NonEmptyAll(parts[1..]);
    }
  }

  lemma FirstSlashSplits(trimmed: string, keys: seq<string>)
    requires Split(trimmed) == keys && |keys| > 1
    ensures var n := FirstSlash(trimmed); n < |trimmed| && trimmed[..n] == keys[0] && Split(trimmed[n + 1..]) == keys[1..]
  {
    FirstPart(trimmed);
    var n := FirstSlash(trimmed);
    assert ([trimmed[..n]] + Split(trimmed[n + 1..]))[1..] == Split(trimmed[n + 1..]);
  }

  lemma SegmentsAfterSlash(suffix: string, keys: seq<string>)
    requires Split(suffix) == keys && forall i :: 0 <= i < |keys| ==> keys[i] != ""
    ensures Segments("/" + suffix) == keys
  {
    assert ("/" + suffix)[1..] == suffix;
    assert ([""] + keys)[1..] == keys;
    NonEmptyAll(keys);
  }

  /** The fallback of a canonical commit: the rest of the path nested under its first key. */
  lemma CanonicalFallback(keys: seq<string>, v: Json)
    requires Canonical(keys) && |keys| > 1
    ensures EnsureParent(Add(PathTo(keys), v)) == Add("/" + keys[0], Nested(keys[1..], v))
  {
    PathToParts(keys);
    var path := PathTo(keys);
    var trimmed := path[1..];
    FirstSlashSplits(trimmed, keys);
    var n := FirstSlash(trimmed);
    assert n == |keys[0]| > 0;
    assert trimmed[n..] == "/" + trimmed[n + 1..];
    SegmentsAfterSlash(trimmed[n + 1..], keys[1..]);
    assert |path| > 1;
  }

  lemma FallbackIsReadBack(state: Fields, keys: seq<string>, v: Json)
    requires Canonical(keys) && |keys| > 1
    ensures Patched(state, [EnsureParent(Add(PathTo(keys), v))]) == (state[keys[0] := Nested(keys[1..], v)], true)
  {
    CanonicalFallback(keys, v);
    PutAtRoot(state, keys[0], Nested(keys[1..], v));
  }

  lemma PutAtRoot(state: Fields, k: string, v: Json)
    requires PlainKey(k)
    ensures Patched(state, [Add("/" + k, v)]) == (state[k := v], true)
  {
    assert Parse("/" + k) == Some([k]) by {
      AppendKey("", k);
      assert "" + "/" + k == "/" + k && Parse("") == Some([]) && [] + [k] == [k];
    }
    PutAtKey(state, "/" + k, k, v);
  }

  lemma PutAtKey(state: Fields, path: string, k: string, v: Json)
    requires Parse(path) == Some([k])
    ensures Patched(state, [Add(path, v)]) == (state[k := v], true)
  {
    ApplySingle(Obj(state), Add(path, v));
    assert [k][1..] == [];
  }

  lemma DirectCommit(state: Fields, keys: seq<string>, v: Json)
    requires Canonical(keys)
    ensures EditAt(Obj(state), keys, Put(v)).None? ==> |keys| > 1 && Patched(state, [Add(PathTo(keys), v)]) == (state, false)
    ensures EditAt(Obj(state), keys, Put(v)).Some? ==>
      EditAt(Obj(state), keys, Put(v)).value.Obj? &&
      Patched(state, [Add(PathTo(keys), v)]) == (EditAt(Obj(state), keys, Put(v)).value.fields, true)
  {
    PathToTokens(keys);
    ApplySingle(Obj(state), Add(PathTo(keys), v));
    EditKeepsOthers(state, keys, Put(v));
  }

  /** A commit to a canonical object path succeeds, is read back, and leaves the other
      top-level keys. */
  lemma CommitIsReadBack(state: Fields, keys: seq<string>, v: Json)
    requires Canonical(keys)
    ensures
      var (after, ok) := Committed(state, PathTo(keys), v);
      ok && Get(Obj(after), keys) == Some(v) && after - {keys[0]} == state - {keys[0]}
  {
    DirectCommit(state, keys, v);
    EditKeepsOthers(state, keys, Put(v));
    if EditAt(Obj(state), keys, Put(v)).Some? {
      PutThenGet(Obj(state), keys, v);
    } else {
      FallbackIsReadBack(state, keys, v);
      NestedGet(keys[1..], v);
    }
  }

  /** Where the parent of its path can take the value, a commit touches nothing beside the path;
      otherwise the rest of the path replaces whatever its first key held. */
  lemma CommitKeepsSiblings(state: Fields, keys: seq<string>, v: Json, other: seq<string>)
    requires Canonical(keys) && Beside(Some(Obj(state)), keys, true, other)
    ensures
      var (after, ok) := Committed(state, PathTo(keys), v);
      if Takes(Get(Obj(state), keys[..|keys| - 1]), keys[|keys| - 1]) then Get(Obj(after), other) == Get(Obj(state), other)
      else after == state[keys[0] := Nested(keys[1..], v)]
  {
    DirectCommit(state, keys, v);
    PutAsks(Obj(state), keys, v);
    if EditAt(Obj(state), keys, Put(v)).Some? {
      EditKeeps(Obj(state), keys, Put(v), other);
    } else {
      FallbackIsReadBack(state, keys, v);
    }
  }
}
