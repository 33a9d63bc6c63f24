/** Parameter injection into a compiled strategy tree (`dslSweepParam.ts`): one walk patches every parameter. */
module SweepPatch {

  datatype Json =
    | Null
    | Bool(b: bool)
    | Num(n: real)
    | Str(s: string)
    | Arr(items: seq<Json>)
    | Obj(fields: seq<Field>)

  datatype Field = Field(key: string, value: Json)

  datatype Param = Param(blockId: string, paramName: string, value: real)

  /** Names every object answers to through its prototype: the `in` operator of the source sees them too. */
  const INHERITED := {
    "constructor", "hasOwnProperty", "isPrototypeOf", "propertyIsEnumerable", "toLocaleString", "toString",
    "valueOf", "__defineGetter__", "__defineSetter__", "__lookupGetter__", "__lookupSetter__"
  }

  predicate Has(fields: seq<Field>, key: string) {
    exists k :: 0 <= k < |fields| && fields[k].key == key
  }

  /** The node's id, if it has one. */
  function NodeId(fields: seq<Field>): Json {
    if fields == [] then Null else if fields[0].key == "nodeId" then fields[0].value else NodeId(fields[1..])
  }

  function SetKey(fields: seq<Field>, key: string, value: Json): (r: seq<Field>)
    ensures |r| == |fields|
  {
    seq(|fields|, k requires 0 <= k < |fields| => if fields[k].key == key then Field(key, value) else fields[k])
  }

  /** `rec[name] = value`, guarded by `name in rec`; an inherited name becomes an own property. */
  function Assign(fields: seq<Field>, name: string, value: real): seq<Field> {
    if Has(fields, name) then SetKey(fields, name, Num(value))
    else if name in INHERITED then fields + [Field(name, Num(value))]
    else fields
  }

  function PatchOne(fields: seq<Field>, p: Param): seq<Field> {
    if NodeId(fields) == Str(p.blockId) then Assign(fields, p.paramName, p.value) else fields
  }

  /** All parameters at one node, in list order. */
  function PatchNode(fields: seq<Field>, params: seq<Param>): seq<Field> {
    if params == [] then fields else PatchOne(PatchNode(fields, params[..|params| - 1]), params[|params| - 1])
  }

  /** Patching replaces values by numbers and appends numbers; everything else stays in place. */
  lemma {:induction false} PatchKeepsPlaces(fields: seq<Field>, params: seq<Param>)
    ensures |PatchNode(fields, params)| >= |fields|
    ensures forall k :: 0 <= k < |PatchNode(fields, params)| && !PatchNode(fields, params)[k].value.Num? ==>
      k < |fields| && PatchNode(fields, params)[k] == fields[k]
  {
    if params != [] {
      PatchKeepsPlaces(fields, params[..|params| - 1]);
    }
  }

  function Walk(j: Json, params: seq<Param>): Json
    decreases j
  {
    match j
    case Arr(items) => Arr(seq(|items|, k requires 0 <= k < |items| => Walk(items[k], params)))
    case Obj(fields) =>
      PatchKeepsPlaces(fields, params);
      var patched := PatchNode(fields, params);
      Obj(seq(|patched|, k requires 0 <= k < |patched| =>
        Field(patched[k].key, if patched[k].value.Num? then patched[k].value else Walk(fields[k].value, params))))
    case _ => j
  }

  function WalkFields(fields: seq<Field>, params: seq<Param>): (r: seq<Field>)
    ensures |r| == |fields|
  {
    seq(|fields|, k requires 0 <= k < |fields| => Field(fields[k].key, Walk(fields[k].value, params)))
  }

  /** A node is patched first, and then its (possibly replaced) children are walked. */
  lemma WalkObject(fields: seq<Field>, params: seq<Param>)
    ensures Walk(Obj(fields), params) == Obj(WalkFields(PatchNode(fields, params), params))
  {
    PatchKeepsPlaces(fields, params);
    var patched := PatchNode(fields, params);
    assert Walk(Obj(fields), params).fields == WalkFields(patched, params);
  }

  /** The parameter loop at one node. */
  method PatchRecord(rec: seq<Field>, params: seq<Param>) returns (r: seq<Field>)
    ensures r == PatchNode(rec, params)
  {
    r := rec;
    for i := 0 to |params|
      invariant r == PatchNode(rec, params[..i])
    {
      var p := params[i];
      assert params[..i + 1][..i] == params[..i];
      if NodeId(r) == Str(p.blockId) && (Has(r, p.paramName) || p.paramName in INHERITED) {
        if Has(r, p.paramName) {
          r := SetKey(r, p.paramName, Num(p.value));
        } else {
          r := r + [Field(p.paramName, Num(p.value))];
        }
      }
    }
    assert params[..|params|] == params;
  }

  // ----- fusion -----

  /** Walking never turns anything into a string, or a string into anything else. */
  lemma {:induction false} WalkKeepsNodeId(fields: seq<Field>, params: seq<Param>, id: string)
    ensures NodeId(WalkFields(fields, params)) == Str(id) <==> NodeId(fields) == Str(id)
  {
    var walked := WalkFields(fields, params);
    if fields != [] && fields[0].key != "nodeId" {
      assert walked[1..] == WalkFields(fields[1..], params);
      WalkKeepsNodeId(fields[1..], params, id);
    }
  }

  /** Patching a walked node is walking the patched one, as numbers are left alone by the walk. */
  lemma PatchCommutes(fields: seq<Field>, params: seq<Param>, p: Param)
    ensures PatchOne(WalkFields(fields, params), p) == WalkFields(PatchOne(fields, p), params)
  {
    var walked := WalkFields(fields, params);
    WalkKeepsNodeId(fields, params, p.blockId);
    assert forall k :: 0 <= k < |fields| ==> walked[k].key == fields[k].key;
    assert Has(walked, p.paramName) <==> Has(fields, p.paramName) by {
      if Has(fields, p.paramName) {
        var k :| 0 <= k < |fields| && fields[k].key == p.paramName;
        assert walked[k].key == p.paramName;
      }
    }
    assert PatchOne(walked, p) == WalkFields(PatchOne(fields, p), params);
  }

  /** One more parameter in the walk is one more walk. */
  lemma {:induction false} FuseOne(j: Json, params: seq<Param>, p: Param)
    ensures Walk(j, params + [p]) == Walk(Walk(j, params), [p])
    decreases j
  {
    match j
    case Arr(items) =>
      forall k | 0 <= k < |items| ensures Walk(items[k], params + [p]) == Walk(Walk(items[k], params), [p]) {
        FuseOne(items[k], params, p);
      }
    case Obj(fields) =>
      var before := PatchNode(fields, params);
      WalkObject(fields, params + [p]);
      WalkObject(fields, params);
      WalkObject(WalkFields(before, params), [p]);
      assert (params + [p])[..|params|] == params;
      assert PatchNode(fields, params + [p]) == PatchOne(before, p);
      assert [p][..0] == [] && PatchNode(WalkFields(before, params), []) == WalkFields(before, params);
      assert PatchNode(WalkFields(before, params), [p]) == PatchOne(WalkFields(before, params), p);
      PatchCommutes(before, params, p);
      FuseChildren(fields, params, p);
    case _ =>
  }

  lemma FuseChildren(fields: seq<Field>, params: seq<Param>, p: Param)
    ensures
      var after := PatchOne(PatchNode(fields, params), p);
      WalkFields(after, params + [p]) == WalkFields(WalkFields(after, params), [p])
    decreases Obj(fields), 0
  {
    var after := PatchOne(PatchNode(fields, params), p);
    assert after == PatchNode(fields, params + [p]) by {
      assert (params + [p])[..|params|] == params;
    }
    PatchKeepsPlaces(fields, params + [p]);
    forall k | 0 <= k < |after|
      ensures Walk(after[k].value, params + [p]) == Walk(Walk(after[k].value, params), [p])
    {
      if !after[k].value.Num? {
        assert after[k] == fields[k];
        FuseOne(fields[k].value, params, p);
      }
    }
  }

  /** Apply the parameters one walk at a time, in list order (`applyDslSweepParam` for each). */
  function OneByOne(j: Json, params: seq<Param>): Json {
    if params == [] then j else Walk(OneByOne(j, params[..|params| - 1]), [params[|params| - 1]])
  }

  lemma {:induction false} NoParams(j: Json)
    ensures Walk(j, []) == j
    decreases j
  {
    match j
    case Arr(items) =>
      forall k | 0 <= k < |items| ensures Walk(items[k], []) == items[k] { NoParams(items[k]); }
      assert Walk(j, []).items == items;
    case Obj(fields) =>
      forall k | 0 <= k < |fields| ensures Walk(fields[k].value, []) == fields[k].value { NoParams(fields[k].value); }
      WalkObject(fields, []);
      assert WalkFields(fields, []) == fields;
    case _ =>
  }

  /** Fusion: one walk with all parameters equals one walk per parameter, duplicates and replaced subtrees included. */
  lemma {:induction false} OneWalkIsEnough(j: Json, params: seq<Param>)
    ensures Walk(j, params) == OneByOne(j, params)
  {
    if params == [] {
      NoParams(j);
    } else {
      OneWalkIsEnough(j, params[..|params| - 1]);
      FuseOne(j, params[..|params| - 1], params[|params| - 1]);
      assert params == params[..|params| - 1] + [params[|params| - 1]];
    }
  }

  // ----- what a patch does to a node -----

  /** The last parameter in the list that targets this key of this node. */
  function LastMatch(id: string, key: string, params: seq<Param>): (r: int)
    ensures -1 <= r < |params|
  {
    if params == [] then -1
    else if params[|params| - 1].blockId == id && params[|params| - 1].paramName == key then |params| - 1
    else LastMatch(id, key, params[..|params| - 1])
  }

  predicate Renames(id: string, p: Param) {
    p.blockId == id && p.paramName == "nodeId"
  }

  /** Some parameter puts a number in place of the node's id, so that the ones after it no longer find the node. */
  ghost predicate Renamed(id: string, params: seq<Param>) {
    exists i :: 0 <= i < |params| && Renames(id, params[i])
  }

  /** The parameters up to and including the first that does so. */
  ghost function Effective(id: string, params: seq<Param>): (r: seq<Param>)
    ensures r <= params
  {
    if params != [] && Renamed(id, params[..|params| - 1]) then Effective(id, params[..|params| - 1]) else params
  }

  lemma RenamedBy(id: string, params: seq<Param>)
    requires params != []
    ensures Renamed(id, params) <==> Renamed(id, params[..|params| - 1]) || Renames(id, params[|params| - 1])
  {
    var before := params[..|params| - 1];
    assert Renames(id, params[|params| - 1]) ==> Renamed(id, params);
    assert forall i :: 0 <= i < |before| ==> before[i] == params[i];
  }

  /** The value the field should have by the last of these parameters that targets it. */
  function LastOf(f: Field, id: string, params: seq<Param>): Field {
    var last := LastMatch(id, f.key, params);
    if last == -1 then f else Field(f.key, Num(params[last].value))
  }

  /**
   * At a node duplicates resolve to the last one and untargeted keys keep their value, among the parameters up
   * to the first that targets its id; nothing after that reaches the node.
   */
  lemma {:induction false} LastWins(fields: seq<Field>, id: string, params: seq<Param>, k: nat)
    requires k < |fields| && NodeId(fields) == Str(id)
    ensures if Renamed(id, params) then NodeId(PatchNode(fields, params)).Num?
            else NodeId(PatchNode(fields, params)) == Str(id)
    ensures |PatchNode(fields, params)| >= |fields|
    ensures PatchNode(fields, params)[k] == LastOf(fields[k], id, Effective(id, params))
  {
    if params != [] {
      var p, before := params[|params| - 1], PatchNode(fields, params[..|params| - 1]);
      LastWins(fields, id, params[..|params| - 1], k);
      RenamedBy(id, params);
      if !Renamed(id, params[..|params| - 1]) {
        AllEffective(id, params[..|params| - 1]);
        assert before[k].key == fields[k].key;
        OnePatch(before, id, p);
      }
    }
  }

  lemma AllEffective(id: string, params: seq<Param>)
    requires !Renamed(id, params)
    ensures Effective(id, params) == params
  {
    if params != [] {
      RenamedBy(id, params);
    }
  }

  lemma OnePatch(fields: seq<Field>, id: string, p: Param)
    requires NodeId(fields) == Str(id)
    ensures NodeId(PatchOne(fields, p)) == if Renames(id, p) then Num(p.value) else Str(id)
  {
    if p.paramName == "nodeId" {
      IdIsSet(fields, Num(p.value));
    } else {
      IdOf(fields, PatchOne(fields, p));
    }
  }

  lemma {:induction false} IdIsSet(fields: seq<Field>, value: Json)
    requires NodeId(fields) != Null
    ensures Has(fields, "nodeId") && NodeId(SetKey(fields, "nodeId", value)) == value
  {
    if fields[0].key != "nodeId" {
      IdIsSet(fields[1..], value);
      var k :| 0 <= k < |fields[1..]| && fields[1..][k].key == "nodeId";
      assert fields[k + 1].key == "nodeId";
      assert SetKey(fields, "nodeId", value)[1..] == SetKey(fields[1..], "nodeId", value);
    }
  }

  lemma {:induction false} IdOf(fields: seq<Field>, g: seq<Field>)
    requires |fields| <= |g|
    requires NodeId(fields) != Null
    requires forall k :: 0 <= k < |fields| ==>
      g[k].key == fields[k].key && (fields[k].key == "nodeId" ==> g[k] == fields[k])
    ensures NodeId(g) == NodeId(fields)
  {
    if fields[0].key != "nodeId" {
      IdOf(fields[1..], g[1..]);
    }
  }

  lemma {:induction false} LastMatchIn(id: string, key: string, params: seq<Param>, n: nat)
    requires n <= |params| && LastMatch(id, key, params) < n
    ensures LastMatch(id, key, params[..n]) == LastMatch(id, key, params)
    decreases |params|
  {
    if n == |params| {
      assert params[..n] == params;
    } else {
      assert params[..|params| - 1][..n] == params[..n];
      LastMatchIn(id, key, params[..|params| - 1], n);
    }
  }

  /** On every node with this id the key gets the value of the last parameter in the whole list that targets it. */
  ghost predicate LastAlwaysWins(id: string, key: string, params: seq<Param>) {
    forall fields: seq<Field>, k: nat :: k < |fields| && NodeId(fields) == Str(id) && fields[k].key == key ==>
      k < |PatchNode(fields, params)| && PatchNode(fields, params)[k] == LastOf(fields[k], id, params)
  }

  /** Where it does: exactly if that parameter still reaches the node, or repeats the value of the last that does. */
  lemma LastWinsExactly(id: string, key: string, params: seq<Param>)
    ensures
      var last, eff := LastMatch(id, key, params), Effective(id, params);
      LastAlwaysWins(id, key, params)
      <==> last < |eff| || (LastMatch(id, key, eff) >= 0 && eff[LastMatch(id, key, eff)].value == params[last].value)
  {
    var last, eff := LastMatch(id, key, params), Effective(id, params);
    assert eff == params[..|eff|];
    if last < |eff| {
      LastMatchIn(id, key, params, |eff|);
    }
    forall fields: seq<Field>, k: nat | k < |fields| && NodeId(fields) == Str(id) && fields[k].key == key
      ensures k < |PatchNode(fields, params)|
      ensures PatchNode(fields, params)[k] == LastOf(fields[k], id, eff)
    {
      LastWins(fields, id, params, k);
    }
    hide PatchNode;
    hide Effective;
    hide LastMatch;
    var plain, k := PlainNode(id, key);
    assert PatchNode(plain, params)[k] == LastOf(plain[k], id, eff);
  }

  /** A node with the key on which no number is written yet. */
  lemma PlainNode(id: string, key: string) returns (fields: seq<Field>, k: nat)
    ensures k < |fields| && NodeId(fields) == Str(id) && fields[k].key == key && !fields[k].value.Num?
  {
    fields := if key == "nodeId" then [Field(key, Str(id))] else [Field("nodeId", Str(id)), Field(key, Null)];
    k := |fields| - 1;
  }

  /** A list that names the node's id first: the second parameter is lost. */
  lemma RenamingExample()
    ensures
      var fields, rename, x := [Field("nodeId", Str("b")), Field("x", Num(0.0))], Param("b", "nodeId", 7.0),
                               Param("b", "x", 2.0);
      && LastMatch("b", "x", [rename, x]) == 1
      && PatchNode(fields, [rename, x]) == [Field("nodeId", Num(7.0)), Field("x", Num(0.0))]
  {
    var fields := [Field("nodeId", Str("b")), Field("x", Num(0.0))];
    var rename, x := Param("b", "nodeId", 7.0), Param("b", "x", 2.0);
    assert [rename][..0] == [] && [rename, x][..1] == [rename];
    assert fields[0].key == "nodeId";
    assert PatchNode(fields, [rename]) == SetKey(fields, "nodeId", Num(7.0)) by {
      assert PatchNode(fields, []) == fields;
    }
    assert "x" != "nodeId";
    assert PatchNode(fields, [rename]) == [Field("nodeId", Num(7.0)), Field("x", Num(0.0))];
  }

  function Keys(fields: seq<Field>): seq<string> {
    seq(|fields|, k requires 0 <= k < |fields| => fields[k].key)
  }

  /** A patch adds a key exactly when it names an inherited property the matching node does not own. */
  lemma KeysPreservedExactly(fields: seq<Field>, p: Param)
    ensures Keys(PatchOne(fields, p)) == Keys(fields)
      <==> !(NodeId(fields) == Str(p.blockId) && !Has(fields, p.paramName) && p.paramName in INHERITED)
  {
    if Has(fields, p.paramName) {
      assert Keys(SetKey(fields, p.paramName, Num(p.value))) == Keys(fields);
    } else if NodeId(fields) == Str(p.blockId) && p.paramName in INHERITED {
      assert |Keys(PatchOne(fields, p))| == |Keys(fields)| + 1;
    }
  }

  /** So ordinary parameter names never change the keys of any node on the walk. */
  lemma OrdinaryNamesKeepKeys(fields: seq<Field>, params: seq<Param>)
    requires forall i :: 0 <= i < |params| ==> params[i].paramName !in INHERITED
    ensures Keys(WalkFields(PatchNode(fields, params), params)) == Keys(fields)
  {
    PatchedKeys(fields, params);
    assert Keys(WalkFields(PatchNode(fields, params), params)) == Keys(PatchNode(fields, params));
  }

  lemma {:induction false} PatchedKeys(fields: seq<Field>, params: seq<Param>)
    requires forall i :: 0 <= i < |params| ==> params[i].paramName !in INHERITED
    ensures Keys(PatchNode(fields, params)) == Keys(fields)
  {
    if params != [] {
      PatchedKeys(fields, params[..|params| - 1]);
      KeysPreservedExactly(PatchNode(fields, params[..|params| - 1]), params[|params| - 1]);
    }
  }

  /** `w` has `j`'s shape and keys at every depth, except below values that a number replaced. */
  predicate KeysKept(j: Json, w: Json)
    decreases j
  {
    match j
    case Arr(items) => w.Arr? && |w.items| == |items| && forall k :: 0 <= k < |items| ==> KeysKept(items[k], w.items[k])
    case Obj(fields) =>
      && w.Obj? && Keys(w.fields) == Keys(fields)
      && forall k :: 0 <= k < |fields| ==> w.fields[k].value.Num? || KeysKept(fields[k].value, w.fields[k].value)
    case _ => w == j
  }

  /** Over the whole tree: with ordinary names a walk changes no key and no shape; it only puts numbers in place. */
  lemma {:induction false} WalkKeepsKeys(j: Json, params: seq<Param>)
    requires forall i :: 0 <= i < |params| ==> params[i].paramName !in INHERITED
    ensures KeysKept(j, Walk(j, params))
    decreases j
  {
    match j
    case Arr(items) =>
      forall k | 0 <= k < |items| ensures KeysKept(items[k], Walk(items[k], params)) {
        WalkKeepsKeys(items[k], params);
      }
    case Obj(fields) =>
      PatchKeepsPlaces(fields, params);
      OrdinaryNamesKeepKeys(fields, params);
      WalkObject(fields, params);
      var patched, w := PatchNode(fields, params), Walk(j, params);
      PatchedKeys(fields, params);
      assert |Keys(patched)| == |Keys(fields)|;
      forall k | 0 <= k < |fields|
        ensures w.fields[k].value.Num? || KeysKept(fields[k].value, w.fields[k].value)
      {
        if !patched[k].value.Num? {
          WalkKeepsKeys(fields[k].value, params);
        }
      }
    case _ =>
  }
}
