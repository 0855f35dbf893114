/** Layered configuration: mappings merged in place onto the defaults, layer by layer. The result
    shares sub-mappings with the layers it came from, and later layers are merged into those. */
module ConfigMerge {
  import opened Options

  /** A decoded document, as a value. The elements of a list are not looked into. */
  datatype Tree = Scalar(text: string) | Items(list: seq<string>) | Sub(m: map<string, Tree>)

  /** What a mapping in memory holds for a key. */
  datatype Value = Text(text: string) | List(list: seq<string>) | Child(node: Node)

  // ---------------------------------------------------------------- merging values

  /** Right-biased deep merge: mappings merge key by key, anything else replaces. */
  function Merge(lower: Tree, upper: Tree): Tree
    decreases upper
  {
    if lower.Sub? && upper.Sub? then
      Sub(map k | k in lower.m.Keys + upper.m.Keys ::
            if k !in upper.m then lower.m[k]
            else if k !in lower.m then upper.m[k]
            else Merge(lower.m[k], upper.m[k]))
    else upper
  }

  function Fold(base: Tree, layers: seq<Tree>): Tree {
    if layers == [] then base else Merge(Fold(base, layers[..|layers| - 1]), layers[|layers| - 1])
  }

  // ---------------------------------------------------------------- what a merge means

  function Lookup(t: Tree, path: seq<string>): Option<Tree> {
    if path == [] then Some(t)
    else if t.Sub? && path[0] in t.m then Lookup(t.m[path[0]], path[1..])
    else None
  }

  /** The setting at a path: what is there, unless it is a mapping. */
  function LeafAt(t: Tree, path: seq<string>): Option<Tree> {
    var found := Lookup(t, path);
    if found.Some? && found.value.Sub? then None else found
  }

  /** The way to `path` ends at something that is not a mapping. */
  predicate Stops(t: Tree, path: seq<string>) {
    path != [] && (t.Sub? ==> path[0] in t.m && Stops(t.m[path[0]], path[1..]))
  }

  /** A setting of a merge is the upper layer's, or the lower one's where the upper layer has nothing at
      the path or in the way of it. */
  lemma MergeLookup(lower: Tree, upper: Tree, path: seq<string>, setting: Tree)
    requires !setting.Sub?
    ensures Lookup(Merge(lower, upper), path) == Some(setting)
            <==> Lookup(upper, path) == Some(setting)
                 || (Lookup(upper, path).None? && !Stops(upper, path) && Lookup(lower, path) == Some(setting))
  {
    MergeLeaf(lower, upper, path);
  }

  lemma {:induction false} MergeLeaf(lower: Tree, upper: Tree, path: seq<string>)
    ensures LeafAt(Merge(lower, upper), path)
            == if Lookup(upper, path).Some? then LeafAt(upper, path)
               else if Stops(upper, path) then None
               else LeafAt(lower, path)
    decreases |path|
  {
    if path == [] || !lower.Sub? || !upper.Sub? {
    } else {
      var k := path[0];
      if k in lower.m && k in upper.m {
        MergeLeaf(lower.m[k], upper.m[k], path[1..]);
      }
    }
  }

  /** No setting of `lower` is a mapping in `upper`, or has a setting of `upper` in its way. */
  ghost predicate Agree(lower: Tree, upper: Tree) {
    forall path :: LeafAt(lower, path).Some? ==>
      !(Lookup(upper, path).Some? && Lookup(upper, path).value.Sub?) && !Stops(upper, path)
  }

  function Either(upper: Option<Tree>, lower: Option<Tree>): Option<Tree> {
    if upper.Some? then upper else lower
  }

  /** Every setting of a merge comes from the upper layer if that supplies it and from the lower
      one otherwise, if and only if the layers agree on which paths are mappings. */
  lemma UpperWins(lower: Tree, upper: Tree)
    ensures (forall path :: LeafAt(Merge(lower, upper), path) == Either(LeafAt(upper, path), LeafAt(lower, path)))
            <==> Agree(lower, upper)
  {
    forall path ensures LeafAt(Merge(lower, upper), path)
                        == if Lookup(upper, path).Some? then LeafAt(upper, path)
                           else if Stops(upper, path) then None
                           else LeafAt(lower, path)
    {
      MergeLeaf(lower, upper, path);
    }
    forall path | Stops(upper, path) ensures Lookup(upper, path) == None {
      StopsNothing(upper, path);
    }
  }

  lemma {:induction false} StopsNothing(t: Tree, path: seq<string>)
    requires Stops(t, path)
    ensures Lookup(t, path) == None
    decreases |path|
  {
    if !t.Sub? {
    } else {
      StopsNothing(t.m[path[0]], path[1..]);
    }
  }

  /** A layer supplies a setting at a path. */
  predicate Supplies(t: Tree, path: seq<string>) {
    Lookup(t, path).Some? && !Lookup(t, path).value.Sub?
  }

  function HighestLeaf(base: Tree, layers: seq<Tree>, path: seq<string>): Option<Tree> {
    if layers == [] then LeafAt(base, path)
    else Either(LeafAt(layers[|layers| - 1], path), HighestLeaf(base, layers[..|layers| - 1], path))
  }

  /** Every layer agrees with the defaults and with every layer below it. */
  ghost predicate AllAgree(base: Tree, layers: seq<Tree>) {
    if layers == [] then true
    else
      var front, last := layers[..|layers| - 1], layers[|layers| - 1];
      AllAgree(base, front) && Agree(base, last) && forall i :: 0 <= i < |front| ==> Agree(front[i], last)
  }

  lemma {:induction false} SomeLayer(base: Tree, layers: seq<Tree>, path: seq<string>)
    ensures HighestLeaf(base, layers, path).Some? ==>
              LeafAt(base, path).Some? || exists i :: 0 <= i < |layers| && LeafAt(layers[i], path).Some?
    decreases |layers|
  {
    if layers == [] {
    } else {
      var front := layers[..|layers| - 1];
      SomeLayer(base, front, path);
      if i :| 0 <= i < |front| && LeafAt(front[i], path).Some? {
        assert LeafAt(layers[i], path).Some?;
      }
    }
  }

  /** When the layers agree on which paths are mappings, every setting of the merged configuration
      is the one of the highest layer that supplies it, the defaults being the lowest. */
  lemma HighestLayerWins(base: Tree, layers: seq<Tree>, path: seq<string>, setting: Tree)
    requires AllAgree(base, layers) && !setting.Sub?
    ensures Lookup(Fold(base, layers), path) == Some(setting)
            <==> exists i :: 0 <= i <= |layers| && HasHighest([base] + layers, path, setting, i)
  {
    HighestLeafWins(base, layers, path);
    HighestIs(base, layers, path, setting);
  }

  /** Layer `i` supplies that setting, and no layer above it supplies any. */
  predicate HasHighest(layers: seq<Tree>, path: seq<string>, setting: Tree, i: nat)
    requires i < |layers|
  {
    Lookup(layers[i], path) == Some(setting) && forall j :: i < j < |layers| ==> !Supplies(layers[j], path)
  }

  lemma {:induction false} HighestIs(base: Tree, layers: seq<Tree>, path: seq<string>, setting: Tree)
    requires !setting.Sub?
    ensures HighestLeaf(base, layers, path) == Some(setting)
            <==> exists i :: 0 <= i <= |layers| && HasHighest([base] + layers, path, setting, i)
    decreases |layers|
  {
    var all := [base] + layers;
    if layers == [] {
      assert HasHighest(all, path, setting, 0) <==> Lookup(base, path) == Some(setting);
    } else {
      var n := |layers|;
      var front := layers[..n - 1];
      var below := [base] + front;
      assert forall j :: 0 <= j < n ==> all[j] == below[j];
      assert all[n] == layers[n - 1];
      HighestIs(base, front, path, setting);
      assert HasHighest(all, path, setting, n) <==> Lookup(all[n], path) == Some(setting);
      forall i | 0 <= i < n
        ensures HasHighest(all, path, setting, i) <==> HasHighest(below, path, setting, i) && !Supplies(all[n], path)
      {
      }
    }
  }

  lemma {:induction false} HighestLeafWins(base: Tree, layers: seq<Tree>, path: seq<string>)
    requires AllAgree(base, layers)
    ensures LeafAt(Fold(base, layers), path) == HighestLeaf(base, layers, path)
    decreases |layers|
  {
    if layers == [] {
    } else {
      var front, last := layers[..|layers| - 1], layers[|layers| - 1];
      forall p ensures LeafAt(Fold(base, front), p) == HighestLeaf(base, front, p) {
        HighestLeafWins(base, front, p);
      }
      forall p | LeafAt(Fold(base, front), p).Some?
        ensures !(Lookup(last, p).Some? && Lookup(last, p).value.Sub?) && !Stops(last, p)
      {
        SomeLayer(base, front, p);
        assert Agree(base, last);
      }
      UpperWins(Fold(base, front), last);
    }
  }

  /** Half way: only `keys` of `upper` are merged so far. */
  function MergeOn(lower: Tree, upper: Tree, keys: set<string>): Tree
    requires lower.Sub? && upper.Sub? && keys <= upper.m.Keys
  {
    Sub(map k | k in lower.m.Keys + keys ::
          if k !in keys then lower.m[k]
          else if k !in lower.m then upper.m[k]
          else Merge(lower.m[k], upper.m[k]))
  }

  lemma MergeOnStep(lower: Tree, upper: Tree, keys: set<string>, key: string)
    requires lower.Sub? && upper.Sub? && keys <= upper.m.Keys && key in upper.m && key !in keys
    ensures var before := MergeOn(lower, upper, keys);
            && (key in before.m <==> key in lower.m)
            && (key in lower.m ==> before.m[key] == lower.m[key])
            && MergeOn(lower, upper, keys + {key})
               == Sub(before.m[key := if key in lower.m then Merge(lower.m[key], upper.m[key]) else upper.m[key]])
  {
  }

  // ---------------------------------------------------------------- merging in place

  /** A mapping in memory. `model` is its value, `foot` every mapping it is made of. */
  class Node {
    var entries: map<string, Value>
    ghost var model: Tree
    ghost var foot: set<Node>

    /** The model is what the mappings hold, and they form a tree; the entries of `holes` are left
        out of account. */
    ghost predicate Valid(holes: set<string>)
      reads this, foot
      decreases foot
    {
      && this in foot && model.Sub? && model.m.Keys == entries.Keys - holes
      && (forall k :: k in model.m ==>
            match entries[k]
            case Text(text) => model.m[k] == Scalar(text)
            case List(list) => model.m[k] == Items(list)
            case Child(c) => c in foot && c.foot <= foot && this !in c.foot && c.Valid({}) && model.m[k] == c.model)
      && (forall j, k :: j in model.m && k in model.m && j != k && entries[j].Child? && entries[k].Child? ==>
            entries[j].node.foot !! entries[k].node.foot)
    }

    /** Takes the mapping held for `key` out of account, to merge into it by itself. */
    ghost method Detach(key: string)
      requires Valid({}) && key in entries && entries[key].Child?
      modifies this`model, this`foot
      ensures Valid({key}) && model == Sub(old(model).m - {key}) && foot == old(foot) - entries[key].node.foot
      ensures Holds(entries[key], old(model).m[key], foot)
    {
      model := Sub(model.m - {key});
      foot := foot - entries[key].node.foot;
    }

    /** Leaves whatever is held for `key` out of account, to replace it. */
    ghost method Forget(key: string)
      requires Valid({})
      modifies this`model
      ensures Valid({key}) && model == Sub(old(model).m - {key})
    {
      model := Sub(model.m - {key});
    }

    /** Puts it back. */
    ghost method Attach(key: string, tree: Tree)
      requires Valid({key}) && key in entries && Holds(entries[key], tree, foot)
      modifies this`model, this`foot
      ensures Valid({}) && model == Sub(old(model).m[key := tree]) && foot == old(foot) + FootOf(entries[key])
    {
      model := Sub(model.m[key := tree]);
      foot := foot + FootOf(entries[key]);
    }
  }

  /** `value` holds `tree`, in mappings apart from `foot`. */
  ghost predicate Holds(value: Value, tree: Tree, foot: set<Node>)
    reads if value.Child? then {value.node} + value.node.foot else {}
  {
    match value
    case Text(text) => tree == Scalar(text)
    case List(list) => tree == Items(list)
    case Child(c) => c.Valid({}) && c.model == tree && c.foot !! foot
  }

  ghost function FootOf(value: Value): set<Node>
    reads if value.Child? then {value.node} else {}
  {
    if value.Child? then value.node.foot else {}
  }

  /** base[key] = value. */
  method Assign(base: Node, key: string, value: Value, ghost tree: Tree)
    requires base.Valid({}) && Holds(value, tree, base.foot)
    modifies base
    ensures base.Valid({}) && base.model == Sub(old(base.model).m[key := tree])
    ensures base.entries == old(base.entries)[key := value] && base.foot == old(base.foot) + FootOf(value)
  {
    PutAgain(base.model.m, key, tree);
    base.Forget(key);
    base.entries := base.entries[key := value];
    base.Attach(key, tree);
  }

  lemma PutAgain(m: map<string, Tree>, key: string, tree: Tree)
    ensures (m - {key})[key := tree] == m[key := tree]
  {
  }

  lemma SiblingsApart(base: Node, key: string)
    requires base.Valid({}) && key in base.entries && base.entries[key].Child?
    ensures forall k :: k in base.entries && k != key && base.entries[k].Child? ==>
              base.entries[k].node != base && base.entries[k].node !in base.entries[key].node.foot
  {
    forall k | k in base.entries && k != key && base.entries[k].Child?
      ensures base.entries[k].node != base && base.entries[k].node !in base.entries[key].node.foot
    {
      assert base.entries[k].node in base.entries[k].node.foot;
    }
  }

  /** Merges `overlay` into the mapping `base` holds for `key`. */
  method MergeChild(base: Node, key: string, overlay: Node)
    requires base.Valid({}) && key in base.entries && base.entries[key].Child?
    requires overlay.Valid({}) && base.foot !! overlay.foot
    modifies base, base.entries[key].node.foot
    ensures base.Valid({}) && base.model == Sub(old(base.model).m[key := Merge(old(base.model).m[key], overlay.model)])
    ensures base.entries == old(base.entries) && base.foot <= old(base.foot) + overlay.foot - {overlay}
    ensures forall k :: k in base.entries && k != key ==> FootOf(base.entries[k]) == old(FootOf(base.entries[k]))
    decreases overlay.foot, 2
  {
    var child := base.entries[key].node;
    SiblingsApart(base, key);
    PutAgain(base.model.m, key, Merge(child.model, overlay.model));
    base.Detach(key);
    MergeMappings(child, overlay);
    base.Attach(key, child.model);
  }

  /** What the overlay still holds for `todo` is apart from `foot`. */
  ghost predicate Apart(overlay: Node, todo: set<string>, foot: set<Node>)
    reads overlay, overlay.foot
  {
    forall k :: k in todo && k in overlay.entries && overlay.entries[k].Child? ==>
      overlay.entries[k].node in overlay.foot && overlay.entries[k].node.foot !! foot
  }

  lemma ApartStep(overlay: Node, todo: set<string>, key: string, foot: set<Node>, more: set<Node>)
    requires overlay.Valid({}) && Apart(overlay, todo, foot) && key in overlay.entries
    requires more <= foot + FootOf(overlay.entries[key])
    ensures Apart(overlay, todo - {key}, more)
  {
  }

  lemma ApartWithin(overlay: Node, todo: set<string>, foot: set<Node>, within: set<Node>)
    requires Apart(overlay, todo, foot) && within <= foot
    ensures Apart(overlay, todo, within)
  {
  }

  /** One key of the overlay, of which `todo` are still to be merged. */
  method MergeKey(base: Node, overlay: Node, key: string, ghost todo: set<string>)
    requires base.Valid({}) && overlay.Valid({}) && overlay !in base.foot
    requires key in todo && todo <= overlay.entries.Keys && Apart(overlay, todo, base.foot)
    modifies base, if key in base.entries then FootOf(base.entries[key]) else {}
    ensures base.Valid({})
    ensures base.model == Sub(old(base.model).m[key := var tree := old(overlay.model).m[key];
                                                       if key in old(base.model).m
                                                       then Merge(old(base.model).m[key], tree) else tree])
    ensures base.foot <= old(base.foot) + old(FootOf(overlay.entries[key]))
    ensures forall k :: k in base.entries && k != key ==>
              k in old(base.entries) && base.entries[k] == old(base.entries)[k]
              && FootOf(base.entries[k]) == old(FootOf(base.entries[k]))
    decreases overlay.foot, 0
  {
    var value := overlay.entries[key];
    if key in base.entries && base.entries[key].Child? && value.Child? {
      MergeChild(base, key, value.node);
    } else {
      Assign(base, key, value, overlay.model.m[key]);
    }
  }

  /** mergeConfigMappings: merges `overlay` into `base`. The overlay's mappings are not changed, but
      become part of `base`. */
  method MergeMappings(base: Node, overlay: Node)
    requires base.Valid({}) && overlay.Valid({}) && base.foot !! overlay.foot
    modifies base.foot
    ensures base.Valid({}) && base.model == Merge(old(base.model), overlay.model)
    ensures base.foot <= old(base.foot) + overlay.foot - {overlay}
    decreases overlay.foot, 1
  {
    ghost var lower, done := base.model, {};
    var todo := overlay.entries.Keys;
    while todo != {}
      invariant done + todo == overlay.entries.Keys && done !! todo
      invariant base.Valid({}) && base.foot <= old(base.foot) + overlay.foot - {overlay}
      invariant base.model == MergeOn(lower, overlay.model, done)
      invariant Apart(overlay, todo, base.foot)
      invariant forall k :: k in todo && k in base.entries ==> FootOf(base.entries[k]) <= old(base.foot)
      decreases todo
    {
      var key :| key in todo;
      ghost var next := base.foot + FootOf(overlay.entries[key]);
      MergeOnStep(lower, overlay.model, done, key);
      ApartStep(overlay, todo, key, base.foot, next);
      MergeKey(base, overlay, key, todo);
      todo, done := todo - {key}, done + {key};
      ApartWithin(overlay, todo, next, base.foot);
    }
    assert done == overlay.model.m.Keys;
  }

  // ---------------------------------------------------------------- layers

  /** The documents from the `i`th on are as decoded, made of `feet`, and share nothing with each
      other or with `base`. */
  ghost predicate Separate(base: Node, docs: seq<Node>, i: nat, models: seq<Tree>, feet: seq<set<Node>>)
    requires |models| == |feet| == |docs|
    reads base, docs, set j, n | 0 <= j < |docs| && n in docs[j].foot :: n
  {
    && (forall j :: i <= j < |docs| ==> DocumentOk(base, docs[j], models[j], feet[j]))
    && (forall j, k :: i <= j < k < |docs| ==> feet[j] !! feet[k])
  }

  ghost predicate DocumentOk(base: Node, doc: Node, model: Tree, foot: set<Node>)
    reads base, doc, doc.foot
  {
    doc.Valid({}) && doc.model == model && doc.foot == foot && foot !! base.foot
  }

  function Union<T>(sets: seq<set<T>>): set<T> {
    if sets == [] then {} else Union(sets[..|sets| - 1]) + sets[|sets| - 1]
  }

  lemma {:induction false} InUnion<T>(sets: seq<set<T>>, i: nat)
    requires i < |sets|
    ensures sets[i] <= Union(sets)
  {
    if i == |sets| - 1 {
    } else {
      InUnion(sets[..|sets| - 1], i);
    }
  }

  /** One document, leaving those above it alone. */
  method MergeDocument(base: Node, docs: seq<Node>, i: nat, ghost models: seq<Tree>, ghost feet: seq<set<Node>>)
    requires i < |docs| == |models| == |feet|
    requires base.Valid({}) && Separate(base, docs, i, models, feet)
    modifies base.foot
    ensures base.Valid({}) && base.model == Merge(old(base.model), models[i])
    ensures base.foot <= old(base.foot) + feet[i] && Separate(base, docs, i + 1, models, feet)
  {
    assert forall j :: i <= j < |docs| ==> DocumentOk(base, docs[j], models[j], feet[j]);
    MergeMappings(base, docs[i]);
    forall j | i < j < |docs| ensures DocumentOk(base, docs[j], models[j], feet[j]) {
      assert old(DocumentOk(base, docs[j], models[j], feet[j]));
    }
  }

  /** The loop of configFromDocuments: every document in turn is merged into the defaults. */
  method MergeLayers(base: Node, docs: seq<Node>, ghost models: seq<Tree>, ghost feet: seq<set<Node>>)
    requires |models| == |feet| == |docs|
    requires base.Valid({}) && Separate(base, docs, 0, models, feet)
    modifies base.foot, Union(feet)
    ensures base.Valid({}) && base.model == Fold(old(base.model), models)
    ensures base.foot <= old(base.foot) + Union(feet)
  {
    var i := 0;
    assert models[..0] == [];
    while i < |docs|
      invariant 0 <= i <= |docs|
      invariant base.Valid({}) && base.model == Fold(old(base.model), models[..i])
      invariant base.foot <= old(base.foot) + Union(feet) && Separate(base, docs, i, models, feet)
    {
      InUnion(feet, i);
      MergeDocument(base, docs, i, models, feet);
      assert models[..i + 1][..i] == models[..i];
      i := i + 1;
    }
    assert models[..i] == models;
  }

  // ---------------------------------------------------------------- instance lists

  const ICL := "icl"
  const INSTANCES := "instances"
  const INSTANCES_MERGE := "instancesMerge"
  const APPEND := "append"

  datatype Error = IclNotMap | InstancesNotList
  datatype Result<T> = Ok(value: T) | Err(error: Error)

  /** The instance list a document supplies, if any. */
  function Instances(doc: Tree): Result<Option<seq<string>>> {
    if !doc.Sub? || ICL !in doc.m then Ok(None)
    else if !doc.m[ICL].Sub? then Err(IclNotMap)
    else if INSTANCES !in doc.m[ICL].m then Ok(None)
    else match doc.m[ICL].m[INSTANCES]
      case Items(list) => Ok(Some(list))
      case _ => Err(InstancesNotList)
  }

  /** All the lists that `docs` supply, in order; the first malformed document fails. */
  function Contributions(docs: seq<Tree>): Result<seq<seq<string>>> {
    if docs == [] then Ok([])
    else match Contributions(docs[..|docs| - 1])
      case Err(e) => Err(e)
      case Ok(front) =>
        match Instances(docs[|docs| - 1])
        case Err(e) => Err(e)
        case Ok(None) => Ok(front)
        case Ok(Some(list)) => Ok(front + [list])
  }

  function Concat(lists: seq<seq<string>>): seq<string> {
    if lists == [] then [] else Concat(lists[..|lists| - 1]) + lists[|lists| - 1]
  }

  predicate HasIcl(t: Tree) {
    t.Sub? && ICL in t.m && t.m[ICL].Sub?
  }

  predicate Appends(merged: Tree) {
    HasIcl(merged) && INSTANCES_MERGE in merged.m[ICL].m && merged.m[ICL].m[INSTANCES_MERGE] == Scalar(APPEND)
  }

  function WithInstances(merged: Tree, list: seq<string>): Tree
    requires HasIcl(merged)
  {
    Sub(merged.m[ICL := Sub(merged.m[ICL].m[INSTANCES := Items(list)])])
  }

  /** The merged configuration, in append mode with the original lists of all layers. */
  function Effective(base: Tree, layers: seq<Tree>): Result<Tree> {
    match Contributions([base] + layers)
    case Err(e) => Err(e)
    case Ok(lists) =>
      var merged := Fold(base, layers);
      if !HasIcl(merged) then Err(IclNotMap)
      else if Appends(merged) then Ok(WithInstances(merged, Concat(lists)))
      else Ok(merged)
  }

  /** instanceListContributions for one document. */
  method ReadInstances(doc: Node) returns (r: Result<Option<seq<string>>>)
    requires doc.Valid({})
    ensures r == Instances(doc.model)
  {
    if ICL !in doc.entries {
      return Ok(None);
    }
    match doc.entries[ICL] {
      case Child(icl) =>
        assert icl.Valid({}) && doc.model.m[ICL] == icl.model;
        if INSTANCES !in icl.entries {
          return Ok(None);
        }
        match icl.entries[INSTANCES] {
          case List(list) => return Ok(Some(list));
          case _ => return Err(InstancesNotList);
        }
      case _ => return Err(IclNotMap);
    }
  }

  /** instanceListContributions. */
  method InstanceLists(docs: seq<Node>, ghost trees: seq<Tree>) returns (r: Result<seq<seq<string>>>)
    requires |trees| == |docs| && forall i :: 0 <= i < |docs| ==> docs[i].Valid({}) && docs[i].model == trees[i]
    ensures r == Contributions(trees)
  {
    var lists: seq<seq<string>> := [];
    for i := 0 to |docs|
      invariant Contributions(trees[..i]) == Ok(lists)
    {
      assert trees[..i + 1][..i] == trees[..i];
      var next := ReadInstances(docs[i]);
      match next {
        case Err(e) =>
          FirstError(trees, i + 1);
          return Err(e);
        case Ok(None) =>
        case Ok(Some(list)) => lists := lists + [list];
      }
    }
    assert trees[..|docs|] == trees;
    r := Ok(lists);
  }

  method Flatten(lists: seq<seq<string>>) returns (all: seq<string>)
    ensures all == Concat(lists)
  {
    all := [];
    for i := 0 to |lists|
      invariant all == Concat(lists[..i])
    {
      assert lists[..i + 1][..i] == lists[..i];
      all := all + lists[i];
    }
    assert lists[..|lists|] == lists;
  }

  /** configFromDocuments up to validation: the lists are collected before any document is merged,
      because merging changes the documents' mappings. */
  method FromDocuments(base: Node, docs: seq<Node>, ghost models: seq<Tree>, ghost feet: seq<set<Node>>)
    returns (error: Option<Error>)
    requires |models| == |feet| == |docs|
    requires base.Valid({}) && Separate(base, docs, 0, models, feet)
    modifies base.foot, Union(feet)
    ensures base.Valid({})
    ensures Effective(old(base.model), models) == if error.Some? then Err(error.value) else Ok(base.model)
  {
    forall i | 0 <= i < |docs| ensures docs[i].Valid({}) && docs[i].model == models[i] {
      assert DocumentOk(base, docs[i], models[i], feet[i]);
    }
    var lists := InstanceLists([base] + docs, [base.model] + models);
    if lists.Err? {
      return Some(lists.error);
    }
    MergeLayers(base, docs, models, feet);
    error := AppendInstances(base, lists.value);
  }

  method AppendInstances(base: Node, lists: seq<seq<string>>) returns (error: Option<Error>)
    requires base.Valid({})
    modifies base.foot
    ensures base.Valid({})
    ensures error == if HasIcl(old(base.model)) then None else Some(IclNotMap)
    ensures base.model
            == if Appends(old(base.model)) then WithInstances(old(base.model), Concat(lists)) else old(base.model)
  {
    if ICL !in base.entries || !base.entries[ICL].Child? {
      return Some(IclNotMap);
    }
    var icl := base.entries[ICL].node;
    assert icl.Valid({}) && base.model.m[ICL] == icl.model;
    if INSTANCES_MERGE in icl.entries && icl.entries[INSTANCES_MERGE] == Text(APPEND) {
      var all := Flatten(lists);
      AssignInside(base, ICL, INSTANCES, List(all), Items(all));
    }
    error := None;
  }

  lemma {:induction false} FirstError(docs: seq<Tree>, n: nat)
    requires n <= |docs| && Contributions(docs[..n]).Err?
    ensures Contributions(docs) == Contributions(docs[..n])
    decreases |docs|
  {
    if n == |docs| {
      assert docs[..n] == docs;
    } else {
      assert docs[..|docs| - 1][..n] == docs[..n];
      FirstError(docs[..|docs| - 1], n);
    }
  }

  /** base[outer][key] = value. */
  method AssignInside(base: Node, outer: string, key: string, value: Value, ghost tree: Tree)
    requires base.Valid({}) && outer in base.entries && base.entries[outer].Child? && Holds(value, tree, base.foot)
    requires base.model.m[outer].Sub?
    modifies base.foot
    ensures base.Valid({})
    ensures base.model == Sub(old(base.model).m[outer := Sub(old(base.model).m[outer].m[key := tree])])
  {
    var inner := base.entries[outer].node;
    PutAgain(base.model.m, outer, Sub(inner.model.m[key := tree]));
    base.Detach(outer);
    Assign(inner, key, value, tree);
    base.Attach(outer, inner.model);
  }

  // ---------------------------------------------------------------- append mode

  lemma {:induction false} FoldKeepsIcl(base: Tree, layers: seq<Tree>)
    requires HasIcl(base) && forall i :: 0 <= i < |layers| ==> layers[i].Sub? && Instances(layers[i]).Ok?
    ensures HasIcl(Fold(base, layers))
  {
    if layers == [] {
    } else {
      var front, last := layers[..|layers| - 1], layers[|layers| - 1];
      FoldKeepsIcl(base, front);
      var lower := Fold(base, front);
      if ICL in last.m {
        assert Merge(lower, last).m[ICL] == Merge(lower.m[ICL], last.m[ICL]);
      }
    }
  }

  /** What is wrong with a document, if anything: icl has to be a mapping, its instances a list. */
  function Fault(doc: Tree): Option<Error> {
    match Lookup(doc, ["icl"])
    case None => None
    case Some(Sub(_)) =>
      (match Lookup(doc, ["icl", "instances"])
       case None => None
       case Some(Items(_)) => None
       case Some(_) => Some(InstancesNotList))
    case Some(_) => Some(IclNotMap)
  }

  /** The instances a document lists. */
  function Supplied(doc: Tree): seq<string> {
    match Lookup(doc, ["icl", "instances"]) case Some(Items(list)) => list case _ => []
  }

  function AllSupplied(docs: seq<Tree>): seq<string> {
    if docs == [] then [] else Supplied(docs[0]) + AllSupplied(docs[1..])
  }

  lemma LookupTwo(t: Tree, outer: string, inner: string)
    ensures Lookup(t, [outer]) == if t.Sub? && outer in t.m then Some(t.m[outer]) else None
    ensures Lookup(t, [outer, inner])
            == if t.Sub? && outer in t.m && t.m[outer].Sub? && inner in t.m[outer].m
               then Some(t.m[outer].m[inner]) else None
  {
    assert [outer][1..] == [] && [inner][1..] == [] && [outer, inner][1..] == [inner];
    if t.Sub? && outer in t.m {
      assert Lookup(t.m[outer], []) == Some(t.m[outer]);
      var found := t.m[outer];
      assert Lookup(t, [outer, inner]) == Lookup(found, [inner]);
      assert found.Sub? && inner in found.m ==> Lookup(found.m[inner], []) == Some(found.m[inner]);
    }
  }

  lemma InstancesAre(doc: Tree)
    ensures Instances(doc).Err? <==> Fault(doc).Some?
    ensures Instances(doc).Err? ==> Instances(doc).error == Fault(doc).value
    ensures Instances(doc).Ok? ==>
              Supplied(doc) == if Instances(doc).value.Some? then Instances(doc).value.value else []
  {
    LookupTwo(doc, "icl", "instances");
  }

  lemma {:induction false} AllSuppliedSnoc(docs: seq<Tree>, doc: Tree)
    ensures AllSupplied(docs + [doc]) == AllSupplied(docs) + Supplied(doc)
  {
    if docs == [] {
      assert AllSupplied([doc][1..]) == [];
      assert [] + [doc] == [doc];
    } else {
      assert (docs + [doc])[1..] == docs[1..] + [doc];
      AllSuppliedSnoc(docs[1..], doc);
    }
  }

  /** The lists that are collected, one after the other, or the first fault. */
  lemma {:induction false} Collects(docs: seq<Tree>)
    ensures Contributions(docs).Ok? <==> forall i :: 0 <= i < |docs| ==> Fault(docs[i]).None?
    ensures Contributions(docs).Ok? ==> Concat(Contributions(docs).value) == AllSupplied(docs)
  {
    if docs == [] {
    } else {
      var front, last := docs[..|docs| - 1], docs[|docs| - 1];
      assert docs == front + [last];
      Collects(front);
      InstancesAre(last);
      AllSuppliedSnoc(front, last);
      if Contributions(docs).Ok? && Instances(last).value.Some? {
        var lists := Contributions(front).value;
        assert (lists + [Instances(last).value.value])[..|lists|] == lists;
      }
    }
  }

  /** The first malformed document, the defaults being the first of all, decides the error. */
  lemma {:induction false} FirstFault(base: Tree, layers: seq<Tree>, i: nat)
    requires i <= |layers| && Fault(([base] + layers)[i]).Some?
    requires forall j :: 0 <= j < i ==> Fault(([base] + layers)[j]).None?
    ensures Effective(base, layers) == Err(Fault(([base] + layers)[i]).value)
  {
    var all := [base] + layers;
    var front := all[..i];
    assert all[..i + 1][..i] == front && all[..i + 1][i] == all[i];
    Collects(front);
    InstancesAre(all[i]);
    FirstError(all, i + 1);
  }

  /** If no document is malformed the configuration cannot fail. In append mode, which the merged layers
      choose, the effective instances are the original lists of the defaults and of every layer, in
      layer order, while every other setting is as merged; otherwise the configuration is as merged. */
  lemma AppendsOriginals(base: Tree, layers: seq<Tree>, path: seq<string>)
    requires Lookup(base, ["icl"]).Some? && forall i :: 0 <= i < |layers| ==> layers[i].Sub?
    requires Fault(base).None? && forall i :: 0 <= i < |layers| ==> Fault(layers[i]).None?
    ensures var merged := Fold(base, layers);
            && Effective(base, layers).Ok?
            && if Lookup(merged, ["icl", "instancesMerge"]) == Some(Scalar("append")) then
                 && Lookup(Effective(base, layers).value, ["icl", "instances"])
                    == Some(Items(Supplied(base) + AllSupplied(layers)))
                 && (!(["icl", "instances"] <= path) ==>
                       LeafAt(Effective(base, layers).value, path) == LeafAt(merged, path))
               else Effective(base, layers).value == merged
  {
    var all, merged := [base] + layers, Fold(base, layers);
    forall i | 0 <= i < |all| ensures Fault(all[i]).None? {
      assert i > 0 ==> all[i] == layers[i - 1];
    }
    forall i | 0 <= i < |layers| ensures Instances(layers[i]).Ok? {
      InstancesAre(layers[i]);
    }
    Collects(all);
    assert all[1..] == layers;
    LookupTwo(base, "icl", "instances");
    FoldKeepsIcl(base, layers);
    LookupTwo(merged, "icl", "instancesMerge");
    OtherPaths(merged, Concat(Contributions(all).value), path);
  }

  lemma OtherPaths(merged: Tree, list: seq<string>, path: seq<string>)
    requires HasIcl(merged)
    ensures Lookup(WithInstances(merged, list), [ICL, INSTANCES]) == Some(Items(list))
    ensures !([ICL, INSTANCES] <= path) ==> LeafAt(WithInstances(merged, list), path) == LeafAt(merged, path)
  {
    var t := WithInstances(merged, list);
    assert [ICL, INSTANCES][1..] == [INSTANCES] && [INSTANCES][1..] == [];
    assert Lookup(t.m[ICL].m[INSTANCES], []) == Some(Items(list));
    assert Lookup(t.m[ICL], [INSTANCES]) == Some(Items(list));
    if path != [] && path[0] == ICL {
      var rest := path[1..];
      assert Lookup(t, path) == Lookup(t.m[ICL], rest) && Lookup(merged, path) == Lookup(merged.m[ICL], rest);
      if rest != [] && rest[0] == INSTANCES {
        assert [ICL, INSTANCES] <= path;
      }
    }
  }
}
