/** flux_mod/loader.py, `cast_layers`: a depth-first walk over a module tree
    that converts every child of a given layer type, with all of its
    submodules, to a target dtype, and recurses into every other child.

    A module is modelled by the set of class names it is an instance of (its
    own class and its base classes, so that `isinstance(m, L)` is
    `L in classes`), the dtype of its own parameters, and its children in
    registration order. `Tree` is the value of such a module tree; `Module`
    is the mutable object tree the walk updates in place. */
module LayerCast {
  import opened Common

  datatype Tree = Tree(classes: set<string>, dtype: DType, children: seq<Tree>)

  /** `module.to(dtype=d)` on a module value: the module and every submodule
      now hold parameters of dtype `d`. */
  function ToDType(t: Tree, d: DType): (r: Tree)
    ensures r.classes == t.classes && r.dtype == d && |r.children| == |t.children|
  {
    Tree(t.classes, d, seq(|t.children|, i requires 0 <= i < |t.children| => ToDType(t.children[i], d)))
  }

  /** The tree `cast_layers(t, layerType, d)` leaves behind: the root is never
      checked; a child that is a `layerType` is converted as a whole, any
      other child is walked in turn. */
  function Cast(t: Tree, layerType: string, d: DType): (r: Tree)
    ensures r.classes == t.classes && r.dtype == t.dtype && |r.children| == |t.children|
    decreases t, 0
  {
    Tree(t.classes, t.dtype, seq(|t.children|, i requires 0 <= i < |t.children| =>
      CastChild(t.children[i], layerType, d)))
  }

  /** One step of the walk's loop, applied to a child: the child keeps its
      classes and its number of children, and its own dtype becomes `d`
      when it is a `layerType` and is unchanged otherwise. */
  function CastChild(c: Tree, layerType: string, d: DType): (r: Tree)
    ensures r.classes == c.classes && |r.children| == |c.children|
    ensures layerType in c.classes ==> r.dtype == d
    ensures layerType !in c.classes ==> r.dtype == c.dtype
    decreases c, 1
  {
    if layerType in c.classes then ToDType(c, d) else Cast(c, layerType, d)
  }

  /** The tree without its dtypes: classes and child structure only. */
  datatype Shape = Node(classes: set<string>, children: seq<Shape>)

  function Skeleton(t: Tree): Shape {
    Node(t.classes, seq(|t.children|, i requires 0 <= i < |t.children| => Skeleton(t.children[i])))
  }

  /** `p` leads from the root of `t` to a submodule, one child index per step. */
  ghost predicate IsPath(t: Tree, p: seq<nat>)
    decreases |p|
  {
    |p| == 0 || (p[0] < |t.children| && IsPath(t.children[p[0]], p[1..]))
  }

  /** The submodule `p` leads to. */
  ghost function At(t: Tree, p: seq<nat>): Tree
    requires IsPath(t, p)
    decreases |p|
  {
    if |p| == 0 then t else At(t.children[p[0]], p[1..])
  }

  /** Some module on the path strictly below the root, the last one
      included, is a `layerType`. */
  ghost predicate Covered(t: Tree, p: seq<nat>, layerType: string)
    requires IsPath(t, p)
    decreases |p|
  {
    |p| > 0 && (layerType in t.children[p[0]].classes || Covered(t.children[p[0]], p[1..], layerType))
  }

  /** Converting a tree converts every submodule of it. */
  lemma {:induction false} ToDTypeAt(t: Tree, p: seq<nat>, d: DType)
    requires IsPath(t, p)
    ensures IsPath(ToDType(t, d), p) && At(ToDType(t, d), p) == ToDType(At(t, p), d)
    decreases |p|
  {
    if |p| > 0 {
      ToDTypeAt(t.children[p[0]], p[1..], d);
    }
  }

  /** Conversion leaves the shape alone and converting twice is converting once. */
  lemma {:induction false} ToDTypeShapeAndIdempotent(t: Tree, d: DType)
    ensures Skeleton(ToDType(t, d)) == Skeleton(t)
    ensures ToDType(ToDType(t, d), d) == ToDType(t, d)
  {
    var r := ToDType(t, d);
    forall i | 0 <= i < |t.children|
      ensures Skeleton(r.children[i]) == Skeleton(t.children[i])
      ensures ToDType(r.children[i], d) == r.children[i]
    {
      ToDTypeShapeAndIdempotent(t.children[i], d);
    }
    assert Skeleton(r).children == Skeleton(t).children;
    assert ToDType(r, d).children == r.children;
  }

  /** Every submodule of the walked tree: it keeps its classes and its number
      of children; its dtype becomes `d` when the module itself or
      one of its ancestors strictly below the root is a `layerType`, and is
      unchanged otherwise. In particular the root keeps its dtype. */
  lemma {:induction false} CastAt(t: Tree, p: seq<nat>, layerType: string, d: DType)
    requires IsPath(t, p)
    ensures IsPath(Cast(t, layerType, d), p)
    ensures At(Cast(t, layerType, d), p).classes == At(t, p).classes
    ensures |At(Cast(t, layerType, d), p).children| == |At(t, p).children|
    ensures At(Cast(t, layerType, d), p).dtype ==
      if Covered(t, p, layerType) then d else At(t, p).dtype
    decreases |p|
  {
    if |p| > 0 {
      var c := t.children[p[0]];
      if layerType in c.classes {
        ToDTypeAt(c, p[1..], d);
      } else {
        CastAt(c, p[1..], layerType, d);
      }
    }
  }

  /** A strict descendant of the root that is a `layerType` ends up converted
      as a whole: its subtree is exactly the converted original subtree, so
      the walk never changes how a matching module's own submodules are
      treated by looking inside it. */
  lemma {:induction false} CastMatched(t: Tree, p: seq<nat>, layerType: string, d: DType)
    requires IsPath(t, p) && |p| > 0 && layerType in At(t, p).classes
    ensures IsPath(Cast(t, layerType, d), p)
    ensures At(Cast(t, layerType, d), p) == ToDType(At(t, p), d)
    decreases |p|
  {
    CastAt(t, p, layerType, d);
    var c := t.children[p[0]];
    if layerType in c.classes {
      ToDTypeAt(c, p[1..], d);
    } else {
      CastMatched(c, p[1..], layerType, d);
    }
  }

  /** The walk changes no classes and no child lists: the tree's shape and
      child order are those of the input. */
  lemma {:induction false} CastShape(t: Tree, layerType: string, d: DType)
    ensures Skeleton(Cast(t, layerType, d)) == Skeleton(t)
  {
    var r := Cast(t, layerType, d);
    forall i | 0 <= i < |t.children|
      ensures Skeleton(r.children[i]) == Skeleton(t.children[i])
    {
      assert r.children[i] == CastChild(t.children[i], layerType, d);
      if layerType in t.children[i].classes {
        ToDTypeShapeAndIdempotent(t.children[i], d);
      } else {
        CastShape(t.children[i], layerType, d);
      }
    }
    assert Skeleton(r).children == Skeleton(t).children;
  }

  /** Walking a second time changes nothing. */
  lemma {:induction false} CastIdempotent(t: Tree, layerType: string, d: DType)
    ensures Cast(Cast(t, layerType, d), layerType, d) == Cast(t, layerType, d)
  {
    var r := Cast(t, layerType, d);
    forall i | 0 <= i < |t.children|
      ensures Cast(r, layerType, d).children[i] == r.children[i]
    {
      assert r.children[i] == CastChild(t.children[i], layerType, d);
      assert Cast(r, layerType, d).children[i] == CastChild(r.children[i], layerType, d);
      if layerType in t.children[i].classes {
        ToDTypeShapeAndIdempotent(t.children[i], d);
      } else {
        CastIdempotent(t.children[i], layerType, d);
      }
    }
    assert Cast(r, layerType, d).children == r.children;
  }

  /** A module object. Its classes and its children never change; the walk
      only updates the dtype of its parameters. `Repr` is the set of module
      objects of the subtree; sibling subtrees share no object. */
  class Module {
    const classes: set<string>
    var dtype: DType
    const children: seq<Module>
    ghost const Repr: set<Module>

    ghost predicate Valid()
      decreases Repr
    {
      && this in Repr
      && (forall i, j :: 0 <= i < j < |children| ==> children[i].Repr !! children[j].Repr)
      && (forall i :: 0 <= i < |children| ==>
            && children[i] in Repr
            && children[i].Repr <= Repr
            && this !in children[i].Repr
            && children[i].Valid())
    }

    /** The value of the subtree rooted here. */
    ghost function View(): Tree
      requires Valid()
      reads Repr
      decreases Repr
    {
      Tree(classes, dtype, ChildViews(|children|))
    }

    /** Values of the first `n` children. */
    ghost function ChildViews(n: nat): (r: seq<Tree>)
      requires Valid() && n <= |children|
      reads Repr
      ensures |r| == n
      ensures forall i :: 0 <= i < n ==> r[i] == children[i].View()
      decreases Repr, n
    {
      if n == 0 then [] else ChildViews(n - 1) + [children[n - 1].View()]
    }

    constructor (classes: set<string>, dtype: DType, children: seq<Module>)
      requires forall i :: 0 <= i < |children| ==> children[i].Valid()
      requires forall i, j :: 0 <= i < j < |children| ==> children[i].Repr !! children[j].Repr
      ensures Valid()
      ensures this.classes == classes && this.dtype == dtype && this.children == children
    {
      this.classes := classes;
      this.dtype := dtype;
      this.children := children;
      this.Repr := {this} + (set i, m | 0 <= i < |children| && m in children[i].Repr :: m);
    }

    /** `nn.Module.to(dtype=d)`: converts this module and every submodule. */
    method To(d: DType)
      requires Valid()
      modifies Repr
      ensures View() == ToDType(old(View()), d)
      decreases Repr, 1
    {
      dtype := d;
      for i := 0 to |children|
        invariant dtype == d
        invariant forall j :: 0 <= j < i ==> children[j].View() == ToDType(old(children[j].View()), d)
        invariant forall j :: i <= j < |children| ==> children[j].View() == old(children[j].View())
      {
        ToChildAt(i, d);
      }
      assert View().children == ToDType(old(View()), d).children;
    }

    /** Converts the child at position `i` and leaves its siblings alone. */
    method ToChildAt(i: nat, d: DType)
      requires Valid() && i < |children|
      modifies children[i].Repr
      ensures children[i].View() == ToDType(old(children[i].View()), d)
      ensures forall j :: 0 <= j < |children| && j != i ==> children[j].View() == old(children[j].View())
      decreases Repr, 0
    {
      children[i].To(d);
    }

    /** `cast_layers(self, layerType, d)`. The frame excludes the root
        itself: its own dtype is never touched. */
    method CastLayers(layerType: string, d: DType)
      requires Valid()
      modifies Repr - {this}
      ensures View() == Cast(old(View()), layerType, d)
      decreases Repr, 1
    {
      for i := 0 to |children|
        invariant forall j :: 0 <= j < i ==> children[j].View() == CastChild(old(children[j].View()), layerType, d)
        invariant forall j :: i <= j < |children| ==> children[j].View() == old(children[j].View())
      {
        CastChildAt(i, layerType, d);
      }
      assert View().children == Cast(old(View()), layerType, d).children;
    }

    /** One iteration of the walk's loop, on the child at position `i`: a
        child of the layer type is converted as a whole, any other one is
        walked; its siblings are left alone. */
    method CastChildAt(i: nat, layerType: string, d: DType)
      requires Valid() && i < |children|
      modifies children[i].Repr
      ensures children[i].View() == CastChild(old(children[i].View()), layerType, d)
      ensures forall j :: 0 <= j < |children| && j != i ==> children[j].View() == old(children[j].View())
      decreases Repr, 0
    {
      var child := children[i];
      if layerType in child.classes {
        child.To(d);
      } else {
        child.CastLayers(layerType, d);
      }
    }
  }
}
