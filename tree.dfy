/**
  The selection tree as values: a `Field` or an `InlineFragment`, each
  owning the child selection set its callback populated, and the renderer
  (`Field.toString`, `InlineFragment.toString`, `SelectionSet.toString`).
  A child is complete before it is inserted, so once built it is a value.
 */
module Tree {
  import opened Json
  import opened Format
  import opened Schema

  datatype Selection =
    | Field(name: string, args: Args, child: SelSet)
    | InlineFragment(typeName: string, child: SelSet)

  /** A selection set scoped to one type; its selections in insertion order, which is render order. */
  datatype SelSet = SelSet(typeSchema: TypeDef, selections: seq<Selection>)

  function Empty(t: TypeDef): SelSet
  {
    SelSet(t, [])
  }

  /** A fragment has no name, so only a field can match a name. */
  predicate IsFieldNamed(sel: Selection, name: string)
  {
    sel.Field? && sel.name == name
  }

  /** `getSelectionIndex`: the position of the first field called `name`, or -1 when there is none. */
  function SelectionIndex(sels: seq<Selection>, name: string): (r: int)
    ensures -1 <= r < |sels|
    ensures r == -1 <==> forall k :: 0 <= k < |sels| ==> !IsFieldNamed(sels[k], name)
    ensures r >= 0 ==> IsFieldNamed(sels[r], name) && forall k :: 0 <= k < r ==> !IsFieldNamed(sels[k], name)
  {
    if sels == [] then -1
    else if IsFieldNamed(sels[0], name) then 0
    else
      var k := SelectionIndex(sels[1..], name);
      if k == -1 then -1 else k + 1
  }

  // ---------------------------------------------------------------- rendering

  /**
    `SelectionSet.toString`: nothing at all for a scalar-scoped set, whatever
    it holds; otherwise its selections in order between ` { ` and ` }`.
   */
  function RenderSet(s: SelSet): (r: string)
    ensures r == "" <==> s.typeSchema.kind == Scalar
    ensures s.typeSchema.kind != Scalar ==> |r| >= 5 && r[..3] == " { " && r[|r| - 2..] == " }"
    ensures s.typeSchema.kind != Scalar && s.selections == [] ==> r == " {  }"
    decreases s, 2
  {
    if s.typeSchema.kind == Scalar then ""
    else " { " + Join(RenderEach(s.selections)) + " }"
  }

  function RenderEach(sels: seq<Selection>): (r: seq<string>)
    ensures |r| == |sels|
    decreases sels, 1
  {
    if sels == [] then [] else [RenderSelection(sels[0])] + RenderEach(sels[1..])
  }

  /**
    `Field.toString` and `InlineFragment.toString`.  A field renders as its
    bare name exactly when it is a leaf without arguments;
    `SelectionTextLayout` gives the layout of every rendering.
   */
  function RenderSelection(sel: Selection): (r: string)
    ensures sel.Field? ==> (r == sel.name <==> sel.args == [] && sel.child.typeSchema.kind == Scalar)
    decreases sel, 0
  {
    match sel
    case Field(name, args, child) => name + FormatArgs(args) + RenderSet(child)
    case InlineFragment(typeName, child) => "... on " + typeName + RenderSet(child)
  }

  /** A field starts with its name, a fragment with `... on ` and its type name, and both end with their set's rendering. */
  lemma SelectionTextLayout(sel: Selection)
    ensures sel.Field? ==> |RenderSelection(sel)| >= |sel.name| && RenderSelection(sel)[..|sel.name|] == sel.name
    ensures sel.InlineFragment? ==>
      var r := RenderSelection(sel);
      |r| >= 7 + |sel.typeName| && r[..7] == "... on " && r[7..7 + |sel.typeName|] == sel.typeName
    ensures var r := RenderSelection(sel); var c := RenderSet(sel.child);
      |r| >= |c| && r[|r| - |c|..] == c
  {
  }

  lemma {:induction false} RenderEachAt(sels: seq<Selection>, k: nat)
    requires k < |sels|
    ensures RenderEach(sels)[k] == RenderSelection(sels[k])
    decreases |sels|
  {
    if k > 0 {
      RenderEachAt(sels[1..], k - 1);
    }
  }

  lemma {:induction false} RenderEachAppend(sels: seq<Selection>, sel: Selection)
    ensures RenderEach(sels + [sel]) == RenderEach(sels) + [RenderSelection(sel)]
    decreases |sels|
  {
    if sels == [] {
      assert sels + [sel] == [sel];
    } else {
      assert (sels + [sel])[1..] == sels[1..] + [sel];
      RenderEachAppend(sels[1..], sel);
    }
  }

  /** Rendering is order-preserving: the selections' renderings, joined in array order. */
  lemma RenderedInOrder(s: SelSet)
    requires s.typeSchema.kind != Scalar
    ensures RenderSet(s) == " { " + Join(RenderEach(s.selections)) + " }"
    ensures forall k :: 0 <= k < |s.selections| ==> RenderEach(s.selections)[k] == RenderSelection(s.selections[k])
  {
    forall k | 0 <= k < |s.selections|
      ensures RenderEach(s.selections)[k] == RenderSelection(s.selections[k])
    {
      RenderEachAt(s.selections, k);
    }
  }

  // ---------------------------------------------------------------- invariants of a built tree

  /** Within one set, no two fields share a name. */
  predicate UniqueFieldNames(sels: seq<Selection>)
  {
    forall i, j :: 0 <= i < j < |sels| && sels[i].Field? && sels[j].Field? ==> sels[i].name != sels[j].name
  }

  /** Field names are unique in this set and in every set below it. */
  predicate WellBuilt(s: SelSet)
    decreases s
  {
    && UniqueFieldNames(s.selections)
    && forall k :: 0 <= k < |s.selections| ==> WellBuilt(s.selections[k].child)
  }

  /** In a set whose field names are unique, the field `getSelectionIndex` finds is the only one with that name. */
  lemma SelectionIndexUnique(sels: seq<Selection>, name: string, k: nat)
    requires UniqueFieldNames(sels)
    requires k < |sels| && IsFieldNamed(sels[k], name)
    ensures SelectionIndex(sels, name) == k
  {
  }
}
