/**
  Properties of the builder calls that relate several calls: the trees they
  build keep field names unique at every level, a field added again under
  the same name takes the old one's place (so adding it twice is adding it
  once), the rendering follows that placement, and the connection macro
  builds the fixed pagination skeleton around the caller's `node` selection.
 */
module BuildProps {
  import opened Errors
  import opened Format
  import opened Schema
  import opened Tree
  import opened Commands
  import opened Build

  // ---------------------------------------------------------------- unique field names

  /** Placing a field keeps the names of a set's fields unique and its subtrees well built. */
  lemma PlaceBuilt(t: TypeDef, sels: seq<Selection>, f: Selection)
    requires f.Field? && WellBuilt(SelSet(t, sels)) && WellBuilt(f.child)
    ensures WellBuilt(SelSet(t, Place(sels, f)))
  {
    var r := Place(sels, f);
    var idx := SelectionIndex(sels, f.name);
    if idx == -1 {
      assert forall k :: 0 <= k < |sels| ==> r[k] == sels[k];
    } else {
      assert forall k :: 0 <= k < |r| && k != idx ==> r[k] == sels[k];
    }
  }

  lemma {:induction false} CallOnBuilt(b: Bundle, child: SelSet, p: Param)
    requires WellBuilt(child)
    ensures CallOn(b, child, p).Ok? ==> WellBuilt(CallOn(b, child, p).value)
    decreases ConnsParam(p), SizeParam(p), 0
  {
    if p.CallbackParam? {
      RunBuilt(b, child, p.cb.cmds);
    }
  }

  lemma {:induction false} NewFieldBuilt(b: Bundle, parentType: string, name: string, params: seq<Param>)
    ensures NewField(b, parentType, name, params).Ok? ==> WellBuilt(NewField(b, parentType, name, params).value.child)
    decreases ConnsParams(params), SizeParams(params) + 1, 1
  {
    var d := GetArgsAndCallback(params);
    var fd := DescriptorForField(b, name, parentType);
    if fd.Ok? {
      DispatchedWithin(params);
      CallOnBuilt(b, Empty(fd.value.schema), d.callback);
    }
  }

  lemma {:induction false} AddFieldBuilt(b: Bundle, s: SelSet, name: string, params: seq<Param>)
    requires WellBuilt(s)
    ensures AddField(b, s, name, params).Ok? ==> WellBuilt(AddField(b, s, name, params).value)
    decreases ConnsParams(params), SizeParams(params) + 1, 2
  {
    var f := NewField(b, s.typeSchema.name, name, params);
    NewFieldBuilt(b, s.typeSchema.name, name, params);
    if f.Ok? {
      PlaceBuilt(s.typeSchema, s.selections, f.value);
    }
  }

  lemma {:induction false} ConnectionChildBuilt(b: Bundle, schema: TypeDef, callback: Param)
    ensures ConnectionChild(b, schema, callback).Ok? ==> WellBuilt(ConnectionChild(b, schema, callback).value)
    decreases 1 + ConnsParam(callback), 0, 0
  {
    PageInfoHasNoConnection();
    EdgesHoldOnlyTheCallback(callback);
    AddFieldBuilt(b, Empty(schema), "pageInfo", PageInfoParams);
    var withPageInfo := AddField(b, Empty(schema), "pageInfo", PageInfoParams);
    if withPageInfo.Ok? {
      AddFieldBuilt(b, withPageInfo.value, "edges", EdgesParams(callback));
    }
  }

  lemma {:induction false} NewConnectionBuilt(b: Bundle, parentType: string, name: string, params: seq<Param>)
    ensures NewConnection(b, parentType, name, params).Ok? ==>
      WellBuilt(NewConnection(b, parentType, name, params).value.child)
    decreases 1 + ConnsParams(params), SizeParams(params) + 1, 1
  {
    var d := GetArgsAndCallback(params);
    var fd := DescriptorForField(b, name, parentType);
    if fd.Ok? {
      DispatchedWithin(params);
      ConnectionChildBuilt(b, fd.value.schema, d.callback);
    }
  }

  lemma {:induction false} AddConnectionBuilt(b: Bundle, s: SelSet, name: string, params: seq<Param>)
    requires WellBuilt(s)
    ensures AddConnection(b, s, name, params).Ok? ==> WellBuilt(AddConnection(b, s, name, params).value)
    decreases 1 + ConnsParams(params), SizeParams(params) + 1, 2
  {
    var f := NewConnection(b, s.typeSchema.name, name, params);
    NewConnectionBuilt(b, s.typeSchema.name, name, params);
    if f.Ok? {
      PlaceBuilt(s.typeSchema, s.selections, f.value);
    }
  }

  lemma {:induction false} AddInlineFragmentOnBuilt(b: Bundle, s: SelSet, typeName: string, callback: Callback)
    requires WellBuilt(s)
    ensures AddInlineFragmentOn(b, s, typeName, callback).Ok? ==>
      WellBuilt(AddInlineFragmentOn(b, s, typeName, callback).value)
    decreases ConnsSeq(callback.cmds), SizeSeq(callback.cmds) + 1, 2
  {
    if typeName in b {
      RunBuilt(b, Empty(b[typeName]), callback.cmds);
      var r := AddInlineFragmentOn(b, s, typeName, callback);
      if r.Ok? {
        assert forall k :: 0 <= k < |s.selections| ==> r.value.selections[k] == s.selections[k];
      }
    }
  }

  lemma {:induction false} ExecBuilt(b: Bundle, s: SelSet, c: Cmd)
    requires WellBuilt(s)
    ensures Exec(b, s, c).Ok? ==> WellBuilt(Exec(b, s, c).value)
    decreases Conns(c), Size(c), 3
  {
    match c
    case CallAddField(name, params) => AddFieldBuilt(b, s, name, params);
    case CallAddConnection(name, params) => AddConnectionBuilt(b, s, name, params);
    case CallAddInlineFragmentOn(typeName, callback) => AddInlineFragmentOnBuilt(b, s, typeName, callback);
  }

  /** Whatever a callback does, the set it was handed keeps unique field names at every level. */
  lemma {:induction false} RunBuilt(b: Bundle, s: SelSet, cmds: seq<Cmd>)
    requires WellBuilt(s)
    ensures Run(b, s, cmds).Ok? ==> WellBuilt(Run(b, s, cmds).value)
    decreases ConnsSeq(cmds), SizeSeq(cmds), 4
  {
    if cmds != [] {
      CmdWithin(cmds, 0);
      ExecBuilt(b, s, cmds[0]);
      var next := Exec(b, s, cmds[0]);
      if next.Ok? {
        RunBuilt(b, next.value, cmds[1..]);
      }
    }
  }

  /** Every query the builder produces has no two fields of the same name in any one selection set. */
  lemma QueryBuilt(b: Bundle, callback: Callback)
    ensures BuildQuery(b, callback).Ok? ==> WellBuilt(BuildQuery(b, callback).value)
  {
    if RootTypeName in b {
      RunBuilt(b, Empty(b[RootTypeName]), callback.cmds);
    }
  }

  // ---------------------------------------------------------------- replacing by name

  /** A second field of the same name lands where the first one went, and the first one is gone. */
  lemma PlaceLastWins(sels: seq<Selection>, f: Selection, g: Selection)
    requires f.Field? && g.Field? && f.name == g.name
    ensures Place(Place(sels, f), g) == Place(sels, g)
  {
    var idx := SelectionIndex(sels, f.name);
    var once := Place(sels, f);
    if idx == -1 {
      assert IsFieldNamed(once[|sels|], f.name);
      assert forall k :: 0 <= k < |sels| ==> once[k] == sels[k];
      assert SelectionIndex(once, f.name) == |sels|;
    } else {
      assert once == sels[idx := f];
      assert IsFieldNamed(once[idx], f.name);
      assert forall k :: 0 <= k < idx ==> once[k] == sels[k];
      assert SelectionIndex(once, f.name) == idx;
    }
  }

  /** `addField` twice under one name: the set is as if only the second call had been made. */
  lemma AddFieldLastWins(b: Bundle, s: SelSet, name: string, first: seq<Param>, second: seq<Param>)
    requires AddField(b, s, name, first).Ok?
    ensures AddField(b, AddField(b, s, name, first).value, name, second) == AddField(b, s, name, second)
    ensures AddField(b, AddField(b, s, name, first).value, name, first) == AddField(b, s, name, first)
  {
    var f := NewField(b, s.typeSchema.name, name, first).value;
    var g := NewField(b, s.typeSchema.name, name, second);
    if g.Ok? {
      PlaceLastWins(s.selections, f, g.value);
    }
    PlaceLastWins(s.selections, f, f);
  }

  /**
    In a set whose field names are unique, as every built set's are, a field
    added under a name already present overwrites that very field, wherever
    it sits, and nothing else.
   */
  lemma AddFieldOverwrites(b: Bundle, s: SelSet, name: string, params: seq<Param>, k: nat)
    requires UniqueFieldNames(s.selections)
    requires k < |s.selections| && IsFieldNamed(s.selections[k], name)
    requires NewField(b, s.typeSchema.name, name, params).Ok?
    ensures AddField(b, s, name, params) ==
      Ok(SelSet(s.typeSchema, s.selections[k := NewField(b, s.typeSchema.name, name, params).value]))
  {
    SelectionIndexUnique(s.selections, name, k);
  }

  /** The same for `addConnection`. */
  lemma AddConnectionLastWins(b: Bundle, s: SelSet, name: string, first: seq<Param>, second: seq<Param>)
    requires AddConnection(b, s, name, first).Ok?
    ensures AddConnection(b, AddConnection(b, s, name, first).value, name, second) == AddConnection(b, s, name, second)
    ensures AddConnection(b, AddConnection(b, s, name, first).value, name, first) == AddConnection(b, s, name, first)
  {
    var f := NewConnection(b, s.typeSchema.name, name, first).value;
    var g := NewConnection(b, s.typeSchema.name, name, second);
    if g.Ok? {
      PlaceLastWins(s.selections, f, g.value);
    }
    PlaceLastWins(s.selections, f, f);
  }

  /** The rendering follows the placement: a replaced field renders at the old field's position. */
  lemma RenderPlace(sels: seq<Selection>, f: Selection)
    requires f.Field?
    ensures SelectionIndex(sels, f.name) == -1 ==>
      RenderEach(Place(sels, f)) == RenderEach(sels) + [RenderSelection(f)]
    ensures SelectionIndex(sels, f.name) >= 0 ==>
      RenderEach(Place(sels, f)) == RenderEach(sels)[SelectionIndex(sels, f.name) := RenderSelection(f)]
  {
    var idx := SelectionIndex(sels, f.name);
    if idx == -1 {
      RenderEachAppend(sels, f);
    } else {
      var r := Place(sels, f);
      forall k | 0 <= k < |sels|
        ensures RenderEach(r)[k] == RenderEach(sels)[idx := RenderSelection(f)][k]
      {
        RenderEachAt(r, k);
        RenderEachAt(sels, k);
      }
    }
  }

  // ---------------------------------------------------------------- the connection skeleton

  /** A field of the type named `t` that resolves to a scalar. */
  predicate ScalarField(b: Bundle, t: string, name: string)
  {
    DescriptorForField(b, name, t).Ok? && DescriptorForField(b, name, t).value.kind == Scalar
  }

  /** A field of the type named `t` that resolves to a type with fields of its own. */
  predicate CompositeField(b: Bundle, t: string, name: string)
  {
    DescriptorForField(b, name, t).Ok? && DescriptorForField(b, name, t).value.kind != Scalar
  }

  /** The schema of the set a field of the type named `t` opens. */
  function FieldSchema(b: Bundle, t: string, name: string): TypeDef
    requires DescriptorForField(b, name, t).Ok?
  {
    DescriptorForField(b, name, t).value.schema
  }

  /**
    What the connection macro expects of a connection type: `pageInfo` with
    the two scalar flags, `edges` whose type has a scalar `cursor` and a `node`.
   */
  predicate Paginated(b: Bundle, conn: string)
  {
    && CompositeField(b, conn, "pageInfo")
    && ScalarField(b, FieldSchema(b, conn, "pageInfo").name, "hasNextPage")
    && ScalarField(b, FieldSchema(b, conn, "pageInfo").name, "hasPreviousPage")
    && CompositeField(b, conn, "edges")
    && ScalarField(b, FieldSchema(b, conn, "edges").name, "cursor")
    && DescriptorForField(b, "node", FieldSchema(b, conn, "edges").name).Ok?
  }

  /** A field without arguments or selections. */
  function Leaf(b: Bundle, t: string, name: string): Selection
    requires DescriptorForField(b, name, t).Ok?
  {
    Field(name, [], Empty(FieldSchema(b, t, name)))
  }

  /** The schema `node` resolves to inside a connection type. */
  function NodeSchema(b: Bundle, conn: string): TypeDef
    requires Paginated(b, conn)
  {
    FieldSchema(b, FieldSchema(b, conn, "edges").name, "node")
  }

  /**
    The child of a connection field, given what the caller's callback made
    of `node`: `pageInfo { hasNextPage, hasPreviousPage }` then
    `edges { cursor, node }`, in that order.
   */
  function Skeleton(b: Bundle, conn: TypeDef, node: SelSet): SelSet
    requires Paginated(b, conn.name)
  {
    var pageInfo := FieldSchema(b, conn.name, "pageInfo");
    var edge := FieldSchema(b, conn.name, "edges");
    SelSet(conn, [
      Field("pageInfo", [], SelSet(pageInfo, [Leaf(b, pageInfo.name, "hasNextPage"), Leaf(b, pageInfo.name, "hasPreviousPage")])),
      Field("edges", [], SelSet(edge, [Leaf(b, edge.name, "cursor"), Field("node", [], node)]))])
  }

  /** Adding an unused scalar field without parameters appends a leaf. */
  lemma AddLeaf(b: Bundle, s: SelSet, name: string)
    requires ScalarField(b, s.typeSchema.name, name)
    requires SelectionIndex(s.selections, name) == -1
    ensures AddField(b, s, name, []) == Ok(SelSet(s.typeSchema, s.selections + [Leaf(b, s.typeSchema.name, name)]))
  {
    assert GetArgsAndCallback([]) == Defaults;
    assert CallOn(b, Empty(FieldSchema(b, s.typeSchema.name, name)), CallbackParam(Noop))
        == Ok(Empty(FieldSchema(b, s.typeSchema.name, name)));
  }

  /** A script of two calls runs the second on what the first left. */
  lemma RunTwo(b: Bundle, s: SelSet, c: Cmd, d: Cmd)
    ensures Exec(b, s, c).Err? ==> Run(b, s, [c, d]) == Exec(b, s, c)
    ensures Exec(b, s, c).Ok? ==> Run(b, s, [c, d]) == Exec(b, Exec(b, s, c).value, d)
  {
    var cmds := [c, d];
    assert cmds[0] == c && cmds[1..] == [d];
    var first := Exec(b, s, c);
    if first.Ok? {
      var last := Exec(b, first.value, d);
      assert [d][0] == d && [d][1..] == [];
      if last.Ok? {
        assert Run(b, last.value, []) == last;
      }
    }
  }

  lemma PageInfoChild(b: Bundle, conn: TypeDef)
    requires Paginated(b, conn.name)
    ensures
      var pageInfo := FieldSchema(b, conn.name, "pageInfo");
      AddField(b, Empty(conn), "pageInfo", PageInfoParams) ==
        Ok(SelSet(conn, [Field("pageInfo", [], SelSet(pageInfo, [Leaf(b, pageInfo.name, "hasNextPage"), Leaf(b, pageInfo.name, "hasPreviousPage")]))]))
  {
    var pageInfo := FieldSchema(b, conn.name, "pageInfo");
    var next := Leaf(b, pageInfo.name, "hasNextPage");
    var previous := Leaf(b, pageInfo.name, "hasPreviousPage");
    var first := SelSet(pageInfo, [next]);
    var both := SelSet(pageInfo, [next, previous]);
    AddLeaf(b, Empty(pageInfo), "hasNextPage");
    assert [] + [next] == first.selections;
    assert Exec(b, Empty(pageInfo), PageInfoScript.cmds[0]) == Ok(first);
    assert !IsFieldNamed(next, "hasPreviousPage") by {
      assert next.name[3] != "hasPreviousPage"[3];
    }
    assert SelectionIndex(first.selections, "hasPreviousPage") == -1;
    AddLeaf(b, first, "hasPreviousPage");
    assert [next] + [previous] == both.selections;
    assert Exec(b, first, PageInfoScript.cmds[1]) == Ok(both);
    RunTwo(b, Empty(pageInfo), PageInfoScript.cmds[0], PageInfoScript.cmds[1]);
    assert Run(b, Empty(pageInfo), PageInfoScript.cmds) == Ok(both);
    assert GetArgsAndCallback(PageInfoParams) == Dispatch(ArgsParam([]), CallbackParam(PageInfoScript));
    assert NewField(b, conn.name, "pageInfo", PageInfoParams) == Ok(Field("pageInfo", [], both));
  }

  lemma EdgesChild(b: Bundle, conn: TypeDef, withPageInfo: SelSet, callback: Param)
    requires Paginated(b, conn.name)
    requires withPageInfo.typeSchema == conn && |withPageInfo.selections| == 1
    requires IsFieldNamed(withPageInfo.selections[0], "pageInfo")
    ensures
      var edge := FieldSchema(b, conn.name, "edges");
      CallOn(b, Empty(NodeSchema(b, conn.name)), callback).Err? ==>
        AddField(b, withPageInfo, "edges", EdgesParams(callback)) == Err(CallOn(b, Empty(NodeSchema(b, conn.name)), callback).error)
    ensures
      var edge := FieldSchema(b, conn.name, "edges");
      CallOn(b, Empty(NodeSchema(b, conn.name)), callback).Ok? ==>
        AddField(b, withPageInfo, "edges", EdgesParams(callback)) ==
          Ok(SelSet(conn, withPageInfo.selections + [Field("edges", [], SelSet(edge, [Leaf(b, edge.name, "cursor"),
            Field("node", [], CallOn(b, Empty(NodeSchema(b, conn.name)), callback).value)]))]))
  {
    var edge := FieldSchema(b, conn.name, "edges");
    var cursor := Leaf(b, edge.name, "cursor");
    var first := SelSet(edge, [cursor]);
    AddLeaf(b, Empty(edge), "cursor");
    assert [] + [cursor] == first.selections;
    var script := EdgesScript(callback);
    assert Exec(b, Empty(edge), script.cmds[0]) == Ok(first);
    var nodeParams := [ArgsParam([]), callback];
    assert GetArgsAndCallback(nodeParams) == Dispatch(ArgsParam([]), callback);
    assert !IsFieldNamed(cursor, "node");
    assert SelectionIndex(first.selections, "node") == -1;
    var node := CallOn(b, Empty(NodeSchema(b, conn.name)), callback);
    assert NewField(b, edge.name, "node", nodeParams) == match node case Err(e) => Err(e) case Ok(n) => Ok(Field("node", [], n));
    RunTwo(b, Empty(edge), script.cmds[0], script.cmds[1]);
    assert GetArgsAndCallback(EdgesParams(callback)) == Dispatch(ArgsParam([]), CallbackParam(script));
    assert !IsFieldNamed(withPageInfo.selections[0], "edges");
    assert SelectionIndex(withPageInfo.selections, "edges") == -1;
    if node.Ok? {
      var full := SelSet(edge, [cursor, Field("node", [], node.value)]);
      assert [cursor] + [Field("node", [], node.value)] == full.selections;
      assert Exec(b, first, script.cmds[1]) == Ok(full);
      assert CallOn(b, Empty(edge), CallbackParam(script)) == Ok(full);
      assert NewField(b, conn.name, "edges", EdgesParams(callback)) == Ok(Field("edges", [], full));
    } else {
      assert Exec(b, first, script.cmds[1]) == Err(node.error);
      assert CallOn(b, Empty(edge), CallbackParam(script)) == Err(node.error);
    }
  }

  /**
    `addConnection`'s child is the fixed skeleton around the set the
    caller's callback builds for `node`, and fails exactly when that does.
   */
  lemma ConnectionChildShape(b: Bundle, conn: TypeDef, callback: Param)
    requires Paginated(b, conn.name)
    ensures CallOn(b, Empty(NodeSchema(b, conn.name)), callback).Err? ==>
      ConnectionChild(b, conn, callback) == Err(CallOn(b, Empty(NodeSchema(b, conn.name)), callback).error)
    ensures CallOn(b, Empty(NodeSchema(b, conn.name)), callback).Ok? ==>
      ConnectionChild(b, conn, callback) == Ok(Skeleton(b, conn, CallOn(b, Empty(NodeSchema(b, conn.name)), callback).value))
  {
    PageInfoChild(b, conn);
    var withPageInfo := AddField(b, Empty(conn), "pageInfo", PageInfoParams).value;
    EdgesChild(b, conn, withPageInfo, callback);
    var node := CallOn(b, Empty(NodeSchema(b, conn.name)), callback);
    if node.Ok? {
      var sk := Skeleton(b, conn, node.value);
      assert withPageInfo.selections + [sk.selections[1]] == sk.selections;
    }
  }

  /** A set of two selections renders them separated by a comma. */
  lemma RenderTwo(s: SelSet)
    requires s.typeSchema.kind != Scalar && |s.selections| == 2
    ensures RenderSet(s) == " { " + RenderSelection(s.selections[0]) + ", " + RenderSelection(s.selections[1]) + " }"
  {
    var sels := s.selections;
    assert sels[1..][0] == sels[1] && sels[1..][1..] == [];
    assert RenderEach(sels) == [RenderSelection(sels[0]), RenderSelection(sels[1])];
  }

  lemma LeafRendered(b: Bundle, t: string, name: string)
    requires ScalarField(b, t, name)
    ensures RenderSelection(Leaf(b, t, name)) == name
  {
    assert RenderSet(Empty(FieldSchema(b, t, name))) == "";
  }

  lemma PageInfoRendered(b: Bundle, pi: TypeDef)
    requires pi.kind != Scalar
    requires ScalarField(b, pi.name, "hasNextPage") && ScalarField(b, pi.name, "hasPreviousPage")
    ensures RenderSelection(Field("pageInfo", [], SelSet(pi, [Leaf(b, pi.name, "hasNextPage"), Leaf(b, pi.name, "hasPreviousPage")])))
         == "pageInfo { hasNextPage, hasPreviousPage }"
  {
    var child := SelSet(pi, [Leaf(b, pi.name, "hasNextPage"), Leaf(b, pi.name, "hasPreviousPage")]);
    LeafRendered(b, pi.name, "hasNextPage");
    LeafRendered(b, pi.name, "hasPreviousPage");
    RenderTwo(child);
  }

  lemma EdgesRendered(b: Bundle, edge: TypeDef, node: SelSet)
    requires edge.kind != Scalar
    requires ScalarField(b, edge.name, "cursor")
    ensures RenderSelection(Field("edges", [], SelSet(edge, [Leaf(b, edge.name, "cursor"), Field("node", [], node)])))
         == "edges { cursor, node" + RenderSet(node) + " }"
  {
    var child := SelSet(edge, [Leaf(b, edge.name, "cursor"), Field("node", [], node)]);
    LeafRendered(b, edge.name, "cursor");
    RenderTwo(child);
  }

  // The literal pieces of the skeleton's text, joined one pair at a time.
  lemma PageInfoOpening()
    ensures " { " + "pageInfo { hasNextPage, hasPreviousPage }" + ", " == " { pageInfo { hasNextPage, hasPreviousPage }, "
  {
  }

  lemma EdgesOpening()
    ensures " { pageInfo { hasNextPage, hasPreviousPage }, " + "edges { cursor, node"
         == " { pageInfo { hasNextPage, hasPreviousPage }, edges { cursor, node"
  {
  }

  lemma SkeletonText(x: string)
    ensures " { " + "pageInfo { hasNextPage, hasPreviousPage }" + ", " + ("edges { cursor, node" + x + " }") + " }"
         == " { pageInfo { hasNextPage, hasPreviousPage }, edges { cursor, node" + x + " } }"
  {
    PageInfoOpening();
    EdgesOpening();
    assert " }" + " }" == " } }";
    var opening := " { pageInfo { hasNextPage, hasPreviousPage }, ";
    var prefix := " { pageInfo { hasNextPage, hasPreviousPage }, edges { cursor, node";
    assert opening + ("edges { cursor, node" + x + " }") + " }" == prefix + x + (" }" + " }");
  }

  /** The pagination block of a connection's text, around the text of the caller's `node` selection. */
  function PaginationText(node: string): string
  {
    " { pageInfo { hasNextPage, hasPreviousPage }, edges { cursor, node" + node + " } }"
  }

  /** The skeleton renders as the pagination block of the query text, the caller's selection inside `node`. */
  lemma SkeletonRendered(b: Bundle, conn: TypeDef, node: SelSet)
    requires Paginated(b, conn.name) && conn.kind != Scalar
    ensures RenderSet(Skeleton(b, conn, node)) == PaginationText(RenderSet(node))
  {
    var sk := Skeleton(b, conn, node);
    PageInfoRendered(b, FieldSchema(b, conn.name, "pageInfo"));
    EdgesRendered(b, FieldSchema(b, conn.name, "edges"), node);
    RenderTwo(sk);
    SkeletonText(RenderSet(node));
  }
}
