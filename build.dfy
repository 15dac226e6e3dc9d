/**
  What the builder calls of `SelectionSet` and `Query` compute, as
  functions from the set before the call to the set after it (or to the
  error the call throws).  The class in module Query performs the same
  calls by updating `selections` in place and is proved to agree with
  these functions.
 */
module Build {
  import opened Errors
  import opened Format
  import opened Schema
  import opened Tree
  import opened Commands

  /**
    Where a new field goes: over the first field with its name, keeping that
    position, or at the end when the set has no field with its name.
   */
  function Place(sels: seq<Selection>, f: Selection): (r: seq<Selection>)
    requires f.Field?
    ensures SelectionIndex(sels, f.name) == -1 ==> r == sels + [f]
    ensures SelectionIndex(sels, f.name) >= 0 ==> r == sels[SelectionIndex(sels, f.name) := f]
  {
    var idx := SelectionIndex(sels, f.name);
    if idx == -1 then sels + [f] else sels[idx := f]
  }

  /** Invokes the callback slot on a fresh child set; a slot that holds an argument mapping is not callable. */
  function CallOn(b: Bundle, child: SelSet, p: Param): (r: Result<SelSet>)
    ensures p.ArgsParam? ==> r == Err(NotCallable)
    ensures r.Ok? ==> r.value.typeSchema == child.typeSchema
    decreases ConnsParam(p), SizeParam(p), 0
  {
    if p.ArgsParam? then Err(NotCallable) else Run(b, child, p.cb.cmds)
  }

  /**
    The field `addField` inserts (lines 101-107): resolve the field on the
    parent type, scope a child set to the descriptor's schema, let the
    callback populate it.
   */
  function NewField(b: Bundle, parentType: string, name: string, params: seq<Param>): (r: Result<Selection>)
    ensures DescriptorForField(b, name, parentType).Err? ==> r == Err(DescriptorForField(b, name, parentType).error)
    ensures r.Ok? ==>
      && DescriptorForField(b, name, parentType).Ok?
      && r.value.Field? && r.value.name == name
      && r.value.args == ArgsOf(GetArgsAndCallback(params).args)
      && r.value.child.typeSchema == DescriptorForField(b, name, parentType).value.schema
    ensures DescriptorForField(b, name, parentType).Ok? ==>
      var child := (DispatchedWithin(params);
        CallOn(b, Empty(DescriptorForField(b, name, parentType).value.schema), GetArgsAndCallback(params).callback));
      && (r.Ok? <==> child.Ok?)
      && (r.Ok? ==> r.value.child == child.value)
      && (r.Err? ==> r.error == child.error)
    decreases ConnsParams(params), SizeParams(params) + 1, 1
  {
    var d := GetArgsAndCallback(params);
    match DescriptorForField(b, name, parentType)
    case Err(e) => Err(e)
    case Ok(fd) =>
      DispatchedWithin(params);
      match CallOn(b, Empty(fd.schema), d.callback)
      case Err(e) => Err(e)
      case Ok(child) => Ok(Field(name, ArgsOf(d.args), child))
  }

  /**
    `addField`: the new field replaces the first field of the same name at
    its position, or is appended; every other selection stays as it was.
    When the field cannot be resolved, or its callback throws, the call
    throws that error.
   */
  function AddField(b: Bundle, s: SelSet, name: string, params: seq<Param>): (r: Result<SelSet>)
    ensures r.Ok? <==> NewField(b, s.typeSchema.name, name, params).Ok?
    ensures r.Err? ==> r.error == NewField(b, s.typeSchema.name, name, params).error
    ensures r.Ok? ==> r.value.typeSchema == s.typeSchema
    ensures r.Ok? && SelectionIndex(s.selections, name) == -1 ==>
      && |r.value.selections| == |s.selections| + 1
      && r.value.selections[..|s.selections|] == s.selections
      && r.value.selections[|s.selections|] == NewField(b, s.typeSchema.name, name, params).value
    ensures r.Ok? && SelectionIndex(s.selections, name) >= 0 ==>
      var k := SelectionIndex(s.selections, name);
      && |r.value.selections| == |s.selections|
      && r.value.selections[k] == NewField(b, s.typeSchema.name, name, params).value
      && forall j :: 0 <= j < |s.selections| && j != k ==> r.value.selections[j] == s.selections[j]
    decreases ConnsParams(params), SizeParams(params) + 1, 2
  {
    match NewField(b, s.typeSchema.name, name, params)
    case Err(e) => Err(e)
    case Ok(f) => Ok(SelSet(s.typeSchema, Place(s.selections, f)))
  }

  // ---------------------------------------------------------------- the connection macro

  const PageInfoScript: Callback := Script([CallAddField("hasNextPage", []), CallAddField("hasPreviousPage", [])])

  /** The trailing parameters of `addField('pageInfo', {}, ...)` (lines 130-133). */
  const PageInfoParams: seq<Param> := [ArgsParam([]), CallbackParam(PageInfoScript)]

  function EdgesScript(callback: Param): Callback
  {
    Script([CallAddField("cursor", []), CallAddField("node", [ArgsParam([]), callback])])
  }

  /** The trailing parameters of `addField('edges', {}, ...)` (lines 135-138): the caller's callback goes to `node`. */
  function EdgesParams(callback: Param): seq<Param>
  {
    [ArgsParam([]), CallbackParam(EdgesScript(callback))]
  }

  lemma PageInfoHasNoConnection()
    ensures ConnsParams(PageInfoParams) == 0
  {
    var cmds := PageInfoScript.cmds;
    assert Conns(cmds[0]) == 0 && Conns(cmds[1]) == 0;
    assert ConnsSeq(cmds[1..]) == 0 by {
      assert cmds[1..][0] == cmds[1] && cmds[1..][1..] == [];
    }
    assert ConnsParam(PageInfoParams[1]) == 0;
    assert ConnsParams(PageInfoParams[1..]) == 0 by {
      assert PageInfoParams[1..][0] == PageInfoParams[1] && PageInfoParams[1..][1..] == [];
    }
  }

  lemma EdgesHoldOnlyTheCallback(callback: Param)
    ensures ConnsParams(EdgesParams(callback)) == ConnsParam(callback)
  {
    var ps := EdgesParams(callback);
    var cmds := EdgesScript(callback).cmds;
    var nodeParams := [ArgsParam([]), callback];
    assert ConnsParams(nodeParams) == ConnsParam(callback) by {
      assert nodeParams[1..][0] == callback && nodeParams[1..][1..] == [];
    }
    assert Conns(cmds[0]) == 0;
    assert Conns(cmds[1]) == ConnsParam(callback);
    assert ConnsSeq(cmds[1..]) == ConnsParam(callback) by {
      assert cmds[1..][0] == cmds[1] && cmds[1..][1..] == [];
    }
    assert ConnsSeq(cmds) == ConnsParam(callback);
    assert ConnsParam(ps[1]) == ConnsParam(callback);
    assert ConnsParams(ps[1..]) == ConnsParam(callback) by {
      assert ps[1..][0] == ps[1] && ps[1..][1..] == [];
    }
  }

  /**
    The child of a connection field (lines 128-138): `pageInfo` with its two
    flags, then `edges` with `cursor` and `node`, where only `node` is left
    to the caller's callback.
   */
  function ConnectionChild(b: Bundle, schema: TypeDef, callback: Param): (r: Result<SelSet>)
    ensures r.Ok? ==> r.value.typeSchema == schema
    decreases 1 + ConnsParam(callback), 0, 0
  {
    PageInfoHasNoConnection();
    EdgesHoldOnlyTheCallback(callback);
    match AddField(b, Empty(schema), "pageInfo", PageInfoParams)
    case Err(e) => Err(e)
    case Ok(withPageInfo) => AddField(b, withPageInfo, "edges", EdgesParams(callback))
  }

  /** The field `addConnection` inserts: resolved like a field, with the connection child. */
  function NewConnection(b: Bundle, parentType: string, name: string, params: seq<Param>): (r: Result<Selection>)
    ensures DescriptorForField(b, name, parentType).Err? ==> r == Err(DescriptorForField(b, name, parentType).error)
    ensures r.Ok? ==>
      && DescriptorForField(b, name, parentType).Ok?
      && r.value.Field? && r.value.name == name
      && r.value.args == ArgsOf(GetArgsAndCallback(params).args)
      && r.value.child.typeSchema == DescriptorForField(b, name, parentType).value.schema
    ensures DescriptorForField(b, name, parentType).Ok? ==>
      var child := (DispatchedWithin(params);
        ConnectionChild(b, DescriptorForField(b, name, parentType).value.schema, GetArgsAndCallback(params).callback));
      && (r.Ok? <==> child.Ok?)
      && (r.Ok? ==> r.value.child == child.value)
      && (r.Err? ==> r.error == child.error)
    decreases 1 + ConnsParams(params), SizeParams(params) + 1, 1
  {
    var d := GetArgsAndCallback(params);
    match DescriptorForField(b, name, parentType)
    case Err(e) => Err(e)
    case Ok(fd) =>
      DispatchedWithin(params);
      match ConnectionChild(b, fd.schema, d.callback)
      case Err(e) => Err(e)
      case Ok(child) => Ok(Field(name, ArgsOf(d.args), child))
  }

  /** `addConnection`: the same replace-or-append rule as `addField`, with the connection field. */
  function AddConnection(b: Bundle, s: SelSet, name: string, params: seq<Param>): (r: Result<SelSet>)
    ensures r.Ok? <==> NewConnection(b, s.typeSchema.name, name, params).Ok?
    ensures r.Err? ==> r.error == NewConnection(b, s.typeSchema.name, name, params).error
    ensures r.Ok? ==> r.value.typeSchema == s.typeSchema
    ensures r.Ok? && SelectionIndex(s.selections, name) == -1 ==>
      && |r.value.selections| == |s.selections| + 1
      && r.value.selections[..|s.selections|] == s.selections
      && r.value.selections[|s.selections|] == NewConnection(b, s.typeSchema.name, name, params).value
    ensures r.Ok? && SelectionIndex(s.selections, name) >= 0 ==>
      var k := SelectionIndex(s.selections, name);
      && |r.value.selections| == |s.selections|
      && r.value.selections[k] == NewConnection(b, s.typeSchema.name, name, params).value
      && forall j :: 0 <= j < |s.selections| && j != k ==> r.value.selections[j] == s.selections[j]
    decreases 1 + ConnsParams(params), SizeParams(params) + 1, 2
  {
    match NewConnection(b, s.typeSchema.name, name, params)
    case Err(e) => Err(e)
    case Ok(f) => Ok(SelSet(s.typeSchema, Place(s.selections, f)))
  }

  // ---------------------------------------------------------------- inline fragments

  /**
    `addInlineFragmentOn`: always appends, even when a fragment on the same
    type is already there; the fragment's set is scoped to the type looked
    up by name, not to the enclosing set's type.
   */
  function AddInlineFragmentOn(b: Bundle, s: SelSet, typeName: string, callback: Callback): (r: Result<SelSet>)
    ensures typeName !in b ==> r == Err(UnknownType(typeName))
    ensures r.Ok? ==>
      && typeName in b
      && r.value.typeSchema == s.typeSchema
      && |r.value.selections| == |s.selections| + 1
      && r.value.selections[..|s.selections|] == s.selections
      && var last := r.value.selections[|s.selections|];
         last.InlineFragment? && last.typeName == typeName && last.child.typeSchema == b[typeName]
    ensures typeName in b ==>
      var child := Run(b, Empty(b[typeName]), callback.cmds);
      && (r.Ok? <==> child.Ok?)
      && (r.Ok? ==> r.value.selections[|s.selections|].child == child.value)
      && (r.Err? ==> r.error == child.error)
    decreases ConnsSeq(callback.cmds), SizeSeq(callback.cmds) + 1, 2
  {
    match SchemaForType(b, typeName)
    case Err(e) => Err(e)
    case Ok(t) =>
      match Run(b, Empty(t), callback.cmds)
      case Err(e) => Err(e)
      case Ok(child) => Ok(SelSet(s.typeSchema, s.selections + [InlineFragment(typeName, child)]))
  }

  // ---------------------------------------------------------------- running a callback

  function Exec(b: Bundle, s: SelSet, c: Cmd): (r: Result<SelSet>)
    ensures r.Ok? ==> r.value.typeSchema == s.typeSchema
    decreases Conns(c), Size(c), 3
  {
    match c
    case CallAddField(name, params) => AddField(b, s, name, params)
    case CallAddConnection(name, params) => AddConnection(b, s, name, params)
    case CallAddInlineFragmentOn(typeName, callback) => AddInlineFragmentOn(b, s, typeName, callback)
  }

  /** A callback's calls, one after the other, on the set it was handed; the first error stops it. */
  function Run(b: Bundle, s: SelSet, cmds: seq<Cmd>): (r: Result<SelSet>)
    ensures r.Ok? ==> r.value.typeSchema == s.typeSchema
    decreases ConnsSeq(cmds), SizeSeq(cmds), 4
  {
    if cmds == [] then Ok(s)
    else
      CmdWithin(cmds, 0);
      match Exec(b, s, cmds[0])
      case Err(e) => Err(e)
      case Ok(next) => Run(b, next, cmds[1..])
  }

  // ---------------------------------------------------------------- the query

  const RootTypeName := "QueryRoot"

  /** The `Query` constructor: a root set scoped to `QueryRoot`, populated by the callback. */
  function BuildQuery(b: Bundle, callback: Callback): (r: Result<SelSet>)
    ensures RootTypeName !in b ==> r == Err(UnknownType(RootTypeName))
    ensures r.Ok? ==> RootTypeName in b && r.value.typeSchema == b[RootTypeName]
    ensures RootTypeName in b ==> r == Run(b, Empty(b[RootTypeName]), callback.cmds)
  {
    match SchemaForType(b, RootTypeName)
    case Err(e) => Err(e)
    case Ok(t) => Run(b, Empty(t), callback.cmds)
  }

  /** `Query.toString`. */
  function QueryText(root: SelSet): (r: string)
    ensures |r| >= 5 && r[..5] == "query" && r[5..] == RenderSet(root)
  {
    "query" + RenderSet(root)
  }
}
