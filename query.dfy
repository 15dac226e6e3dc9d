/**
  The builder objects themselves: `SelectionSet`, whose builder calls change
  its `selections` in place (by `push` or by assignment at an index), and
  `Query`, which builds a root set and renders it.  Each call is proved to
  leave exactly the set that the corresponding function of module Build
  computes, and a call that throws leaves `selections` as it was.
 */
module Query {
  import opened Errors
  import opened Schema
  import opened Tree
  import opened Commands
  import Build
  import Parse

  class SelectionSet {
    const bundle: Bundle
    const typeSchema: TypeDef
    var selections: seq<Selection>

    /** The set as a value: what a field or fragment holds once its callback has run. */
    function Value(): SelSet
      reads this
    {
      SelSet(typeSchema, selections)
    }

    /** `new SelectionSet(typeBundle, type, parent)` given a type descriptor. */
    constructor (bundle: Bundle, typeSchema: TypeDef)
      ensures this.bundle == bundle && this.typeSchema == typeSchema && selections == []
    {
      this.bundle := bundle;
      this.typeSchema := typeSchema;
      selections := [];
    }

    /** `new SelectionSet(typeBundle, type, parent)` given a type name, which must be in the schema. */
    static method ForTypeName(bundle: Bundle, name: string) returns (r: Result<SelectionSet>)
      ensures r.Ok? <==> name in bundle
      ensures r.Err? ==> r.error == UnknownType(name)
      ensures r.Ok? ==>
        && fresh(r.value)
        && r.value.bundle == bundle && r.value.typeSchema == bundle[name] && r.value.selections == []
    {
      var t := SchemaForType(bundle, name);
      if t.Err? {
        return Err(t.error);
      }
      var s := new SelectionSet(bundle, t.value);
      return Ok(s);
    }

    /** Invokes a callback slot on this set: an argument mapping there is not a function. */
    method Call(callback: Param) returns (r: Outcome)
      modifies this
      ensures Build.CallOn(bundle, old(Value()), callback) == WithValue(r, Value())
      decreases ConnsParam(callback), SizeParam(callback), 0
    {
      if callback.ArgsParam? {
        return Fail(NotCallable);
      }
      r := Run(callback.cb.cmds);
    }

    /** Runs a callback's calls on this set in order, stopping at the first that throws. */
    method Run(cmds: seq<Cmd>) returns (r: Outcome)
      modifies this
      ensures Build.Run(bundle, old(Value()), cmds) == WithValue(r, Value())
      decreases ConnsSeq(cmds), SizeSeq(cmds), 4
    {
      var i := 0;
      while i < |cmds|
        invariant 0 <= i <= |cmds|
        invariant Build.Run(bundle, old(Value()), cmds) == Build.Run(bundle, Value(), cmds[i..])
      {
        CmdWithin(cmds, i);
        assert cmds[i..][0] == cmds[i] && cmds[i..][1..] == cmds[i + 1..];
        r := Exec(cmds[i]);
        if r.Fail? {
          return;
        }
        i := i + 1;
      }
      return Pass;
    }

    method Exec(c: Cmd) returns (r: Outcome)
      modifies this
      ensures Build.Exec(bundle, old(Value()), c) == WithValue(r, Value())
      decreases Conns(c), Size(c), 3
    {
      match c
      case CallAddField(name, params) =>
        r := AddField(name, params);
      case CallAddConnection(name, params) =>
        r := AddConnection(name, params);
      case CallAddInlineFragmentOn(typeName, callback) =>
        r := AddInlineFragmentOn(typeName, callback);
    }

    /** `addField(name, ...paramArgsCallback)`. */
    method AddField(name: string, params: seq<Param>) returns (r: Outcome)
      modifies this
      ensures Build.AddField(bundle, old(Value()), name, params) == WithValue(r, Value())
      ensures r.Fail? ==> selections == old(selections)
      decreases ConnsParams(params), SizeParams(params) + 1, 2
    {
      var d := GetArgsAndCallback(params);
      var idx := SelectionIndex(selections, name);
      var fd := DescriptorForField(bundle, name, typeSchema.name);
      if fd.Err? {
        return Fail(fd.error);
      }
      var child := new SelectionSet(bundle, fd.value.schema);
      DispatchedWithin(params);
      r := child.Call(d.callback);
      if r.Fail? {
        return;
      }
      var f := Field(name, ArgsOf(d.args), child.Value());
      if idx == -1 {
        selections := selections + [f];
      } else {
        selections := selections[idx := f];
      }
    }

    /** `addConnection(name, ...paramArgsCallback)`. */
    method AddConnection(name: string, params: seq<Param>) returns (r: Outcome)
      modifies this
      ensures Build.AddConnection(bundle, old(Value()), name, params) == WithValue(r, Value())
      ensures r.Fail? ==> selections == old(selections)
      decreases 1 + ConnsParams(params), SizeParams(params) + 1, 2
    {
      var d := GetArgsAndCallback(params);
      var idx := SelectionIndex(selections, name);
      var fd := DescriptorForField(bundle, name, typeSchema.name);
      if fd.Err? {
        return Fail(fd.error);
      }
      var child := new SelectionSet(bundle, fd.value.schema);
      DispatchedWithin(params);
      Build.PageInfoHasNoConnection();
      Build.EdgesHoldOnlyTheCallback(d.callback);
      r := child.AddField("pageInfo", Build.PageInfoParams);
      if r.Fail? {
        assert Build.ConnectionChild(bundle, fd.value.schema, d.callback) == Err(r.error);
        return;
      }
      r := child.AddField("edges", Build.EdgesParams(d.callback));
      if r.Fail? {
        assert Build.ConnectionChild(bundle, fd.value.schema, d.callback) == Err(r.error);
        return;
      }
      assert Build.ConnectionChild(bundle, fd.value.schema, d.callback) == Ok(child.Value());
      var f := Field(name, ArgsOf(d.args), child.Value());
      if idx == -1 {
        selections := selections + [f];
      } else {
        selections := selections[idx := f];
      }
    }

    /** `addInlineFragmentOn(typeName, fieldTypeCb)`. */
    method AddInlineFragmentOn(typeName: string, callback: Callback) returns (r: Outcome)
      modifies this
      ensures Build.AddInlineFragmentOn(bundle, old(Value()), typeName, callback) == WithValue(r, Value())
      ensures r.Fail? ==> selections == old(selections)
      decreases ConnsSeq(callback.cmds), SizeSeq(callback.cmds) + 1, 2
    {
      var t := SchemaForType(bundle, typeName);
      if t.Err? {
        return Fail(t.error);
      }
      var child := new SelectionSet(bundle, t.value);
      r := child.Run(callback.cmds);
      if r.Fail? {
        return;
      }
      selections := selections + [InlineFragment(typeName, child.Value())];
    }
  }

  class Query {
    const bundle: Bundle
    const selectionSet: SelectionSet

    constructor (bundle: Bundle, root: SelectionSet)
      ensures this.bundle == bundle && selectionSet == root
    {
      this.bundle := bundle;
      selectionSet := root;
    }

    /**
      `new Query(typeBundle, selectionSetCallback)`: a root set scoped to
      `QueryRoot`, handed to the callback; throws when the schema has no
      `QueryRoot` or the callback throws.
     */
    static method Create(bundle: Bundle, callback: Callback) returns (r: Result<Query>)
      ensures r.Ok? <==> Build.BuildQuery(bundle, callback).Ok?
      ensures r.Err? ==> r.error == Build.BuildQuery(bundle, callback).error
      ensures r.Ok? ==>
        && fresh(r.value) && fresh(r.value.selectionSet)
        && r.value.bundle == bundle && r.value.selectionSet.bundle == bundle
        && r.value.selectionSet.Value() == Build.BuildQuery(bundle, callback).value
    {
      var root := SelectionSet.ForTypeName(bundle, Build.RootTypeName);
      if root.Err? {
        return Err(root.error);
      }
      var rootSet := root.value;
      var o := rootSet.Run(callback.cmds);
      if o.Fail? {
        return Err(o.error);
      }
      var q := new Query(bundle, rootSet);
      return Ok(q);
    }

    /** `Query.toString`: the keyword `query`, then the root set's rendering. */
    function ToString(): (r: string)
      reads this, selectionSet
      ensures |r| >= 5 && r[..5] == "query" && r[5..] == RenderSet(selectionSet.Value())
    {
      Build.QueryText(selectionSet.Value())
    }
  }

  /** The text of a query reads back as the shape of the tree its root holds. */
  lemma ToStringReadsBack(q: Query)
    requires Parse.WellFormed(q.selectionSet.Value())
    ensures Parse.ReadQuery(q.ToString()) == Some(Parse.Erase(q.selectionSet.Value()))
  {
    Parse.ReadQueryText(q.selectionSet.Value());
  }
}
