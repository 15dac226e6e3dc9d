/**
  End-to-end runs of the builder on the sample schema: the query texts
  the builder produces for a plain nested field and for a paginated
  connection, and the errors it raises for an unknown field and for an
  argument mapping passed where the callback goes.
 */
module Scenarios {
  import opened Errors
  import opened Json
  import opened Format
  import opened Schema
  import opened Tree
  import opened Commands
  import opened Build
  import opened BuildProps

  /** A callback of a single call runs that call. */
  lemma RunOne(b: Bundle, s: SelSet, c: Cmd)
    ensures Run(b, s, [c]) == Exec(b, s, c)
  {
    assert [c][0] == c && [c][1..] == [];
    var r := Exec(b, s, c);
    if r.Ok? {
      assert Run(b, r.value, []) == r;
    }
  }

  /** A new field with only a callback: appended, holding what the callback built. */
  lemma AddNested(b: Bundle, s: SelSet, name: string, cmds: seq<Cmd>)
    requires DescriptorForField(b, name, s.typeSchema.name).Ok?
    requires SelectionIndex(s.selections, name) == -1
    requires Run(b, Empty(FieldSchema(b, s.typeSchema.name, name)), cmds).Ok?
    ensures AddField(b, s, name, [CallbackParam(Script(cmds))]) ==
      Ok(SelSet(s.typeSchema, s.selections + [Field(name, [], Run(b, Empty(FieldSchema(b, s.typeSchema.name, name)), cmds).value)]))
  {
    var params := [CallbackParam(Script(cmds))];
    assert GetArgsAndCallback(params) == Dispatch(ArgsParam([]), CallbackParam(Script(cmds)));
    var child := Run(b, Empty(FieldSchema(b, s.typeSchema.name, name)), cmds);
    assert CallOn(b, Empty(FieldSchema(b, s.typeSchema.name, name)), CallbackParam(Script(cmds))) == child;
    assert NewField(b, s.typeSchema.name, name, params) == Ok(Field(name, [], child.value));
  }

  /** The first field of an empty set, with only a callback, is the set's only selection. */
  lemma NestedIntoEmpty(b: Bundle, t: TypeDef, name: string, cmds: seq<Cmd>)
    requires DescriptorForField(b, name, t.name).Ok?
    requires Run(b, Empty(FieldSchema(b, t.name, name)), cmds).Ok?
    ensures AddField(b, Empty(t), name, [CallbackParam(Script(cmds))]) ==
      Ok(SelSet(t, [Field(name, [], Run(b, Empty(FieldSchema(b, t.name, name)), cmds).value)]))
  {
    AddNested(b, Empty(t), name, cmds);
    var f := Field(name, [], Run(b, Empty(FieldSchema(b, t.name, name)), cmds).value);
    assert [] + [f] == [f];
  }

  /** A query whose callback makes one call runs that call on the empty root. */
  lemma QueryOfOne(b: Bundle, c: Cmd)
    requires RootTypeName in b
    ensures BuildQuery(b, Script([c])) == Exec(b, Empty(b[RootTypeName]), c)
  {
    RunOne(b, Empty(b[RootTypeName]), c);
  }

  /** A query whose callback adds one field holding a callback: the root holds that field alone. */
  lemma QueryOfNested(b: Bundle, name: string, cmds: seq<Cmd>, inner: SelSet)
    requires RootTypeName in b
    requires DescriptorForField(b, name, b[RootTypeName].name).Ok?
    requires Run(b, Empty(FieldSchema(b, b[RootTypeName].name, name)), cmds) == Ok(inner)
    ensures BuildQuery(b, Script([CallAddField(name, [CallbackParam(Script(cmds))])])) ==
      Ok(SelSet(b[RootTypeName], [Field(name, [], inner)]))
  {
    NestedIntoEmpty(b, b[RootTypeName], name, cmds);
    QueryOfOne(b, CallAddField(name, [CallbackParam(Script(cmds))]));
  }

  const NameLeaf: Selection := Field("name", [], Empty(ScalarMarker("String")))

  /** `(shop) => shop.addField('name')`. */
  const SelectName: Callback := Script([CallAddField("name", [])])

  /** `new Query(types, (root) => root.addField('shop', (shop) => shop.addField('name')))`. */
  const ShopName: Callback := Script([CallAddField("shop", [CallbackParam(SelectName)])])

  lemma SelectNameOnShop()
    ensures Run(Sample, Empty(ShopType), SelectName.cmds) == Ok(SelSet(ShopType, [NameLeaf]))
  {
    SampleScalarDescriptor();
    AddLeaf(Sample, Empty(ShopType), "name");
    assert [] + [NameLeaf] == [NameLeaf];
    RunOne(Sample, Empty(ShopType), SelectName.cmds[0]);
  }

  lemma ShopNameTree()
    ensures BuildQuery(Sample, ShopName) == Ok(SelSet(QueryRootType, [Field("shop", [], SelSet(ShopType, [NameLeaf]))]))
  {
    SampleObjectDescriptor();
    SelectNameOnShop();
    QueryOfNested(Sample, "shop", SelectName.cmds, SelSet(ShopType, [NameLeaf]));
  }

  /** A set holding one selection renders as that selection between the braces. */
  lemma SingleSetText(t: TypeDef, sel: Selection)
    requires t.kind != Scalar
    ensures RenderSet(SelSet(t, [sel])) == " { " + RenderSelection(sel) + " }"
  {
    assert RenderEach([sel]) == [RenderSelection(sel)];
  }

  /** A query whose root holds one field without arguments, which holds one selection. */
  lemma WrapField(rootType: TypeDef, name: string, fieldType: TypeDef, inner: Selection)
    requires rootType.kind != Scalar && fieldType.kind != Scalar
    ensures QueryText(SelSet(rootType, [Field(name, [], SelSet(fieldType, [inner]))]))
         == "query" + (" { " + (name + " { " + RenderSelection(inner) + " }") + " }")
  {
    var fieldSet := SelSet(fieldType, [inner]);
    var field := Field(name, [], fieldSet);
    assert RenderSelection(field) == name + " { " + RenderSelection(inner) + " }" by {
      SingleSetText(fieldType, inner);
      FieldText(name, [], fieldSet);
    }
    SingleSetText(rootType, field);
  }

  lemma WrapShop(rootType: TypeDef, shopType: TypeDef, inner: Selection)
    requires rootType.kind != Scalar && shopType.kind != Scalar
    ensures QueryText(SelSet(rootType, [Field("shop", [], SelSet(shopType, [inner]))]))
         == "query { shop { " + RenderSelection(inner) + " } }"
  {
    WrapField(rootType, "shop", shopType, inner);
    ShopWrapping(RenderSelection(inner));
  }

  lemma ShopNameRootText()
    ensures QueryText(SelSet(QueryRootType, [Field("shop", [], SelSet(ShopType, [NameLeaf]))])) == "query { shop { name } }"
  {
    WrapShop(QueryRootType, ShopType, NameLeaf);
    assert RenderSelection(NameLeaf) == "name";
    assert "query { shop { " + "name" + " } }" == "query { shop { name } }";
  }

  lemma ShopNameText()
    ensures BuildQuery(Sample, ShopName).Ok?
    ensures QueryText(BuildQuery(Sample, ShopName).value) == "query { shop { name } }"
  {
    ShopNameTree();
    ShopNameRootText();
  }

  // ---------------------------------------------------------------- a paginated connection

  const IdLeaf: Selection := Field("id", [], Empty(ScalarMarker("ID")))

  /** `(product) => product.addField('id')`. */
  const SelectId: Callback := Script([CallAddField("id", [])])

  const FirstTen: Args := [("first", Int(10))]

  /** `(shop) => shop.addConnection('products', {first: 10}, (product) => product.addField('id'))`. */
  const SelectProducts: Callback := Script([CallAddConnection("products", [ArgsParam(FirstTen), CallbackParam(SelectId)])])

  /** `new Query(types, (root) => root.addField('shop', ...SelectProducts))`. */
  const ShopProducts: Callback := Script([CallAddField("shop", [CallbackParam(SelectProducts)])])

  lemma ProductConnectionPaginated()
    ensures Paginated(Sample, "ProductConnection")
    ensures NodeSchema(Sample, "ProductConnection") == ProductType
  {
    assert FieldSchema(Sample, "ProductConnection", "pageInfo") == PageInfoType;
    assert FieldSchema(Sample, "ProductConnection", "edges") == ProductEdgeType;
    assert ScalarField(Sample, "PageInfo", "hasNextPage");
    assert ScalarField(Sample, "PageInfo", "hasPreviousPage");
    assert ScalarField(Sample, "ProductEdge", "cursor");
    assert FieldSchema(Sample, "ProductEdge", "node") == ProductType;
  }

  lemma SelectIdOnProduct()
    ensures CallOn(Sample, Empty(ProductType), CallbackParam(SelectId)) == Ok(SelSet(ProductType, [IdLeaf]))
  {
    assert ScalarField(Sample, "Product", "id");
    assert Leaf(Sample, "Product", "id") == IdLeaf;
    AddLeaf(Sample, Empty(ProductType), "id");
    assert [] + [IdLeaf] == [IdLeaf];
    RunOne(Sample, Empty(ProductType), SelectId.cmds[0]);
  }

  /** The `products` connection as the builder makes it. */
  function ProductsField(): Selection
    requires Paginated(Sample, "ProductConnection")
  {
    Field("products", FirstTen, Skeleton(Sample, ProductConnectionType, SelSet(ProductType, [IdLeaf])))
  }

  /** The first field of an empty set is the set's only selection. */
  lemma ConnectionIntoEmpty(b: Bundle, t: TypeDef, name: string, params: seq<Param>)
    requires NewConnection(b, t.name, name, params).Ok?
    ensures AddConnection(b, Empty(t), name, params) == Ok(SelSet(t, [NewConnection(b, t.name, name, params).value]))
  {
    assert [] + [NewConnection(b, t.name, name, params).value] == [NewConnection(b, t.name, name, params).value];
  }

  lemma ProductsConnection()
    ensures Paginated(Sample, "ProductConnection")
    ensures NewConnection(Sample, "Shop", "products", [ArgsParam(FirstTen), CallbackParam(SelectId)]) == Ok(ProductsField())
  {
    ProductConnectionPaginated();
    SelectIdOnProduct();
    SampleConnectionDescriptor();
    ConnectionChildShape(Sample, ProductConnectionType, CallbackParam(SelectId));
    var params := [ArgsParam(FirstTen), CallbackParam(SelectId)];
    assert GetArgsAndCallback(params) == Dispatch(ArgsParam(FirstTen), CallbackParam(SelectId));
  }

  lemma SelectProductsOnShop()
    ensures Paginated(Sample, "ProductConnection")
    ensures Run(Sample, Empty(ShopType), SelectProducts.cmds) == Ok(SelSet(ShopType, [ProductsField()]))
  {
    ProductsConnection();
    ConnectionIntoEmpty(Sample, ShopType, "products", [ArgsParam(FirstTen), CallbackParam(SelectId)]);
    RunOne(Sample, Empty(ShopType), SelectProducts.cmds[0]);
  }

  lemma ShopProductsTree()
    ensures Paginated(Sample, "ProductConnection")
    ensures BuildQuery(Sample, ShopProducts) == Ok(SelSet(QueryRootType, [Field("shop", [], SelSet(ShopType, [ProductsField()]))]))
  {
    SelectProductsOnShop();
    var inner := SelSet(ShopType, [ProductsField()]);
    assert DescriptorForField(Sample, "shop", "QueryRoot").Ok? && FieldSchema(Sample, "QueryRoot", "shop") == ShopType by {
      SampleObjectDescriptor();
    }
    SampleRoot();
    QueryOfNested(Sample, "shop", SelectProducts.cmds, inner);
    assert ShopProducts == Script([CallAddField("shop", [CallbackParam(Script(SelectProducts.cmds))])]);
  }

  lemma FirstTenText()
    ensures FormatArgs(FirstTen) == " (first: 10)"
  {
    assert NatToString(10) == "10" by {
      assert NatToString(1) == "1";
    }
    FormatArgsSingle("first", Int(10));
  }

  lemma ProductsText()
    requires Paginated(Sample, "ProductConnection")
    ensures RenderSelection(ProductsField()) == "products (first: 10)" + PaginationText(" { id }")
  {
    var node := SelSet(ProductType, [IdLeaf]);
    var sk := Skeleton(Sample, ProductConnectionType, node);
    assert RenderSet(node) == " { id }" by {
      assert RenderSelection(IdLeaf) == "id";
      assert RenderEach([IdLeaf]) == ["id"];
    }
    assert RenderSet(sk) == PaginationText(" { id }") by {
      SkeletonRendered(Sample, ProductConnectionType, node);
    }
    FirstTenText();
    ProductsOpening();
    FieldText("products", FirstTen, sk);
  }

  lemma ProductsOpening()
    ensures "products" + " (first: 10)" == "products (first: 10)"
  {
  }

  lemma FieldText(name: string, args: Args, child: SelSet)
    ensures RenderSelection(Field(name, args, child)) == name + FormatArgs(args) + RenderSet(child)
  {
  }

  /** The text around the connection: the root set and the `shop` field. */
  lemma ShopWrapping(p: string)
    ensures "query" + (" { " + ("shop" + " { " + p + " }") + " }") == "query { shop { " + p + " } }"
  {
    assert "query" + " { " + "shop" + " { " == "query { shop { ";
    assert " }" + " }" == " } }";
    assert "query" + (" { " + ("shop" + " { " + p + " }") + " }") == "query" + " { " + "shop" + " { " + p + (" }" + " }");
  }

  lemma QueryPrefix(x: string)
    ensures "query { shop { " + ("products (first: 10)" + x) + " } }" == "query { shop { products (first: 10)" + x + " } }"
  {
    assert "query { shop { " + "products (first: 10)" == "query { shop { products (first: 10)";
    assert "query { shop { " + ("products (first: 10)" + x) + " } }" == ("query { shop { " + "products (first: 10)") + x + " } }";
  }

  lemma ShopProductsRootText()
    requires Paginated(Sample, "ProductConnection")
    ensures QueryText(SelSet(QueryRootType, [Field("shop", [], SelSet(ShopType, [ProductsField()]))]))
         == "query { shop { products (first: 10)" + PaginationText(" { id }") + " } }"
  {
    WrapShop(QueryRootType, ShopType, ProductsField());
    ProductsText();
    QueryPrefix(PaginationText(" { id }"));
  }

  /**
    The connection macro at work: the arguments go on the connection, and
    the caller's `id` ends up inside `node`, wrapped in the pagination block.
   */
  lemma ShopProductsText()
    ensures BuildQuery(Sample, ShopProducts).Ok?
    ensures QueryText(BuildQuery(Sample, ShopProducts).value)
         == "query { shop { products (first: 10)" + PaginationText(" { id }") + " } }"
  {
    ShopProductsTree();
    ShopProductsRootText();
  }

  // ---------------------------------------------------------------- errors

  /** `root.addField('nope')`: the root type has no such field. */
  lemma UnknownFieldRaised()
    ensures BuildQuery(Sample, Script([CallAddField("nope", [])])) == Err(UnknownField("nope", "QueryRoot"))
  {
    RunOne(Sample, Empty(QueryRootType), CallAddField("nope", []));
  }

  /** `root.addInlineFragmentOn('Nope')`: no type of that name. */
  lemma UnknownFragmentTypeRaised()
    ensures BuildQuery(Sample, Script([CallAddInlineFragmentOn("Nope", Noop)])) == Err(UnknownType("Nope"))
  {
    RunOne(Sample, Empty(QueryRootType), CallAddInlineFragmentOn("Nope", Noop));
  }

  /**
    `root.addField('shop', callback, {})`: two parameters are taken as
    (args, callback) by position, so the mapping lands in the callback slot
    and calling it fails.
   */
  lemma SwappedParametersRaise()
    ensures BuildQuery(Sample, Script([CallAddField("shop", [CallbackParam(SelectName), ArgsParam([])])])) == Err(NotCallable)
  {
    SampleObjectDescriptor();
    var params := [CallbackParam(SelectName), ArgsParam([])];
    assert GetArgsAndCallback(params) == Dispatch(CallbackParam(SelectName), ArgsParam([]));
    RunOne(Sample, Empty(QueryRootType), CallAddField("shop", params));
  }

  // ---------------------------------------------------------------- a fragment under a scalar

  /** `(name) => name.addInlineFragmentOn('Shop')`, handed to the scalar field `name`. */
  const FragmentUnderName: Callback :=
    Script([CallAddField("name", [CallbackParam(Script([CallAddInlineFragmentOn("Shop", Noop)]))])])

  const NameWithFragment: Selection :=
    Field("name", [], SelSet(ScalarMarker("String"), [InlineFragment("Shop", Empty(ShopType))]))

  lemma FragmentUnderNameOnShop()
    ensures Run(Sample, Empty(ShopType), FragmentUnderName.cmds) == Ok(SelSet(ShopType, [NameWithFragment]))
  {
    SampleScalarDescriptor();
    var inner := [CallAddInlineFragmentOn("Shop", Noop)];
    RunOne(Sample, Empty(ScalarMarker("String")), inner[0]);
    assert Run(Sample, Empty(ShopType), Noop.cmds) == Ok(Empty(ShopType));
    assert [] + [InlineFragment("Shop", Empty(ShopType))] == [InlineFragment("Shop", Empty(ShopType))];
    AddNested(Sample, Empty(ShopType), "name", inner);
    assert [] + [NameWithFragment] == [NameWithFragment];
    RunOne(Sample, Empty(ShopType), FragmentUnderName.cmds[0]);
  }

  /**
    The builder accepts a fragment inside a scalar field's set, and the
    rendering drops it without a trace: the text is that of `shop { name }`.
   */
  lemma FragmentUnderScalarDropped()
    ensures Run(Sample, Empty(ShopType), FragmentUnderName.cmds).Ok?
    ensures var name := Run(Sample, Empty(ShopType), FragmentUnderName.cmds).value.selections;
      |name| == 1 && name[0].child.typeSchema.kind == Scalar && |name[0].child.selections| == 1
    ensures RenderSet(Run(Sample, Empty(ShopType), FragmentUnderName.cmds).value) == " { name }"
  {
    FragmentUnderNameOnShop();
    assert RenderSelection(NameWithFragment) == "name";
    assert RenderEach([NameWithFragment]) == ["name"];
  }
}
