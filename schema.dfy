/**
  The schema that the builder consults: a read-only bundle of type
  descriptors indexed by type name, and the two lookups the builder imports,
  `schemaForType` (a type by name) and `descriptorForField` (a field of a
  named parent type).  Both are partial: a name that is absent is an error.
  Their own sources are not part of this model; the resolver below is a
  stand-in that has the shape the builder relies on and agrees with the
  sample descriptors of the repository's tests.
 */
module Schema {
  import opened Errors

  datatype Kind = Scalar | Object | Interface | Union | Enum | InputObject

  /** A field's declaration inside its parent type: the target type's name and whether it is a list of it. */
  datatype FieldDef = FieldDef(typeName: string, isList: bool)

  datatype TypeDef = TypeDef(name: string, kind: Kind, fields: map<string, FieldDef>)

  /** The schema index: type descriptors by type name. */
  type Bundle = map<string, TypeDef>

  /** Every descriptor is filed under its own name. */
  predicate NamesConsistent(b: Bundle)
  {
    forall n :: n in b ==> b[n].name == n
  }

  /** The minimal `{name, kind: SCALAR}` marker a scalar field resolves to. */
  function ScalarMarker(name: string): TypeDef
  {
    TypeDef(name, Scalar, map[])
  }

  /** `schemaForType`: the descriptor filed under `name`. */
  function SchemaForType(b: Bundle, name: string): (r: Result<TypeDef>)
    ensures r.Ok? <==> name in b
    ensures r.Err? ==> r.error == UnknownType(name)
    ensures r.Ok? ==> r.value == b[name]
  {
    if name in b then Ok(b[name]) else Err(UnknownType(name))
  }

  datatype FieldDescriptor = FieldDescriptor(
    fieldName: string,
    typeName: string,
    kind: Kind,
    isList: bool,
    isConnection: bool,
    schema: TypeDef)

  /** The naming convention for paginated collection types. */
  predicate IsConnectionTypeName(name: string)
  {
    |name| > 10 && name[|name| - 10..] == "Connection"
  }

  /**
    `descriptorForField`: resolves `fieldName` on the type `parentType`.
    Fails with UnknownType when the parent or the target type is missing
    and with UnknownField when the parent lacks the field.  A scalar target
    resolves to the scalar marker, anything else to its full descriptor.
   */
  function DescriptorForField(b: Bundle, fieldName: string, parentType: string): (r: Result<FieldDescriptor>)
    ensures parentType !in b ==> r == Err(UnknownType(parentType))
    ensures parentType in b && fieldName !in b[parentType].fields ==> r == Err(UnknownField(fieldName, parentType))
    ensures r.Ok? ==>
      && parentType in b && fieldName in b[parentType].fields
      && r.value.fieldName == fieldName
      && r.value.typeName == b[parentType].fields[fieldName].typeName
      && r.value.typeName in b
      && r.value.kind == b[r.value.typeName].kind
      && (r.value.schema.kind == Scalar <==> r.value.kind == Scalar)
      && !(r.value.isList && r.value.isConnection)
    ensures r.Ok? && NamesConsistent(b) ==> r.value.schema.name == r.value.typeName
  {
    if parentType !in b then Err(UnknownType(parentType))
    else if fieldName !in b[parentType].fields then Err(UnknownField(fieldName, parentType))
    else
      var def := b[parentType].fields[fieldName];
      if def.typeName !in b then Err(UnknownType(def.typeName))
      else
        var target := b[def.typeName];
        Ok(FieldDescriptor(
          fieldName,
          def.typeName,
          target.kind,
          def.isList,
          target.kind != Scalar && !def.isList && IsConnectionTypeName(def.typeName),
          if target.kind == Scalar then ScalarMarker(def.typeName) else target))
  }

  // ---------------------------------------------------------------- sample schema

  const QueryRootType := TypeDef("QueryRoot", Object, map[
    "shop" := FieldDef("Shop", false),
    "product" := FieldDef("Product", false),
    "collection" := FieldDef("Collection", false)])
  const ShopType := TypeDef("Shop", Object, map[
    "name" := FieldDef("String", false),
    "products" := FieldDef("ProductConnection", false)])
  const ProductType := TypeDef("Product", Object, map[
    "id" := FieldDef("ID", false),
    "title" := FieldDef("String", false),
    "options" := FieldDef("ProductOption", true)])
  const ProductOptionType := TypeDef("ProductOption", Object, map["name" := FieldDef("String", false)])
  const CollectionType := TypeDef("Collection", Object, map["id" := FieldDef("ID", false)])
  const ProductConnectionType := TypeDef("ProductConnection", Object, map[
    "pageInfo" := FieldDef("PageInfo", false),
    "edges" := FieldDef("ProductEdge", true)])
  const ProductEdgeType := TypeDef("ProductEdge", Object, map[
    "cursor" := FieldDef("String", false),
    "node" := FieldDef("Product", false)])
  const PageInfoType := TypeDef("PageInfo", Object, map[
    "hasNextPage" := FieldDef("Boolean", false),
    "hasPreviousPage" := FieldDef("Boolean", false)])

  /** A fragment of the storefront schema the repository's tests resolve against. */
  const Sample: Bundle := map[
    "String" := ScalarMarker("String"),
    "Boolean" := ScalarMarker("Boolean"),
    "ID" := ScalarMarker("ID"),
    "QueryRoot" := QueryRootType,
    "Shop" := ShopType,
    "Product" := ProductType,
    "ProductOption" := ProductOptionType,
    "Collection" := CollectionType,
    "ProductConnection" := ProductConnectionType,
    "ProductEdge" := ProductEdgeType,
    "PageInfo" := PageInfoType]

  /** The sample schema has the root type a query starts from. */
  lemma SampleRoot()
    ensures "QueryRoot" in Sample && Sample["QueryRoot"] == QueryRootType
  {
  }

  /** The resolver's answers on the sample schema are the ones the descriptor tests expect: an object field. */
  lemma SampleObjectDescriptor()
    ensures DescriptorForField(Sample, "shop", "QueryRoot")
         == Ok(FieldDescriptor("shop", "Shop", Object, false, false, ShopType))
  {
    assert !IsConnectionTypeName("Shop");
  }

  /** The other two object fields of the query root resolve likewise. */
  lemma SampleRootDescriptors()
    ensures DescriptorForField(Sample, "product", "QueryRoot")
         == Ok(FieldDescriptor("product", "Product", Object, false, false, ProductType))
    ensures DescriptorForField(Sample, "collection", "QueryRoot")
         == Ok(FieldDescriptor("collection", "Collection", Object, false, false, CollectionType))
  {
    assert !IsConnectionTypeName("Product");
    assert !IsConnectionTypeName("Collection");
  }

  /** A scalar field resolves to the scalar marker. */
  lemma SampleScalarDescriptor()
    ensures DescriptorForField(Sample, "name", "Shop")
         == Ok(FieldDescriptor("name", "String", Scalar, false, false, TypeDef("String", Scalar, map[])))
  {
  }

  /** A list field is a list and not a connection. */
  lemma SampleListDescriptor()
    ensures DescriptorForField(Sample, "options", "Product")
         == Ok(FieldDescriptor("options", "ProductOption", Object, true, false, ProductOptionType))
  {
  }

  /** A connection field is a connection and not a list. */
  lemma SampleConnectionDescriptor()
    ensures DescriptorForField(Sample, "products", "Shop")
         == Ok(FieldDescriptor("products", "ProductConnection", Object, false, true, ProductConnectionType))
  {
    assert IsConnectionTypeName("ProductConnection") by {
      assert "ProductConnection"[7..] == "Connection";
    }
  }
}
