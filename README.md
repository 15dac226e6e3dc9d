# graphql-js-client query builder, in Dafny

This project models the query builder and renderer of graphql-js-client
(`src/query.js`). A caller builds a GraphQL query by handing callbacks to a
`Query`. Each callback receives a `SelectionSet` scoped to one schema type and
calls `addField`, `addConnection` or `addInlineFragmentOn` on it. Each call
resolves the name against the schema, creates a child set, runs the caller's
callback on that child, and then either appends the new node to `selections`
or writes it over the first field with the same name. `toString` renders the
tree as query text: `query { shop { name } }`.

The files are:

- `errors.dfy`: the errors the builder raises (unknown type, unknown field, a callback slot that holds no function), plus `Option`, `Result` and `Outcome`.
- `json.dfy`: the `JSON.stringify` encoding of argument values (null, booleans, integers, strings), and a reader that decodes it again.
- `format.dfy`: `formatArgPair`, `formatArgs` and the `, ` join, with a reader for argument lists. Arguments are an ordered sequence of pairs, because insertion order is the rendering order.
- `schema.dfy`: the schema bundle and the two lookups the builder imports, `schemaForType` and `descriptorForField`. It also holds a sample storefront schema that agrees with the descriptor tests.
- `commands.dfy`: the caller's callbacks, modelled as scripts of builder calls. A trailing parameter is either an argument mapping or a callback. Also `getArgsAndCallback`.
- `tree.dfy`: `Field` and `InlineFragment` as values, `getSelectionIndex`, and the three `toString` renderers.
- `build.dfy`: each builder call as a function from the set before the call to the set after it, or to the error the call throws.
- `query.dfy`: the classes `SelectionSet` and `Query`. Their methods update `selections` in place (push or indexed assignment) and are proved to leave exactly the set that `build.dfy` computes.
- `build_props.dfy`: properties that relate calls to each other. Field names stay unique at every level. The last call for a name wins, in the first call's position. Rendering follows placement. The connection macro always builds the same skeleton.
- `parse.dfy`: a reader for the rendered text. On well-formed trees, reading back the rendering gives the tree's shape.
- `scenarios.dfy`: complete builds on the sample schema, with their exact query texts and errors.

A child set is fully populated by its callback before it is inserted
(line 107 runs before lines 109-113). In the model, where a callback is a
script of builder calls, a node's subtree therefore never changes once the
node is in the tree, and the model treats it as a value of type `SelSet`.
In JavaScript a callback can keep the set it was handed and change it later;
see "Left out".

## Model

| member | source | states |
|---|---|---|
| `Json.NatToString` | src/query.js:7 | the decimal form of a number is non-empty and all digits, with no leading zero except for `0` itself |
| `Json.NatToStringValue` | src/query.js:7 | reading those digits as a number gives the number back |
| `Json.EscapeChar` | src/query.js:7 | a character is escaped with a backslash exactly when it is `"`, `\` or a control character |
| `Json.Encode` | src/query.js:7 | the JSON text of an argument value is never empty, and its first character tells the value's kind: `n` for null, `t`/`f` for a boolean, `-` or a digit for an integer, `"` for a string. `Json.DecodeEncode` proves that it reads back as the same value |
| `Json.Quote` | src/query.js:7 | an encoded string starts and ends with a double quote |
| `Json.ReadEncoded` | src/query.js:7 | an encoded value is read back to the same value from the front of any text that does not continue a number |
| `Json.DecodeEncode` | src/query.js:7 | decoding the encoding of a value gives that value back |
| `Json.EncodeInjective` | src/query.js:7 | different values always have different encodings |
| `Format.Join` | src/query.js:21 | joining no parts gives the empty string, and joining one part gives that part |
| `Format.JoinAppend` | src/query.js:79-81 | adding a part at the end adds `, ` and that part at the end of the joined text |
| `Format.FormatArgPair` | src/query.js:6-8 | the pair's text is the key, then `: `, then the value's JSON text. `Format.ReadArgPairOf` proves that a pair with a GraphQL name as key reads back as itself |
| `Format.ReadArgPairOf` | src/query.js:6-8 | a formatted pair whose key is a GraphQL name reads back as the same key and value, from any continuation that does not start with a digit |
| `Format.FormatArgPairs` | src/query.js:17-19 | the k-th formatted pair is `key: JSON(value)` of the k-th argument, in key order |
| `Format.FormatArgs` | src/query.js:10-22 | the result is empty exactly when there are no arguments; otherwise it starts with ` (` and ends with `)` |
| `Format.FormatArgsSingle` | src/query.js:6-8 | a single argument renders as ` (key: JSON(value))` |
| `Format.ReadFormattedArgs` | src/query.js:10-22 | when every key is a GraphQL name, the formatted arguments read back as the same pairs in the same order |
| `Schema.SchemaForType` | src/query.js:66 | a type lookup succeeds exactly when the name is in the bundle, returning that name's type descriptor, and fails with UnknownType otherwise |
| `Schema.DescriptorForField` | src/query.js:104 | the parent type is missing: UnknownType; the field is missing: UnknownField, naming the field and the parent; on success, the child schema is scalar exactly when the field's kind is scalar, and a field is never both a list and a connection |
| `Schema.SampleObjectDescriptor` | test/descriptor-for-field-test.js:14-19 | on the sample schema, `shop` on QueryRoot resolves to the Shop object: not a list, not a connection |
| `Schema.SampleScalarDescriptor` | test/descriptor-for-field-test.js:36-47 | a scalar field resolves to the `{name, kind: SCALAR}` marker |
| `Schema.SampleListDescriptor` | test/descriptor-for-field-test.js:49-60 | a list field is a list and not a connection |
| `Schema.SampleConnectionDescriptor` | test/descriptor-for-field-test.js:62-73 | a connection field is a connection and not a list |
| `Commands.GetArgsAndCallback` | src/query.js:24-39 | one function parameter gives (no args, that callback); one mapping gives (that mapping, noop); two parameters are (args, callback) by position; any other count gives the defaults |
| `Commands.DispatchRecoversIntent` | src/query.js:24-39 | for each way a caller means to call (nothing, args, a callback, or args then a callback), dispatch finds what the caller meant |
| `Tree.SelectionIndex` | src/query.js:87-91 | the result is -1 exactly when no field has the name; otherwise it is the first field with the name (fragments never match) |
| `Schema.SampleRootDescriptors` | test/descriptor-for-field-test.js:21-33 | on the sample schema, `product` and `collection` on QueryRoot resolve to the Product and Collection objects: not lists, not connections |
| `Tree.RenderSelection` | src/query.js:47-59 | a field renders as its bare name exactly when it has no arguments and a scalar-scoped set. `Tree.SelectionTextLayout` gives the layout, and `Parse.ReadItemOf` proves that a field's or fragment's text reads back as its name, arguments and child |
| `Tree.SelectionTextLayout` | src/query.js:47-59 | a field's text starts with its name; a fragment's starts with `... on ` and its type name; both end with the rendering of their set |
| `Tree.RenderSet` | src/query.js:75-85 | a set renders as empty exactly when it is scoped to a scalar, whatever it holds; any other set renders as ` { ... }`, and an empty one as ` {  }` |
| `Tree.RenderedInOrder` | src/query.js:79-83 | the selections' renderings are joined in array order |
| `Tree.RenderEachAppend` | src/query.js:79-81 | appending a selection appends its rendering |
| `Build.Place` | src/query.js:109-113 | a field with a new name is appended; otherwise it overwrites the first field with its name, at that index |
| `Build.CallOn` | src/query.js:107 | calling a slot that holds an argument mapping fails with NotCallable; a callback keeps the child's scope |
| `Build.NewField` | src/query.js:101-107 | a failed descriptor lookup is the call's error. Otherwise the field exists exactly when the dispatched callback succeeds on an empty set scoped to the descriptor's schema. The field's child is the set that callback built, and the callback's error, `NotCallable` included, is the call's error. The field has the name and the dispatched args |
| `Build.AddField` | src/query.js:100-114 | fails exactly when building the field fails, with the same error. A new name appends exactly one field and keeps every earlier entry. A known name overwrites that index, keeps the length, and leaves every other entry as it was |
| `Build.ConnectionChild` | src/query.js:128-138 | the connection child keeps the connection type's schema |
| `Build.NewConnection` | src/query.js:124-138 | a failed descriptor lookup is the call's error. Otherwise the field exists exactly when `Build.ConnectionChild` succeeds for the dispatched callback. Its child is that connection child, whose shape `BuildProps.ConnectionChildShape` proves, and the child's error is the call's error. The field has the name and the dispatched args |
| `Build.AddConnection` | src/query.js:123-145 | the same replace-or-append rule as `addField`, with the connection field |
| `Build.AddInlineFragmentOn` | src/query.js:147-152 | an unknown type name fails with UnknownType. Otherwise exactly one fragment on that type is appended, even when one is already there. Its set is scoped to the looked-up type, not the parent's type, and the parent's scope is unchanged. For a known type, the call succeeds exactly when the callback does. The fragment holds the set the callback built, and the callback's error is the call's error |
| `Build.Exec` | src/query.js:100-152 | a builder call never changes the scope of the set it is made on |
| `Build.Run` | src/query.js:107 | running a callback never changes the scope of the set it was handed |
| `Build.BuildQuery` | src/query.js:156-160 | a schema without QueryRoot fails with UnknownType. Otherwise the result is the callback run on an empty root set scoped to QueryRoot. So the query succeeds exactly when the callback does, the root holds what the callback built, and the callback's error is the query's error |
| `Build.QueryText` | src/query.js:162-164 | the query text is `query` followed by the root set's rendering |
| `Query.SelectionSet.constructor` | src/query.js:64-73 | a new set holds the given bundle and schema, and no selections |
| `Query.SelectionSet.ForTypeName` | src/query.js:64-73 | building a set from a type name succeeds exactly when the name is in the bundle, and gives a fresh, empty set scoped to that type |
| `Query.SelectionSet.Call` | src/query.js:107 | the callback leaves the set that `Build.CallOn` computes, or fails with its error |
| `Query.SelectionSet.Run` | src/query.js:159 | running a script's calls one after another leaves the set that `Build.Run` computes; the first error stops the run |
| `Query.SelectionSet.Exec` | src/query.js:100-152 | a single builder call leaves the set that `Build.Exec` computes |
| `Query.SelectionSet.AddField` | src/query.js:100-114 | the in-place push or assignment leaves the set that `Build.AddField` computes; on an error `selections` is unchanged |
| `Query.SelectionSet.AddConnection` | src/query.js:123-145 | the in-place update leaves the set that `Build.AddConnection` computes; on an error `selections` is unchanged |
| `Query.SelectionSet.AddInlineFragmentOn` | src/query.js:147-152 | the push leaves the set that `Build.AddInlineFragmentOn` computes; on an error `selections` is unchanged |
| `Query.Query.constructor` | src/query.js:155-158 | the query holds the bundle and its root set |
| `Query.Query.ToString` | src/query.js:162-164 | the text is `query` followed by the rendering of the query's root set |
| `Query.ToStringReadsBack` | src/query.js:162-164 | the text of a query whose tree is well formed reads back as the shape of that tree |
| `Query.Query.Create` | src/query.js:155-160 | succeeds exactly when `Build.BuildQuery` does, with the same error on failure; on success the query owns a fresh root set equal to the built tree |
| `BuildProps.PlaceBuilt` | src/query.js:109-113 | placing a field keeps a set's field names unique |
| `BuildProps.RunBuilt` | src/query.js:100-152 | whatever a callback does, no two fields in any one set, at any depth, share a name |
| `BuildProps.QueryBuilt` | src/query.js:155-160 | every query the builder completes has unique field names in each of its sets |
| `BuildProps.PlaceLastWins` | src/query.js:109-113 | placing two fields with the same name is the same as placing only the second one |
| `BuildProps.AddFieldOverwrites` | src/query.js:109-113 | in a set whose field names are unique, a field added under a name already present replaces exactly that field, in its position, and nothing else |
| `BuildProps.AddFieldLastWins` | src/query.js:100-114 | after `addField(n, a)` then `addField(n, b)` the set is the same as after `addField(n, b)` alone; adding the same field twice is the same as adding it once |
| `BuildProps.AddConnectionLastWins` | src/query.js:123-145 | the same holds for `addConnection` |
| `BuildProps.RenderPlace` | src/query.js:75-85 | after a replacement the new field renders at the old field's position; after an append it renders last |
| `BuildProps.AddLeaf` | src/query.js:131 | a scalar field added with no parameters is appended, with no args and an empty scalar set |
| `BuildProps.RunTwo` | src/query.js:130-133 | a two-call callback runs the second call on what the first call left |
| `BuildProps.PageInfoChild` | src/query.js:130-133 | `pageInfo` holds `hasNextPage`, then `hasPreviousPage` |
| `BuildProps.EdgesChild` | src/query.js:135-138 | `edges` holds `cursor`, then `node`. `node` is exactly what the caller's callback builds, and a failure of that callback is the call's failure |
| `BuildProps.ConnectionChildShape` | src/query.js:128-138 | a connection's child is exactly `[pageInfo{hasNextPage, hasPreviousPage}, edges{cursor, node}]`, and the caller's callback only fills `node` |
| `BuildProps.SkeletonRendered` | src/query.js:128-138 | that child renders as ` { pageInfo { hasNextPage, hasPreviousPage }, edges { cursor, node` + the node's text + ` } }` |
| `Parse.Erase` | src/query.js:75-78 | the text carries no set for a tree exactly when the tree is scoped to a scalar |
| `Parse.ReadSetOf` | src/query.js:75-85 | a well-formed set's rendering reads back as its shape, from the front of any text that does not open a set |
| `Parse.ReadItemOf` | src/query.js:47-59 | a field reads back as its name, args and child; a fragment reads back as its type name and child |
| `Parse.ReadRendered` | src/query.js:75-85 | a well-formed set's rendering reads back completely as its shape |
| `Parse.ReadQueryText` | src/query.js:162-164 | the query text of a well-formed root reads back as the root's shape |
| `Parse.RenderInjective` | src/query.js:75-85 | two well-formed trees that render the same have the same shape |
| `Scenarios.ShopNameText` | src/query.js:155-164 | `root.addField('shop', shop => shop.addField('name'))` renders as `query { shop { name } }` |
| `Scenarios.ShopProductsText` | src/query.js:123-145 | `shop.addConnection('products', {first: 10}, p => p.addField('id'))` renders as `query { shop { products (first: 10) { pageInfo { hasNextPage, hasPreviousPage }, edges { cursor, node { id } } } } }` |
| `Scenarios.UnknownFieldRaised` | src/query.js:104 | adding a field the root type lacks fails with UnknownField naming `nope` and `QueryRoot` |
| `Scenarios.UnknownFragmentTypeRaised` | src/query.js:148 | a fragment on an unknown type fails with UnknownType |
| `Scenarios.SwappedParametersRaise` | src/query.js:34-35 | `addField('shop', callback, {})` puts the mapping in the callback slot, so the call fails when that slot is called |
| `Scenarios.FragmentUnderScalarDropped` | src/query.js:75-77 | a fragment added under a scalar field is kept in the tree but does not appear in the text |

## Left out

- `descriptor-for-field.js` and `schema-for-type.js` are not part of this model. `Schema.DescriptorForField` and `Schema.SchemaForType` are stand-ins with the shape the builder relies on. They agree with the sample descriptors of `test/descriptor-for-field-test.js`. The model says nothing about the real resolver's logic. In particular, the stand-in's rule for `isConnection` is an assumption: the field is not a list, its target type is not a scalar, and the target's name is `Connection` preceded by at least one character.
- `join.js` is not part of this model. `join` is taken to put `, ` between the parts.
- `noop.js` is not part of this model. `noop` is the empty callback.
- Argument values are limited to null, booleans, integers and strings. Floating-point numbers, nested objects and arrays are not modelled. Integers are encoded as exact decimals, so JavaScript's double precision and exponent notation are not modelled either: integers of 1e21 and above print in exponent form, and integers beyond 2^53 lose precision.
- Argument mappings are ordered sequences of pairs. The model does not reproduce how JavaScript's `Object.keys` orders integer-like keys, and it does not model duplicate keys.
- Callbacks are scripts of builder calls, not arbitrary closures. A callback cannot capture and mutate an ancestor set, and cannot read the set it was handed. Aliasing is not modelled either. In JavaScript a callback can keep the `SelectionSet` it was handed, and `Field` stores that same object. So a later `addField` on the kept set changes a subtree already in the tree, and so can a write to the public `selections` array. In the model an inserted subtree is a value and never changes. `typeof` inspection becomes the two parameter kinds, and an `undefined` parameter is not modelled.
- The `parent` back-reference (line 71) is stored but never read, so it is not modelled.
- `Query.SelectionSet.Run`, `Query.Query.Create`: when a callback throws partway through, the sets it had already changed stay changed in JavaScript. The model says only which error is raised. It does not describe a set after a failed run, except for the single-call guarantee that `selections` is unchanged.
- The library's design describes scalar-scoped sets as leaves. The code does not enforce this: `addInlineFragmentOn` performs no kind check, so a callback given to a scalar field can add a fragment. The model follows the code. `Scenarios.FragmentUnderScalarDropped` shows that the fragment is kept but not rendered, and `Parse.WellFormed` excludes such trees from the round trip.
