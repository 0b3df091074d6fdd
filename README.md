# Dynamic column type: descriptor and subcolumn resolution

A Dafny model of ClickHouse's `Dynamic` data type as implemented in
`src/DataTypes/DataTypeDynamic.cpp`. A Dynamic column holds rows of up to `max_types` different
concrete types, stored as a variant (tagged union) column. The model covers:

- the **descriptor** (`DynamicType`): the bound `maxDynamicTypes`, the display name `Dynamic` or
  `Dynamic(max_types=N)`, the default value `Null`, and `create`, which validates the argument
  list of `Dynamic(...)` and accepts either no argument or one `max_types = N` with `N` a UInt64
  literal in `[1, 255]`; every other shape is an exception with the source's error code and message;
- the **subcolumn resolver** (`DynamicSubcolumns.GetDynamicSubcolumnData`): splits a path into a
  type name and a remainder, looks the type name up in the registry, looks the canonical name up in
  the column's catalog of global discriminators, turns the remainder `null` into a UInt8 null map,
  delegates other remainders to the generic nested resolver, wraps the serialization, promotes the
  type to nullable when the type allows it, and, when a column is supplied, chooses between a
  variant creator (type present), a null map of ones, or a column of defaults (type absent).

The resolver is an imperative method that overwrites a local result record in the order the
source does; `resize_fill` and `insertManyDefaults` are loop methods. Exceptions are `Failure`
results, a returned null pointer is `Success(None)`.

Modules: `Wrappers` (Option, Result), `Errors` (error codes), `DataTypes` (types as the resolver
sees them: canonical name and the `canBeInsideNullable` / `lowCardinality` capabilities),
`DynamicType`, `DynamicSubcolumns`, and `Scenarios` (concrete uses whose outcomes are asserted
and verified).

Inputs that come from outside the file are parameters: `Nested::splitName` is a function
`splitName`, `DataTypeFactory::tryGet` is a map `registry`, `getSubcolumnData` is a function
returning a `Resolution`, and the Dynamic column is reduced to its catalog
(`variant_name_to_discriminator`), its global-to-local discriminator table and its per-row local
discriminators (row count = their number).

A malformed argument list is NUMBER_OF_ARGUMENTS_DOESNT_MATCH or UNEXPECTED_AST_STRUCTURE, and
an unknown subcolumn type in strict mode is ILLEGAL_COLUMN.

## Model

| member | source | states |
|---|---|---|
| `DynamicType.GetName` | src/DataTypes/DataTypeDynamic.cpp:37-42 | the name is exactly `Dynamic` iff the bound is the default 32, and otherwise `Dynamic(max_types=` followed by the canonical decimal spelling of the bound and `)` |
| `DynamicType.ToDecimal` | src/DataTypes/DataTypeDynamic.cpp:41 | the printed bound is a non-empty run of decimal digits without a leading zero that denotes the bound |
| `DynamicType.GetDefault` | src/DataTypes/DataTypeDynamic.cpp:44-47 | the default value is Null, whatever the bound |
| `DynamicType.Create` | src/DataTypes/DataTypeDynamic.cpp:54-78 | no argument gives the default bound; more than one argument fails with NUMBER_OF_ARGUMENTS_DOESNT_MATCH; a non-`equals` argument or another identifier fails with UNEXPECTED_AST_STRUCTURE; success iff no argument or `max_types` = a UInt64 literal in [1, 255], and then the bound is that literal; every accepted bound lies in [1, 255] |
| `DynamicType.NameRoundTrip` | src/DataTypes/DataTypeDynamic.cpp:37-78 | for every bound in [1, 255], creating a descriptor from the arguments its own name parses to gives back the same descriptor (the default bound through the no-argument branch) |
| `DynamicType.NameInjective` | src/DataTypes/DataTypeDynamic.cpp:37-42 | two valid descriptors with the same name have the same bound |
| `DataTypes.MakeNullableOrLowCardinalityNullableSafe` | src/DataTypes/DataTypeDynamic.cpp:130-132 | the promoted type can hold null iff the type already could, can be inside Nullable, or is LowCardinality; a type with neither capability is unchanged; LowCardinality is kept; removing nullability from the result gives back the input with its nullability removed, so promotion only adds null |
| `DataTypes.DefaultValue` | src/DataTypes/DataTypeDynamic.cpp:167-168 | the default inserted for a type is null iff the type can hold null, and otherwise the type's own default |
| `DataTypes.PromotionIdempotent` | src/DataTypes/DataTypeDynamic.cpp:132 | promoting an already promoted type changes nothing |
| `DynamicSubcolumns.ResizeFill` | src/DataTypes/DataTypeDynamic.cpp:161-162 | the new null map has exactly as many elements as rows, each equal to the fill value |
| `DynamicSubcolumns.InsertManyDefaults` | src/DataTypes/DataTypeDynamic.cpp:167-168 | the column keeps its values and gains exactly `count` defaults of its type |
| `DynamicSubcolumns.GetDynamicSubcolumnData` | src/DataTypes/DataTypeDynamic.cpp:85-174 | an unknown type name throws ILLEGAL_COLUMN or is absent; a failing or absent nested subcolumn is passed on; otherwise the serialization is wrapped with the canonical name and the null-map flag, the type is UInt8 for `null` and otherwise promoted iff the subcolumn type can be inside Nullable or is LowCardinality (independently of the column); with a column, a type found by exact name gets a creator with its global discriminator, the local one and the promotion flag, and an absent type gets `rowCount` ones (null map) or `rowCount` defaults of the result type |

## Left out

- `createColumn` and `doGetDefaultSerialization`: they build a `ColumnDynamic` and a
  `SerializationDynamic`, storage and codec objects outside this model.
- `registerDataTypeDynamic` and the type factory: the registry is the map `registry`.
- The SQL parser: `create` takes a small argument datatype; `DynamicType.ParseArguments` reads only
  the two spellings `Dynamic` and `Dynamic(max_types=N)`, as a stand-in for the parser in the round trip.
- `DynamicType.Create` requires that a single `equals` argument has two operands, the first an
  identifier: the source reads `children[0]` and `children[1]` and dereferences
  `as<ASTIdentifier>()` without checking, which the parser guarantees.
- `Nested::splitName` is the parameter `splitName`; its bracket-aware splitting is not modelled.
- `getSubcolumnData`, the generic nested resolver, is the parameter `getSubcolumnData`.
- `VariantSubcolumnCreator` and `VariantNullMapSubcolumnCreator`: the present-type column is the
  creator description (local discriminators, global and local discriminator, nullable flag) applied
  to the source column; the row-by-row scatter they perform is not part of this file.
- `SerializationDynamicElement`: a record holding the nested serialization, the type name and the
  null-map flag; no byte format.
- Shared ownership and copy-on-write of columns, and `assert_cast`: columns are values.
- `DynamicSubcolumns.GetDynamicSubcolumnData`: a catalog discriminator without an entry in the
  global-to-local table is excluded by `DynamicColumn.Valid`, an invariant of the variant column.
- The bound is a `size_t` modelled as an unsigned 64-bit value; 32-bit `size_t` is not modelled.
