/**
 * Resolution of a virtual subcolumn of a Dynamic column (`getDynamicSubcolumnData`): the
 * subcolumn named by a type (`Int64`), the null map of a type (`Int64.null`), or a nested
 * subcolumn of a type (`Array(String).size0`), resolved against the type registry and, when a
 * Dynamic column is supplied, against that column's catalog of variants.
 */
module DynamicSubcolumns {
  import opened Wrappers
  import opened Errors
  import opened DataTypes

  type UInt8 = x: int | 0 <= x < 0x100
  type Discriminator = UInt8

  /**
   * The parts of a Dynamic column the resolver reads: the catalog from canonical type name to
   * global discriminator, the global-to-local discriminator table, and one local discriminator
   * per row.
   */
  datatype DynamicColumn = DynamicColumn(
    variantNameToDiscriminator: map<string, Discriminator>,
    globalToLocal: seq<Discriminator>,
    localDiscriminators: seq<Discriminator>)
  {
    /** Every global discriminator in the catalog has a local one. */
    predicate Valid()
    {
      forall name | name in variantNameToDiscriminator :: variantNameToDiscriminator[name] < |globalToLocal|
    }

    function Size(): nat
    {
      |localDiscriminators|
    }

    function LocalDiscriminatorByGlobal(global: Discriminator): Discriminator
      requires global < |globalToLocal|
    {
      globalToLocal[global]
    }
  }

  /** Serializations, as routing records: their byte formats are not modelled. */
  datatype Serialization =
    | TypeDefault(of: DataType)
    | DynamicElement(nested: Serialization, typeName: string, isNullMap: bool)

  /** The creators that scatter one variant over all rows of the Dynamic column. */
  datatype Creator =
    | NullMapCreator(localDiscriminators: seq<Discriminator>,
                     globalDiscriminator: Discriminator, localDiscriminator: Discriminator)
    | VariantCreator(localDiscriminators: seq<Discriminator>,
                     globalDiscriminator: Discriminator, localDiscriminator: Discriminator,
                     makeNullable: bool)

  datatype Column =
    | VariantSlot(globalDiscriminator: Discriminator)      // the variant's own column, by global discriminator
    | Created(creator: Creator, source: Option<Column>)    // what a creator makes of a source column
    | UInt8Column(data: seq<UInt8>)
    | ValuesColumn(dataType: DataType, values: seq<Value>)

  datatype SubstreamData = SubstreamData(serialization: Serialization, dataType: DataType, column: Option<Column>)

  /** Absence is `Success(None)`; a thrown exception is `Failure`. */
  type Resolution = Result<Option<SubstreamData>, Exception>

  function UnknownSubcolumnMessage(typeName: string): string
  {
    "Dynamic type doesn't have subcolumn '" + typeName + "'"
  }

  /** The global discriminator of `t` in the supplied column: exact match of its canonical name. */
  function GlobalDiscriminator(t: DataType, data: Option<DynamicColumn>): Option<Discriminator>
  {
    if data.Some? && Name(t) in data.value.variantNameToDiscriminator
    then Some(data.value.variantNameToDiscriminator[Name(t)])
    else None
  }

  /** The record before the remainder of the path is handled. */
  function ProvisionalData(t: DataType, data: Option<DynamicColumn>): SubstreamData
  {
    SubstreamData(TypeDefault(t), t,
                  match GlobalDiscriminator(t, data)
                  case Some(global) => Some(VariantSlot(global))
                  case None => None)
  }

  /** The record the remainder of the path leads to: the provisional one for a leaf, else the nested resolver's. */
  function BaseData(t: DataType, nestedName: string, data: Option<DynamicColumn>,
                    getSubcolumnData: (string, SubstreamData, bool) -> Resolution,
                    throwIfNull: bool): Resolution
  {
    if nestedName == "null" || nestedName == "" then Success(Some(ProvisionalData(t, data)))
    else getSubcolumnData(nestedName, ProvisionalData(t, data), throwIfNull)
  }

  /** A subcolumn of `t` becomes nullable when `t` can be inside Nullable or is LowCardinality. */
  predicate MakeSubcolumnNullable(t: DataType)
  {
    CanBeInsideNullable(t) || IsLowCardinality(t)
  }

  /** A new UInt8 column data of `size` elements, each `value` (`resize_fill`). */
  method ResizeFill(size: nat, value: UInt8) returns (data: seq<UInt8>)
    ensures |data| == size
    ensures forall i | 0 <= i < size :: data[i] == value
  {
    var a := new UInt8[size];
    var i := 0;
    while i < size
      invariant 0 <= i <= size
      invariant forall k | 0 <= k < i :: a[k] == value
    {
      a[i] := value;
      i := i + 1;
    }
    data := a[..];
  }

  /** `values` followed by `count` defaults of `t` (`insertManyDefaults`). */
  method InsertManyDefaults(values: seq<Value>, t: DataType, count: nat) returns (r: seq<Value>)
    ensures |r| == |values| + count
    ensures r[..|values|] == values
    ensures forall i | |values| <= i < |r| :: r[i] == DefaultValue(t)
  {
    r := values;
    var i := 0;
    while i < count
      invariant 0 <= i <= count
      invariant |r| == |values| + i
      invariant r[..|values|] == values
      invariant forall k | |values| <= k < |r| :: r[k] == DefaultValue(t)
    {
      r := r + [DefaultValue(t)];
      i := i + 1;
    }
  }

  /**
   * Resolves `subcolumnName` (`getDynamicSubcolumnData`). `splitName` splits the path into the
   * type name and the remainder, `registry` is the type factory's lookup, `data` the Dynamic
   * column if one is supplied, and `getSubcolumnData` the generic nested resolver.
   */
  method GetDynamicSubcolumnData(
    subcolumnName: string,
    splitName: string -> (string, string),
    registry: map<string, DataType>,
    data: Option<DynamicColumn>,
    getSubcolumnData: (string, SubstreamData, bool) -> Resolution,
    throwIfNull: bool)
    returns (r: Resolution)
    requires data.Some? ==> data.value.Valid()
    // An unknown type name throws or is absent, and nothing else is computed.
    ensures var typeName := splitName(subcolumnName).0;
      typeName !in registry ==>
        r == if throwIfNull then Failure(Exception(IllegalColumn, UnknownSubcolumnMessage(typeName)))
             else Success(None)
    // A failing or absent nested subcolumn is passed on unchanged.
    ensures var (typeName, nestedName) := splitName(subcolumnName);
      typeName in registry ==>
        var base := BaseData(registry[typeName], nestedName, data, getSubcolumnData, throwIfNull);
        (base.Failure? || base.value.None? ==> r == base) &&
        (base.Success? && base.value.Some? ==> r.Success? && r.value.Some?)
    // The serialization is the base one wrapped with the canonical name and the null-map flag.
    ensures var (typeName, nestedName) := splitName(subcolumnName);
      r.Success? && r.value.Some? ==>
        typeName in registry &&
        var t := registry[typeName];
        var base := BaseData(t, nestedName, data, getSubcolumnData, throwIfNull);
        base.Success? && base.value.Some? &&
        r.value.value.serialization == DynamicElement(base.value.value.serialization, Name(t), nestedName == "null")
    // The type: UInt8 for a null map, otherwise the base type, promoted iff the flags of `t` allow it.
    ensures var (typeName, nestedName) := splitName(subcolumnName);
      r.Success? && r.value.Some? ==>
        var t := registry[typeName];
        var base := BaseData(t, nestedName, data, getSubcolumnData, throwIfNull).value.value;
        r.value.value.dataType ==
          if nestedName == "null" then UINT8
          else if MakeSubcolumnNullable(t) then MakeNullableOrLowCardinalityNullableSafe(base.dataType)
          else base.dataType
    // Without a column, the column is the base one.
    ensures var (typeName, nestedName) := splitName(subcolumnName);
      r.Success? && r.value.Some? && data.None? ==>
        r.value.value.column ==
          BaseData(registry[typeName], nestedName, data, getSubcolumnData, throwIfNull).value.value.column
    // A type present in the column: the creator gets the global and the local discriminator.
    ensures var (typeName, nestedName) := splitName(subcolumnName);
      r.Success? && r.value.Some? && GlobalDiscriminator(registry[typeName], data).Some? ==>
        var t := registry[typeName];
        var global := GlobalDiscriminator(t, data).value;
        var column := data.value;
        var local := column.globalToLocal[global];
        var base := BaseData(t, nestedName, data, getSubcolumnData, throwIfNull).value.value;
        r.value.value.column == Some(Created(
          if nestedName == "null" then NullMapCreator(column.localDiscriminators, global, local)
          else VariantCreator(column.localDiscriminators, global, local, MakeSubcolumnNullable(t)),
          base.column))
    // A type absent from the column: a null map of ones, or defaults of the result type, one per row.
    ensures var (typeName, nestedName) := splitName(subcolumnName);
      r.Success? && r.value.Some? && data.Some? && GlobalDiscriminator(registry[typeName], data).None? ==>
        var res := r.value.value;
        res.column.Some? &&
        if nestedName == "null" then
          res.column.value.UInt8Column? && |res.column.value.data| == data.value.Size() &&
          forall i | 0 <= i < |res.column.value.data| :: res.column.value.data[i] == 1
        else
          res.column.value.ValuesColumn? && res.column.value.dataType == res.dataType &&
          |res.column.value.values| == data.value.Size() &&
          forall i | 0 <= i < |res.column.value.values| :: res.column.value.values[i] == DefaultValue(res.dataType)
  {
    var (subcolumnTypeName, subcolumnNestedName) := splitName(subcolumnName);
    if subcolumnTypeName !in registry {
      if throwIfNull {
        return Failure(Exception(IllegalColumn, UnknownSubcolumnMessage(subcolumnTypeName)));
      }
      return Success(None);
    }
    var subcolumnType := registry[subcolumnTypeName];

    var res := SubstreamData(TypeDefault(subcolumnType), subcolumnType, None);
    var discriminator: Option<Discriminator> := None;
    if data.Some? {
      var catalog := data.value.variantNameToDiscriminator;
      if Name(subcolumnType) in catalog {
        discriminator := Some(catalog[Name(subcolumnType)]);
        res := res.(column := Some(VariantSlot(discriminator.value)));
      }
    }

    var isNullMapSubcolumn := subcolumnNestedName == "null";
    if isNullMapSubcolumn {
      res := res.(dataType := UINT8);
    } else if subcolumnNestedName != "" {
      var nested := getSubcolumnData(subcolumnNestedName, res, throwIfNull);
      if nested.Failure? {
        return Failure(nested.error);
      }
      if nested.value.None? {
        return Success(None);
      }
      res := nested.value.value;
    }

    res := res.(serialization := DynamicElement(res.serialization, Name(subcolumnType), isNullMapSubcolumn));
    var makeSubcolumnNullable := MakeSubcolumnNullable(subcolumnType);
    if !isNullMapSubcolumn && makeSubcolumnNullable {
      res := res.(dataType := MakeNullableOrLowCardinalityNullableSafe(res.dataType));
    }

    if data.Some? {
      var column := data.value;
      if discriminator.Some? {
        var global := discriminator.value;
        var creator;
        if isNullMapSubcolumn {
          creator := NullMapCreator(column.localDiscriminators, global, column.LocalDiscriminatorByGlobal(global));
        } else {
          creator := VariantCreator(column.localDiscriminators, global, column.LocalDiscriminatorByGlobal(global),
                                    makeSubcolumnNullable);
        }
        res := res.(column := Some(Created(creator, res.column)));
      } else if isNullMapSubcolumn {
        var nullMap := ResizeFill(column.Size(), 1);
        res := res.(column := Some(UInt8Column(nullMap)));
      } else {
        var values := InsertManyDefaults([], res.dataType, column.Size());
        res := res.(column := Some(ValuesColumn(res.dataType, values)));
      }
    }

    return Success(Some(res));
  }
}
