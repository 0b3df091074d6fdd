/** Concrete uses of the descriptor and of the resolver, checked against their contracts. */
module Scenarios {
  import opened Wrappers
  import opened Errors
  import opened DataTypes
  import opened DynamicType
  import opened DynamicSubcolumns

  function MaxTypes(n: Field): Arguments
  {
    Present([Function("equals", [Identifier("max_types"), Literal(n)])])
  }

  method BoundOmitted()
  {
    var r := Create(Absent);
    assert r == Success(Descriptor(32));
    assert GetName(r.value) == "Dynamic";
    assert Create(Present([])) == r;
  }

  method BoundTen()
  {
    var r := Create(MaxTypes(UInt64Field(10)));
    assert r == Success(Descriptor(10));
    assert GetName(r.value) == "Dynamic(max_types=10)";
  }

  method BoundsRejected()
  {
    assert Create(MaxTypes(UInt64Field(0))).Failure?;
    assert Create(MaxTypes(UInt64Field(256))).Failure?;
    assert Create(MaxTypes(Int64Field(-1))).error.code == UnexpectedAstStructure;
    assert Create(MaxTypes(StringField("8"))).Failure?;
    assert Create(Present([NonFunction(Literal(UInt64Field(8)))])).error.code == UnexpectedAstStructure;
    var two := MaxTypes(UInt64Field(8)).children + MaxTypes(UInt64Field(9)).children;
    assert Create(Present(two)).error.code == NumberOfArgumentsDoesntMatch;
    var other := Present([Function("equals", [Identifier("max_variants"), Literal(UInt64Field(8))])]);
    assert Create(other).error == Exception(UnexpectedAstStructure, UnexpectedIdentifierMessage("max_variants"));
  }

  function SplitAtNull(s: string): (string, string)
  {
    if s == "Int64.null" then ("Int64", "null") else (s, "")
  }

  function NoNested(nestedName: string, base: SubstreamData, throwIfNull: bool): Resolution
  {
    Success(None)
  }

  /** A column that holds only strings, three rows. */
  const STRINGS_ONLY: DynamicColumn := DynamicColumn(map["String" := 0], [0], [0, 0, 0])
  const INT64: DataType := Plain("Int64", true)
  const REGISTRY: map<string, DataType> := map["Int64" := INT64, "String" := Plain("String", true)]

  method AbsentTypeIsFilled()
  {
    var r := GetDynamicSubcolumnData("Int64.null", SplitAtNull, REGISTRY, Some(STRINGS_ONLY), NoNested, true);
    assert r.Success? && r.value.Some?;
    assert r.value.value.dataType == UINT8;
    assert r.value.value.column.value.data == [1, 1, 1];

    r := GetDynamicSubcolumnData("Int64", SplitAtNull, REGISTRY, Some(STRINGS_ONLY), NoNested, true);
    assert r.value.value.dataType == Nullable(INT64);
    assert r.value.value.column.value.values == [NullValue, NullValue, NullValue];
  }

  method PresentTypeUsesCreator()
  {
    var r := GetDynamicSubcolumnData("String", SplitAtNull, REGISTRY, Some(STRINGS_ONLY), NoNested, false);
    assert r.value.value.column == Some(Created(VariantCreator([0, 0, 0], 0, 0, true), Some(VariantSlot(0))));
    assert r.value.value.serialization == DynamicElement(TypeDefault(Plain("String", true)), "String", false);
  }

  method UnknownTypeName()
  {
    var r := GetDynamicSubcolumnData("Unknown(Type)", SplitAtNull, REGISTRY, None, NoNested, false);
    assert r == Success(None);
    r := GetDynamicSubcolumnData("Unknown(Type)", SplitAtNull, REGISTRY, None, NoNested, true);
    assert r.error.code == IllegalColumn;
  }
}
