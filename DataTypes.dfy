/**
 * The data types a Dynamic subcolumn can take, described by the two capability flags the
 * resolver reads (`canBeInsideNullable`, `lowCardinality`) and by their canonical names.
 * A registered type is `Plain`; the wrappers `Nullable` and `LowCardinality` are spelled out
 * because nullability promotion builds them.
 */
module DataTypes {

  datatype DataType =
    | Plain(name: string, canBeInsideNullable: bool)
    | Nullable(nested: DataType)
    | LowCardinality(dictionary: DataType)

  /** The 8-bit unsigned type of a null-map subcolumn. */
  const UINT8: DataType := Plain("UInt8", true)

  /** The canonical name, as `getName` prints it. */
  function Name(t: DataType): string
  {
    match t
    case Plain(name, _) => name
    case Nullable(nested) => "Nullable(" + Name(nested) + ")"
    case LowCardinality(dictionary) => "LowCardinality(" + Name(dictionary) + ")"
  }

  predicate CanBeInsideNullable(t: DataType)
  {
    t.Plain? && t.canBeInsideNullable
  }

  predicate IsLowCardinality(t: DataType)
  {
    t.LowCardinality?
  }

  /** Types whose values can already be a logical null. */
  predicate IsNullableOrLowCardinalityNullable(t: DataType)
  {
    t.Nullable? || (t.LowCardinality? && t.dictionary.Nullable?)
  }

  /** `t` with its nullability removed: the inner type of `Nullable`, the dictionary of `LowCardinality` unwrapped. */
  function RemoveNullable(t: DataType): DataType
  {
    match t
    case Nullable(nested) => nested
    case LowCardinality(Nullable(dictionary)) => LowCardinality(dictionary)
    case _ => t
  }

  /**
   * The type constructor behind `makeNullableOrLowCardinalityNullableSafe`: a type that can
   * hold null is kept, a dictionary type `LowCardinality(T)` becomes `LowCardinality(Nullable(T))`,
   * a type that can be inside Nullable becomes `Nullable(T)`, and any other type is kept.
   */
  function MakeNullableOrLowCardinalityNullableSafe(t: DataType): (r: DataType)
    ensures IsNullableOrLowCardinalityNullable(r) <==>
      IsNullableOrLowCardinalityNullable(t) || CanBeInsideNullable(t) || IsLowCardinality(t)
    ensures !CanBeInsideNullable(t) && !IsLowCardinality(t) ==> r == t
    ensures IsLowCardinality(t) <==> IsLowCardinality(r)
    ensures RemoveNullable(r) == RemoveNullable(t)
  {
    if IsNullableOrLowCardinalityNullable(t) then t
    else if IsLowCardinality(t) then LowCardinality(Nullable(t.dictionary))
    else if CanBeInsideNullable(t) then Nullable(t)
    else t
  }

  /** Applying the promotion twice is the same as applying it once. */
  lemma PromotionIdempotent(t: DataType)
    ensures MakeNullableOrLowCardinalityNullableSafe(MakeNullableOrLowCardinalityNullableSafe(t))
         == MakeNullableOrLowCardinalityNullableSafe(t)
  {
  }

  /** A value of a column: only default values are ever produced here. */
  datatype Value = NullValue | DefaultOf(dataType: DataType)

  /** What `insertDefault` adds to a column of type `t`: null for a nullable type. */
  function DefaultValue(t: DataType): (v: Value)
    ensures v.NullValue? <==> IsNullableOrLowCardinalityNullable(t)
    ensures !v.NullValue? ==> v == DefaultOf(t)
  {
    if IsNullableOrLowCardinalityNullable(t) then NullValue else DefaultOf(t)
  }
}
