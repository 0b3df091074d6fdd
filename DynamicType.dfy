/**
 * The descriptor of the `Dynamic` column type: its bound on the number of distinct concrete
 * types a column may hold, its display name, its default value, and the validation of the
 * argument list that `Dynamic(...)` is created from.
 */
module DynamicType {
  import opened Wrappers
  import opened Errors

  type UInt64 = x: int | 0 <= x < 0x1_0000_0000_0000_0000
  type Int64 = x: int | -0x8000_0000_0000_0000 <= x < 0x8000_0000_0000_0000

  /** The bound used when `Dynamic` is written without an argument. */
  const DEFAULT_MAX_DYNAMIC_TYPES: nat := 32
  /** The most variants a variant column can hold. */
  const MAX_NESTED_COLUMNS: nat := 255

  /** A literal's value as the SQL parser types it. */
  datatype Field =
    | Null
    | UInt64Field(u: UInt64)
    | Int64Field(i: Int64)
    | WideIntegerField(w: int)
    | StringField(s: string)

  /** An operand of a function in the argument list. */
  datatype Operand =
    | Identifier(name: string)
    | Literal(value: Field)
    | Expression

  /** One child of the argument list: a function call, or any other node. */
  datatype Argument =
    | Function(name: string, operands: seq<Operand>)
    | NonFunction(node: Operand)

  /** The argument list of `Dynamic(...)`; `Absent` is the missing list of a bare `Dynamic`. */
  datatype Arguments = Absent | Present(children: seq<Argument>)

  /** The descriptor; the bound is a `size_t` that the constructor takes as given. */
  datatype Descriptor = Descriptor(maxDynamicTypes: UInt64)

  // Decimal spelling of the bound, as `toString` prints an unsigned integer.

  predicate IsDigit(c: char)
  {
    '0' <= c <= '9'
  }

  predicate AllDigits(s: string)
  {
    forall i | 0 <= i < |s| :: IsDigit(s[i])
  }

  function DigitChar(d: nat): (c: char)
    requires d < 10
    ensures IsDigit(c) && c as int - '0' as int == d
  {
    ('0' as int + d) as char
  }

  /** The number a string of decimal digits denotes. */
  function DecimalValue(s: string): nat
    requires AllDigits(s)
  {
    if |s| == 0 then 0 else DecimalValue(s[..|s| - 1]) * 10 + (s[|s| - 1] as int - '0' as int)
  }

  /** The decimal spelling of `n`: digits only, no leading zero, denoting `n`. */
  function ToDecimal(n: nat): (s: string)
    ensures |s| > 0 && AllDigits(s)
    ensures |s| > 1 ==> s[0] != '0'
    ensures DecimalValue(s) == n
  {
    if n < 10 then [DigitChar(n)]
    else
      var prefix := ToDecimal(n / 10);
      var s := prefix + [DigitChar(n % 10)];
      assert s[..|s| - 1] == prefix;
      s
  }

  const NAME: string := "Dynamic"
  const NAME_WITH_BOUND_PREFIX: string := "Dynamic(max_types="

  /** The display name (`doGetName`). */
  function GetName(d: Descriptor): (r: string)
    ensures |r| >= |NAME| && r[..|NAME|] == NAME
    ensures r == NAME <==> d.maxDynamicTypes == DEFAULT_MAX_DYNAMIC_TYPES
    ensures d.maxDynamicTypes != DEFAULT_MAX_DYNAMIC_TYPES ==>
      r == NAME_WITH_BOUND_PREFIX + ToDecimal(d.maxDynamicTypes) + ")"
  {
    if d.maxDynamicTypes == DEFAULT_MAX_DYNAMIC_TYPES then NAME
    else NAME_WITH_BOUND_PREFIX + ToDecimal(d.maxDynamicTypes) + ")"
  }

  /** The default value of a Dynamic column (`getDefault`). */
  function GetDefault(d: Descriptor): (r: Field)
    ensures r.Null?
  {
    Null
  }

  const TOO_MANY_ARGUMENTS_MESSAGE: string :=
    "Dynamic data type can have only one optional argument - the maximum number of dynamic types in a form 'Dynamic(max_types=N)"
  const ARGUMENT_FORM_MESSAGE: string :=
    "Dynamic data type argument should be in a form 'max_types=N'"
  const BOUND_RANGE_MESSAGE: string :=
    "'max_types' argument for Dynamic type should be a positive integer between 1 and 255"

  function UnexpectedIdentifierMessage(name: string): string
  {
    "Unexpected identifier: " + name + ". Dynamic data type argument should be in a form 'max_types=N'"
  }

  predicate HasNoArgument(arguments: Arguments)
  {
    arguments.Absent? || |arguments.children| == 0
  }

  /** A call of `equals` as the parser builds it: two operands, the first an identifier. */
  predicate IsEqualsCall(a: Argument)
  {
    a.Function? && a.name == "equals"
  }

  /**
   * What `create` relies on without checking: a single `equals` argument has at least two
   * operands and the first is an identifier.
   */
  predicate WellFormed(arguments: Arguments)
  {
    arguments.Present? && |arguments.children| == 1 && IsEqualsCall(arguments.children[0]) ==>
      |arguments.children[0].operands| >= 2 && arguments.children[0].operands[0].Identifier?
  }

  /** The single `max_types = N` argument with `N` a UInt64 literal in [1, MAX_NESTED_COLUMNS]. */
  predicate IsValidBoundArgument(arguments: Arguments)
  {
    && arguments.Present? && |arguments.children| == 1
    && IsEqualsCall(arguments.children[0])
    && |arguments.children[0].operands| >= 2
    && arguments.children[0].operands[0] == Identifier("max_types")
    && arguments.children[0].operands[1].Literal?
    && arguments.children[0].operands[1].value.UInt64Field?
    && 1 <= arguments.children[0].operands[1].value.u <= MAX_NESTED_COLUMNS
  }

  /** Validation of the argument list and construction of the descriptor (`create`). */
  function Create(arguments: Arguments): (r: Result<Descriptor, Exception>)
    requires WellFormed(arguments)
    ensures HasNoArgument(arguments) ==> r == Success(Descriptor(DEFAULT_MAX_DYNAMIC_TYPES))
    ensures r.Success? <==> HasNoArgument(arguments) || IsValidBoundArgument(arguments)
    ensures IsValidBoundArgument(arguments) ==>
      r == Success(Descriptor(arguments.children[0].operands[1].value.u))
    ensures r.Success? ==> 1 <= r.value.maxDynamicTypes <= MAX_NESTED_COLUMNS
    ensures arguments.Present? && |arguments.children| > 1 ==>
      r == Failure(Exception(NumberOfArgumentsDoesntMatch, TOO_MANY_ARGUMENTS_MESSAGE))
    ensures arguments.Present? && |arguments.children| == 1 && !IsEqualsCall(arguments.children[0]) ==>
      r == Failure(Exception(UnexpectedAstStructure, ARGUMENT_FORM_MESSAGE))
    ensures (arguments.Present? && |arguments.children| == 1 && IsEqualsCall(arguments.children[0])
             && arguments.children[0].operands[0].name != "max_types") ==>
      r == Failure(Exception(UnexpectedAstStructure,
                             UnexpectedIdentifierMessage(arguments.children[0].operands[0].name)))
    ensures r.Failure? && |arguments.children| == 1 ==> r.error.code == UnexpectedAstStructure
  {
    if HasNoArgument(arguments) then Success(Descriptor(DEFAULT_MAX_DYNAMIC_TYPES))
    else if |arguments.children| > 1 then
      Failure(Exception(NumberOfArgumentsDoesntMatch, TOO_MANY_ARGUMENTS_MESSAGE))
    else
      var argument := arguments.children[0];
      if !argument.Function? || argument.name != "equals" then
        Failure(Exception(UnexpectedAstStructure, ARGUMENT_FORM_MESSAGE))
      else
        var identifierName := argument.operands[0].name;
        if identifierName != "max_types" then
          Failure(Exception(UnexpectedAstStructure, UnexpectedIdentifierMessage(identifierName)))
        else
          var literal := argument.operands[1];
          if !literal.Literal? || !literal.value.UInt64Field? || literal.value.u == 0
             || literal.value.u > MAX_NESTED_COLUMNS then
            Failure(Exception(UnexpectedAstStructure, BOUND_RANGE_MESSAGE))
          else
            Success(Descriptor(literal.value.u))
  }

  /**
   * The argument list the SQL parser produces for the two spellings of the type name,
   * `Dynamic` and `Dynamic(max_types=N)` with `N` decimal digits; `None` for any other text.
   * An integer literal that does not fit UInt64 is parsed as a wider integer.
   */
  function ParseArguments(name: string): (r: Option<Arguments>)
    ensures r.Some? ==> WellFormed(r.value)
  {
    var p := |NAME_WITH_BOUND_PREFIX|;
    if name == NAME then Some(Absent)
    else if |name| > p + 1 && name[..p] == NAME_WITH_BOUND_PREFIX && name[|name| - 1] == ')'
            && AllDigits(name[p..|name| - 1]) then
      var n := DecimalValue(name[p..|name| - 1]);
      var value := if n < 0x1_0000_0000_0000_0000 then UInt64Field(n) else WideIntegerField(n);
      Some(Present([Function("equals", [Identifier("max_types"), Literal(value)])]))
    else None
  }

  /** Every valid descriptor comes back from its own name, the default one through "no argument". */
  lemma NameRoundTrip(d: Descriptor)
    requires 1 <= d.maxDynamicTypes <= MAX_NESTED_COLUMNS
    ensures ParseArguments(GetName(d)).Some?
    ensures Create(ParseArguments(GetName(d)).value) == Success(d)
  {
    if d.maxDynamicTypes != DEFAULT_MAX_DYNAMIC_TYPES {
      var digits := ToDecimal(d.maxDynamicTypes);
      var name := GetName(d);
      var p := |NAME_WITH_BOUND_PREFIX|;
      assert name == NAME_WITH_BOUND_PREFIX + digits + ")";
      assert name[..p] == NAME_WITH_BOUND_PREFIX;
      assert name[p..|name| - 1] == digits;
    }
  }

  /** Distinct valid bounds have distinct names. */
  lemma NameInjective(d1: Descriptor, d2: Descriptor)
    requires 1 <= d1.maxDynamicTypes <= MAX_NESTED_COLUMNS
    requires 1 <= d2.maxDynamicTypes <= MAX_NESTED_COLUMNS
    requires GetName(d1) == GetName(d2)
    ensures d1 == d2
  {
    NameRoundTrip(d1);
    NameRoundTrip(d2);
  }
}
