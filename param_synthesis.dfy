/** How the helper invents an argument for a setter: the read-only table of primitive and common
    value types, and createParam's decision in its fixed priority order. */
module ParamSynthesis {
  import opened JavaTypes

  /** The static table of canonical defaults, keyed by Class.getName(): the eight primitives,
      their eight box classes, String, BigInteger and BigDecimal. */
  const PrimitiveValues: map<string, Value> := map[
    "boolean" := Bool(false),
    "byte" := Byte(0),
    "char" := Char('\0'),
    "short" := Short(0),
    "int" := Int(0),
    "long" := Long(0),
    "float" := FloatZero,
    "double" := DoubleZero,
    "java.lang.Boolean" := Bool(false),
    "java.lang.Byte" := Byte(0),
    "java.lang.Character" := Char('\0'),
    "java.lang.Short" := Short(0),
    "java.lang.Integer" := Int(0),
    "java.lang.Long" := Long(0),
    "java.lang.Float" := FloatZero,
    "java.lang.Double" := DoubleZero,
    "java.lang.String" := Str(""),
    "java.math.BigInteger" := Big(BigInteger, 1),
    "java.math.BigDecimal" := Big(BigDecimal, 1)
  ]

  /** createParam: an enum yields its first constant (an enum without constants fails with the
      RuntimeException that wraps the index error), then a table entry yields its default, then an
      array type yields an empty array of its component type, and anything else a mock.
      Whatever it yields can be passed to a setter declaring `t`. */
  function CreateParam(t: JType): (r: Result<Value, JavaException>)
    ensures r.Failure? <==> t.EnumType? && |t.constants| == 0
    ensures r.Failure? ==> r.error == EmptyEnumFailure
    ensures r.Success? ==> HasType(r.value, t)
  {
    if t.EnumType? then
      if |t.constants| > 0 then Success(EnumConst(t.name, t.constants[0]))
      else Failure(EmptyEnumFailure)
    else if ClassName(t) in PrimitiveValues then
      TableBranchConforms(t);
      Success(PrimitiveValues[ClassName(t)])
    else if t.ArrayType? then
      Success(EmptyArray(t.component))
    else
      Success(Mock(t))
  }

  /** Every table entry is a canonical default and a legal argument for the type it is keyed by. */
  lemma TableEntriesConform()
    ensures forall n :: n in PrimitiveValues ==>
      IsCanonicalDefault(PrimitiveValues[n]) && HasType(PrimitiveValues[n], ClassType(n))
  {
    forall n | n in PrimitiveValues
      ensures IsCanonicalDefault(PrimitiveValues[n]) && HasType(PrimitiveValues[n], ClassType(n))
    {
      EntryConforms(n);
    }
  }

  lemma EntryConforms(n: string)
    requires n in PrimitiveValues
    ensures IsCanonicalDefault(PrimitiveValues[n]) && HasType(PrimitiveValues[n], ClassType(n))
  {
  }

  /** Only a class type can take a table default, and the default fits it. */
  lemma TableBranchConforms(t: JType)
    requires !t.EnumType? && ClassName(t) in PrimitiveValues
    ensures t.ClassType?
    ensures IsCanonicalDefault(PrimitiveValues[ClassName(t)])
    ensures HasType(PrimitiveValues[ClassName(t)], t)
  {
    if t.ArrayType? {
      ArrayNameMissesTable(t.component);
      assert false;
    }
    TableEntriesConform();
  }

  /** Every primitive type has a table default. */
  lemma PrimitivesCovered()
    ensures PRIMITIVE_NAMES <= PrimitiveValues.Keys
  {
  }

  /** An array's Class.getName() starts with '[', which no key of the table does,
      so an array type never takes a table default. */
  lemma ArrayNameMissesTable(c: JType)
    ensures ClassName(ArrayType(c)) !in PrimitiveValues
  {
    var name := ClassName(ArrayType(c));
    assert name[0] == '[';
    forall k | k in PrimitiveValues
      ensures k != name
    {
      assert |k| > 0 && k[0] != '[';
    }
  }

  /** The four branches of createParam in their priority order. */
  lemma CreateParamPriority(t: JType)
    ensures t.EnumType? && |t.constants| > 0 ==>
      CreateParam(t) == Success(EnumConst(t.name, t.constants[0]))
    ensures !t.EnumType? && ClassName(t) in PrimitiveValues ==>
      CreateParam(t) == Success(PrimitiveValues[ClassName(t)]) && IsCanonicalDefault(CreateParam(t).value)
    ensures t.ArrayType? ==> CreateParam(t) == Success(EmptyArray(t.component))
    ensures t.ClassType? && t.name !in PrimitiveValues ==> CreateParam(t) == Success(Mock(t))
  {
    TableEntriesConform();
    if t.ArrayType? {
      ArrayNameMissesTable(t.component);
    }
  }

  /** A primitive and its box class get the same default, as the table pairs them. */
  lemma PrimitiveAndBoxAgree(p: string)
    requires p in PRIMITIVE_NAMES
    ensures CreateParam(ClassType(p)) == CreateParam(ClassType(BoxName(p)))
  {
  }

  /** The box class of each primitive type. */
  function BoxName(p: string): string
    requires p in PRIMITIVE_NAMES
  {
    if p == "boolean" then "java.lang.Boolean"
    else if p == "byte" then "java.lang.Byte"
    else if p == "char" then "java.lang.Character"
    else if p == "short" then "java.lang.Short"
    else if p == "int" then "java.lang.Integer"
    else if p == "long" then "java.lang.Long"
    else if p == "float" then "java.lang.Float"
    else "java.lang.Double"
  }
}
