/** The fixture bean of the test suite, as introspection reports it (properties in alphabetical
    order, "class" read-only), and the suite's scenarios stated over the model. */
module TestBeanExample {
  import opened JavaTypes
  import opened ParamSynthesis
  import opened BeanExecution
  import opened Helper

  const TEST_BEAN: string := "de.xinaris.junit.TestBean"

  function Plain(name: string, t: JType): PropertyDescriptor
  {
    PropertyDescriptor(name, Some(WriteMethod(t, Returns)), Some(ReadMethod(Returns)))
  }

  const TestBeanProperties: seq<PropertyDescriptor> := [
    Plain("bigInteger", ClassType("java.math.BigInteger")),
    Plain("booleanProp", ClassType("boolean")),
    PropertyDescriptor("class", None, Some(ReadMethod(Returns))),
    Plain("color", EnumType("de.xinaris.junit.TestBean$TestEnum", ["Red"])),
    PropertyDescriptor("exceptionWhenSet",
      Some(WriteMethod(ClassType("float"), Throws(IllegalArgument("setException")))), Some(ReadMethod(Returns))),
    PropertyDescriptor("exceptionWithGet",
      Some(WriteMethod(ClassType("float"), Returns)), Some(ReadMethod(Throws(IllegalArgument("getException"))))),
    Plain("intArray", ArrayType(ClassType("int"))),
    Plain("intProp", ClassType("int")),
    Plain("map", ClassType("java.util.Map")),
    Plain("nothing", EnumType("de.xinaris.junit.TestBean$NoEnum", [])),
    Plain("string", ClassType("java.lang.String"))
  ]

  const TestBeanInfo: BeanInfo := BeanInfo(TEST_BEAN, TestBeanProperties)

  function RunOn(policy: Policy): Run
  {
    Execute(TestBeanProperties, policy, Instance(TEST_BEAN), TEST_BEAN)
  }

  /** Exclude mode with the three troublesome properties excluded (and "class" seeded): every
      remaining property is set and read, and the run returns normally. */
  lemma DefaultModeRunsCleanly()
    ensures RunOn(Policy(true, {"class", "exceptionWithGet", "exceptionWhenSet", "nothing"})).thrown.None?
  {
    var policy := Policy(true, {"class", "exceptionWithGet", "exceptionWhenSet", "nothing"});
    forall k | 0 <= k < |TestBeanProperties| && Selects(policy, TestBeanProperties[k].name)
      ensures Exercise(TestBeanProperties[k], Instance(TEST_BEAN), TEST_BEAN).thrown.None?
    {
      assert k in {0, 1, 3, 6, 7, 8, 10};
      var pd := TestBeanProperties[k];
      PlainCompletes(pd.name, pd.writeMethod.value.paramType);
    }
    CompletesIff(TestBeanProperties, policy, Instance(TEST_BEAN), TEST_BEAN);
  }

  /** A property whose accessors both return normally completes, unless its argument cannot be
      synthesized. */
  lemma PlainCompletes(name: string, t: JType)
    requires !t.EnumType? || t.constants != []
    ensures Exercise(Plain(name, t), Instance(TEST_BEAN), TEST_BEAN).thrown.None?
  {
  }

  /** Include mode with only "string": "" is set, then read, and nothing else is called. */
  lemma IncludeStringOnly()
    ensures RunOn(Policy(false, {"string"})) == Run([SetCall("string", Str("")), GetCall("string")], None)
  {
    SingleSelected(TestBeanProperties, 10, Policy(false, {"string"}), Instance(TEST_BEAN), TEST_BEAN);
  }

  /** The getter's own exception surfaces with its message unchanged. */
  lemma GetterExceptionSurfaces()
    ensures RunOn(Policy(false, {"exceptionWithGet"})).thrown == Some(IllegalArgument("getException"))
  {
    SingleSelected(TestBeanProperties, 5, Policy(false, {"exceptionWithGet"}), Instance(TEST_BEAN), TEST_BEAN);
  }

  /** The setter's own exception surfaces unchanged, and the getter is not called. */
  lemma SetterExceptionSurfaces()
    ensures RunOn(Policy(false, {"exceptionWhenSet"})) ==
      Run([SetCall("exceptionWhenSet", FloatZero)], Some(IllegalArgument("setException")))
  {
    SingleSelected(TestBeanProperties, 4, Policy(false, {"exceptionWhenSet"}), Instance(TEST_BEAN), TEST_BEAN);
  }

  /** An enum without constants: the wrapped index error, and its setter is never called. */
  lemma EmptyEnumSurfaces()
    ensures RunOn(Policy(false, {"nothing"})) == Run([], Some(EmptyEnumFailure))
  {
    SingleSelected(TestBeanProperties, 9, Policy(false, {"nothing"}), Instance(TEST_BEAN), TEST_BEAN);
  }

  /** "class" has no write method: naming it in Include mode makes the run fail with
      NullPointerException before anything is called. */
  lemma IncludingClassFails()
    ensures RunOn(Policy(false, {"class"})) == Run([], Some(NullPointer))
  {
    SingleSelected(TestBeanProperties, 2, Policy(false, {"class"}), Instance(TEST_BEAN), TEST_BEAN);
  }

  /** The suite's default-mode scenario through the helper object: construct in Exclude mode,
      exclude the three troublesome properties, see includeProperty refused, execute cleanly. */
  method DefaultModeScenario() returns (refused: Option<JavaException>, thrown: Option<JavaException>)
    ensures refused == Some(IllegalArgument(WRONG_MODE_MESSAGE))
    ensures thrown.None?
  {
    var bean := new Bean(TestBeanInfo);
    var created := BeanMethodTestHelper.CreateDefault(bean);
    var helper := created.value;
    var e1 := helper.ExcludeProperty("exceptionWithGet");
    var e2 := helper.ExcludeProperty("exceptionWhenSet");
    var e3 := helper.ExcludeProperty("nothing");
    refused := helper.IncludeProperty("whatever");
    assert helper.propertyMap == {"class", "exceptionWithGet", "exceptionWhenSet", "nothing"};
    DefaultModeRunsCleanly();
    thrown := helper.ExecuteBeanMethods();
  }

  /** The suite's null-object scenario: no helper, the fixed message. */
  method NullObjectScenario() returns (r: Result<BeanMethodTestHelper, JavaException>)
    ensures r == Failure(IllegalArgument(NULL_OUT_MESSAGE))
  {
    r := BeanMethodTestHelper.CreateDefault(null);
  }

  /** The suite's getter/setter scenario on the helper's own OUT property: the object bound at
      construction is returned, and after setOUT the replacement is, with the mode unchanged. */
  method ReplaceObjectScenario() returns (bean: Bean, first: Bean?, other: Bean, second: Bean?, exclusion: bool)
    ensures first == bean && second == other && bean != other && exclusion
  {
    bean := new Bean(TestBeanInfo);
    other := new Bean(TestBeanInfo);
    var created := BeanMethodTestHelper.CreateDefault(bean);
    var helper := created.value;
    first := helper.GetOUT();
    helper.SetOUT(other);
    second := helper.GetOUT();
    exclusion := helper.IsExclusionMode();
  }
}
