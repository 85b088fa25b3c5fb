/** The slice of the Java runtime that the bean-method test helper sees:
    exceptions, the types a setter may declare and the values it can be given. */
module JavaTypes {

  datatype Option<+T> = None | Some(value: T)

  datatype Result<+R, +E> = Success(value: R) | Failure(error: E)

  /** A thrown Java exception: its class name and its message (None stands for a null message). */
  datatype JavaException = JavaException(className: string, message: Option<string>)

  const ILLEGAL_ARGUMENT: string := "java.lang.IllegalArgumentException"
  const NULL_POINTER: string := "java.lang.NullPointerException"
  const RUNTIME: string := "java.lang.RuntimeException"

  /** The message of the helper's constructor when the object under test is null. */
  const NULL_OUT_MESSAGE: string := "Object under test must not be null"
  /** The message of both mode-mismatched selection mutators (the same text for both). */
  const WRONG_MODE_MESSAGE: string := "Cannot accept exclusion properties in INCLUDE mode"
  /** The message of the RuntimeException that wraps the index error of an enum without constants. */
  const EMPTY_ENUM_MESSAGE: string := "java.lang.ArrayIndexOutOfBoundsException: 0"
  /** The message reflection gives when a method is invoked on an object of another class. */
  const NOT_INSTANCE_MESSAGE: string := "object is not an instance of declaring class"

  function IllegalArgument(message: string): JavaException
  {
    JavaException(ILLEGAL_ARGUMENT, Some(message))
  }

  /** A NullPointerException raised by the JVM itself carries no message. */
  const NullPointer: JavaException := JavaException(NULL_POINTER, None)

  /** The RuntimeException that createParam throws for an enum with no constants. */
  const EmptyEnumFailure: JavaException := JavaException(RUNTIME, Some(EMPTY_ENUM_MESSAGE))

  /** The declared type of a setter parameter, as far as value synthesis can tell types apart:
      an enum with its constants in declaration order, an array of a component type,
      or any other class or primitive, named by its Java name ("int", "java.lang.String"). */
  datatype JType =
    | EnumType(name: string, constants: seq<string>)
    | ArrayType(component: JType)
    | ClassType(name: string)

  /** The eight primitive type names. */
  const PRIMITIVE_NAMES: set<string> :=
    {"boolean", "byte", "char", "short", "int", "long", "float", "double"}

  /** Class.getName(): an array's name is "[" followed by the descriptor of its component. */
  function ClassName(t: JType): string
  {
    match t
    case EnumType(n, _) => n
    case ArrayType(c) => "[" + Descriptor(c)
    case ClassType(n) => n
  }

  /** The JVM descriptor of a component type: a letter for a primitive,
      "L<name>;" for a class, "[" + descriptor for an array. */
  function Descriptor(t: JType): string
  {
    match t
    case EnumType(n, _) => "L" + n + ";"
    case ArrayType(c) => "[" + Descriptor(c)
    case ClassType(n) =>
      if n == "boolean" then "Z"
      else if n == "byte" then "B"
      else if n == "char" then "C"
      else if n == "short" then "S"
      else if n == "int" then "I"
      else if n == "long" then "J"
      else if n == "float" then "F"
      else if n == "double" then "D"
      else "L" + n + ";"
  }

  datatype BigKind = BigInteger | BigDecimal

  /** A value handed to a setter. Floating-point zeros are tags only: no arithmetic is done on them. */
  datatype Value =
    | Bool(b: bool)
    | Byte(n: int)
    | Short(n: int)
    | Int(n: int)
    | Long(n: int)
    | FloatZero
    | DoubleZero
    | Char(c: char)
    | Str(s: string)
    | Big(kind: BigKind, n: int)
    | EnumConst(enumName: string, constant: string)
    | EmptyArray(component: JType)
    | Mock(mocked: JType)

  /** The declared parameter type that may receive a value of each shape: a primitive or its box,
      String, the two big-number classes, a constant of the enum, an array of exactly that
      component type, and a mock of a class that is not primitive. */
  predicate HasType(v: Value, t: JType)
  {
    match v
    case Bool(_) => t == ClassType("boolean") || t == ClassType("java.lang.Boolean")
    case Byte(_) => t == ClassType("byte") || t == ClassType("java.lang.Byte")
    case Short(_) => t == ClassType("short") || t == ClassType("java.lang.Short")
    case Int(_) => t == ClassType("int") || t == ClassType("java.lang.Integer")
    case Long(_) => t == ClassType("long") || t == ClassType("java.lang.Long")
    case FloatZero => t == ClassType("float") || t == ClassType("java.lang.Float")
    case DoubleZero => t == ClassType("double") || t == ClassType("java.lang.Double")
    case Char(_) => t == ClassType("char") || t == ClassType("java.lang.Character")
    case Str(_) => t == ClassType("java.lang.String")
    case Big(k, _) =>
      t == ClassType(if k == BigInteger then "java.math.BigInteger" else "java.math.BigDecimal")
    case EnumConst(e, c) => t.EnumType? && t.name == e && c in t.constants
    case EmptyArray(c) => t == ArrayType(c)
    case Mock(m) => m == t && t.ClassType? && t.name !in PRIMITIVE_NAMES
  }

  /** The canonical defaults: false, numeric zero, character code zero, the empty string, and ONE for
      the big-number classes. */
  predicate IsCanonicalDefault(v: Value)
  {
    match v
    case Bool(b) => !b
    case Byte(n) => n == 0
    case Short(n) => n == 0
    case Int(n) => n == 0
    case Long(n) => n == 0
    case FloatZero => true
    case DoubleZero => true
    case Char(c) => c == '\0'
    case Str(s) => s == ""
    case Big(_, n) => n == 1
    case _ => false
  }
}
