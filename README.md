# BeanMethodTestHelper, modelled in Dafny

`BeanMethodTestHelper` is a JUnit utility. It exercises every getter/setter pair ("bean property")
of an object under test, so that trivial accessors need no hand-written tests. The model covers
four parts of it:

- **Selection policy.** A mode fixed at construction (Exclude or Include) and a set of property
  names that only grows. `excludeProperty` works only in Exclude mode and `includeProperty` only
  in Include mode. Exclude mode starts with `"class"` in the set.
- **Selection rule.** A descriptor is exercised iff "its name is not in the set" equals the
  exclusion flag (`BeanExecution.Selects`).
- **Value synthesis (`createParam`).** The cases are checked in a fixed order: an enum gives its
  first constant; a type in the 19-entry table of primitive and common types gives its default;
  an array type gives an empty array of its component type; anything else gives a mock.
- **Execution (`executeBeanMethods`).** The loop walks the introspected descriptors in order.
  For each selected one it calls the setter with the synthesized value, then the getter. The first
  exception ends the run and reaches the caller unchanged.

Files:

- `java_types.dfy` (module `JavaTypes`): exceptions, the exact messages, the setter parameter
  types (`JType`), the values a setter can receive (`Value`), `Class.getName()` (`ClassName`), and
  the typing relation `HasType`.
- `param_synthesis.dfy` (module `ParamSynthesis`): the `primitiveValues` table and `createParam`.
  Both are pure functions.
- `bean_execution.dfy` (module `BeanExecution`): descriptors, the selection rule, and the
  reference semantics of one run, `Execute`. `Execute` gives the calls reaching the object under
  test and the exception that ends the run. Lemmas about the run are here.
- `bean_method_test_helper.dfy` (module `Helper`): the helper as a class with the source's
  fields (`oUT`, `info`, `exclusionMode`, `propertyMap`), its constructors, mutators and
  accessors, and `ExecuteBeanMethods` as a loop proved against `Execute`. The object under test
  is a `Bean` object that records the accessor calls it receives.
- `test_bean_example.dfy` (module `TestBeanExample`): the test suite's fixture bean as a
  descriptor list, and the suite's scenarios stated and proved over the model.

Exceptions are values, not control flow. An operation that throws in Java returns
`Some(exception)` (or `Failure(exception)`) and changes nothing it would not have changed
before throwing.

Three behaviours of the code are easy to misread:

- **Properties with one accessor are not filtered out.** The class comment (lines 19-22 of
  `BeanMethodTestHelper.java`) says such properties cannot be tested automatically. The loop
  does not check for them. A selected descriptor without a write method fails with
  `NullPointerException` before anything is called (line 195). A selected descriptor without a
  read method fails with `NullPointerException` after its setter has run (line 207). So in
  Include mode, naming `"class"` makes the run fail (`TestBeanExample.IncludingClassFails`).
- **The object under test can become null.** The constructor refuses null, but `setOUT(null)` is
  accepted. A later run then fails with `NullPointerException` at the first accessible accessor it
  invokes. `setOUT` also keeps the descriptors of the first object's class. Reflection then
  fails with IllegalArgumentException only for a replacement that is not an instance of the
  accessor's declaring class; a subclass of the first class passes, and so does any other class
  that inherits the accessor from the declaring class.
- **`includeProperty` gives a misleading message.** In Exclude mode it refuses with "Cannot
  accept exclusion properties in INCLUDE mode", the same text as `excludeProperty`. The model
  keeps this text, as the source has it.

## Model

| member | source | states |
|---|---|---|
| `ParamSynthesis.CreateParam` | src/main/java/de/xinaris/junit/BeanMethodTestHelper.java:223-255 | fails, among enums, only for one with no constants, with RuntimeException "java.lang.ArrayIndexOutOfBoundsException: 0"; otherwise the value can be passed to a setter declaring the type |
| `ParamSynthesis.PrimitiveValues` | src/main/java/de/xinaris/junit/BeanMethodTestHelper.java:88-111 | the table itself: the eight primitives, their eight box classes, String, BigInteger and BigDecimal, keyed by class name (its properties are the rows `TableEntriesConform`, `PrimitivesCovered` and `PrimitiveAndBoxAgree`) |
| `ParamSynthesis.CreateParamPriority` | src/main/java/de/xinaris/junit/BeanMethodTestHelper.java:227-254 | the priority order: an enum (even one named like a table key) gives its first constant; a non-enum table type gives the table's canonical default; an array type gives an empty array of its component type; any other class gives a mock of itself |
| `ParamSynthesis.TableEntriesConform` | src/main/java/de/xinaris/junit/BeanMethodTestHelper.java:88-111 | every table entry is a canonical default (false, zero, char 0, "", ONE) and fits the type it is keyed by |
| `ParamSynthesis.TableBranchConforms` | src/main/java/de/xinaris/junit/BeanMethodTestHelper.java:243-247 | only a class type can hit the table, and the default it gets fits that type |
| `ParamSynthesis.PrimitivesCovered` | src/main/java/de/xinaris/junit/BeanMethodTestHelper.java:90-97 | all eight primitive types have a table default |
| `ParamSynthesis.PrimitiveAndBoxAgree` | src/main/java/de/xinaris/junit/BeanMethodTestHelper.java:90-106 | a primitive and its box class get the same default |
| `ParamSynthesis.ArrayNameMissesTable` | src/main/java/de/xinaris/junit/BeanMethodTestHelper.java:243-251 | an array's class name starts with '[', so no table key matches it and an array always reaches the array branch |
| `BeanExecution.Selects` | src/main/java/de/xinaris/junit/BeanMethodTestHelper.java:192 | the selection test, against the mode-by-mode reading: in Exclude mode a property is exercised iff its name is not in the set, in Include mode iff it is |
| `BeanExecution.Invoke` | src/main/java/de/xinaris/junit/BeanMethodTestHelper.java:196-213 | a call reaches the object iff access is allowed and the receiver is an instance of the introspected class; the object's own exception comes back unchanged; a refused access is swallowed |
| `BeanExecution.Exercise` | src/main/java/de/xinaris/junit/BeanMethodTestHelper.java:194-213 | for one descriptor: at most a set and a get on that property, the set first; the set's argument fits the setter's declared type; a missing write method gives NullPointerException before any call |
| `BeanExecution.SetterThenGetter` | src/main/java/de/xinaris/junit/BeanMethodTestHelper.java:194-213 | with both accessors and a synthesizable argument: the setter gets that argument; a setter exception is raised unchanged and the getter is then not called; a getter exception is raised unchanged; otherwise exactly set-then-get, no exception |
| `BeanExecution.SynthesisAndReadFailures` | src/main/java/de/xinaris/junit/BeanMethodTestHelper.java:195-207 | an enum without constants gives the wrapped index error and its setter is never called; a missing read method gives NullPointerException after the setter ran |
| `BeanExecution.Execute` | src/main/java/de/xinaris/junit/BeanMethodTestHelper.java:191-215 | the run over the descriptors in order, skipping unselected ones and ending at the first exception; each descriptor adds at most a set and a get, so at most two calls per descriptor reach the object |
| `BeanExecution.FailureEndsRun` | src/main/java/de/xinaris/junit/BeanMethodTestHelper.java:198-210 | once a prefix of the descriptors has thrown, later descriptors add no calls and the exception stays |
| `BeanExecution.CompletesIff` | src/main/java/de/xinaris/junit/BeanMethodTestHelper.java:191-216 | a run returns normally iff no selected descriptor throws; its calls are then the selected descriptors' calls in descriptor order, matching the front-to-back reference `SelectedCalls` |
| `BeanExecution.FirstFailure` | src/main/java/de/xinaris/junit/BeanMethodTestHelper.java:191-215 | a run that throws stops at the first selected descriptor that throws: all earlier selected ones returned normally, its exception is the one raised, and no later call is made |
| `BeanExecution.OnlySelectedInvoked` | src/main/java/de/xinaris/junit/BeanMethodTestHelper.java:192 | every call made belongs to a selected descriptor |
| `BeanExecution.UnselectedChangeNothing` | src/main/java/de/xinaris/junit/BeanMethodTestHelper.java:192 | a trailing block of descriptors that are not selected changes neither the calls nor the outcome |
| `BeanExecution.UnselectedSkipped` | src/main/java/de/xinaris/junit/BeanMethodTestHelper.java:192 | a descriptor that is not selected, at any position, changes neither the calls nor the outcome: dropping it leaves the run as it was |
| `BeanExecution.SingleSelected` | src/main/java/de/xinaris/junit/BeanMethodTestHelper.java:191-215 | when exactly one descriptor is selected, the run is that descriptor's exercise alone |
| `BeanExecution.ClassNeverInvoked` | src/main/java/de/xinaris/junit/BeanMethodTestHelper.java:192 | in Exclude mode with "class" in the set, no call is made on the "class" property |
| `BeanExecution.NothingIncluded` | src/main/java/de/xinaris/junit/BeanMethodTestHelper.java:192 | in Include mode with an empty set, nothing is called and the run returns normally |
| `Helper.BeanMethodTestHelper.Init` | src/main/java/de/xinaris/junit/BeanMethodTestHelper.java:129-139 | binds the object, captures its descriptors, fixes the mode; the set is {"class"} in Exclude mode and empty in Include mode |
| `Helper.BeanMethodTestHelper.Create` | src/main/java/de/xinaris/junit/BeanMethodTestHelper.java:124-140 | a null object fails with IllegalArgumentException "Object under test must not be null" and no helper exists; otherwise a fresh helper in the initial state of `Init` |
| `Helper.BeanMethodTestHelper.CreateDefault` | src/main/java/de/xinaris/junit/BeanMethodTestHelper.java:151-153 | the one-argument constructor: same null check, Exclude mode, set {"class"} |
| `Helper.BeanMethodTestHelper.ExcludeProperty` | src/main/java/de/xinaris/junit/BeanMethodTestHelper.java:160-167 | Exclude mode: adds exactly the name, idempotently; Include mode: IllegalArgumentException, set unchanged; only the set can change, and "class" stays in it |
| `Helper.BeanMethodTestHelper.IncludeProperty` | src/main/java/de/xinaris/junit/BeanMethodTestHelper.java:174-180 | Include mode: adds exactly the name, idempotently; Exclude mode: IllegalArgumentException with the same message, set unchanged; only the set can change |
| `Helper.BeanMethodTestHelper.InvokeAccessor` | src/main/java/de/xinaris/junit/BeanMethodTestHelper.java:196-213 | one reflective invocation on the current object, as `Invoke` specifies; helper fields unchanged |
| `Helper.BeanMethodTestHelper.ExerciseDescriptor` | src/main/java/de/xinaris/junit/BeanMethodTestHelper.java:194-213 | the loop body for one selected descriptor, through the one-slot argument buffer, as `Exercise` specifies |
| `Helper.BeanMethodTestHelper.ExecuteBeanMethods` | src/main/java/de/xinaris/junit/BeanMethodTestHelper.java:186-216 | the object receives exactly the calls of `Execute` over the captured descriptors and current policy, and the exception returned is the run's; the helper's fields are unchanged, so re-execution applies the same selection; in Exclude mode no "class" accessor is called |
| `Helper.BeanMethodTestHelper.WalkDescriptors` | src/main/java/de/xinaris/junit/BeanMethodTestHelper.java:191-215 | the loop: it stops after the first descriptor that throws or after the last one; what the object received and what was thrown are those of `Execute` over the descriptors walked so far; the helper's fields are unchanged |
| `Helper.BeanMethodTestHelper.SetOUT` | src/main/java/de/xinaris/junit/BeanMethodTestHelper.java:272-274 | replaces the object under test (null accepted); mode, set and captured descriptors stay |
| `Helper.BeanMethodTestHelper.GetOUT` | src/main/java/de/xinaris/junit/BeanMethodTestHelper.java:262-264 | returns the object currently bound, the one `SetOUT` last set or the constructor's |
| `Helper.BeanMethodTestHelper.IsExclusionMode` | src/main/java/de/xinaris/junit/BeanMethodTestHelper.java:279-281 | returns the mode flag fixed at construction |
| `TestBeanExample.DefaultModeRunsCleanly` | src/test/java/de/xinaris/junit/GTTest.java:41-55 | on the fixture bean, Exclude mode with the three troublesome properties excluded returns normally |
| `TestBeanExample.IncludeStringOnly` | src/test/java/de/xinaris/junit/GTTest.java:58-68 | Include mode with "string": exactly set "" then get, no exception |
| `TestBeanExample.GetterExceptionSurfaces` | src/test/java/de/xinaris/junit/GTTest.java:82-91 | the getter's IllegalArgumentException "getException" is raised unchanged |
| `TestBeanExample.SetterExceptionSurfaces` | src/test/java/de/xinaris/junit/GTTest.java:94-103 | the setter's IllegalArgumentException "setException" is raised unchanged after the one set call, and the getter is not called |
| `TestBeanExample.EmptyEnumSurfaces` | src/test/java/de/xinaris/junit/GTTest.java:106-117 | an enum without constants raises the RuntimeException "java.lang.ArrayIndexOutOfBoundsException: 0" and no call is made |
| `TestBeanExample.IncludingClassFails` | src/main/java/de/xinaris/junit/BeanMethodTestHelper.java:194-195 | the read-only "class" property, once included, makes the run fail with NullPointerException before any call |
| `TestBeanExample.DefaultModeScenario` | src/test/java/de/xinaris/junit/GTTest.java:41-55 | through the helper object: includeProperty is refused in Exclude mode with the fixed message, and execution returns normally |
| `TestBeanExample.NullObjectScenario` | src/test/java/de/xinaris/junit/GTTest.java:22-29 | the one-argument constructor with null gives the fixed IllegalArgumentException |
| `TestBeanExample.ReplaceObjectScenario` | src/test/java/de/xinaris/junit/GTTest.java:32-38 | getOUT gives the very object passed to the constructor, and after setOUT the replacement; the mode stays Exclude |

## Left out

- Introspection is not modelled. `Introspector.getBeanInfo` and the IllegalArgumentException that
  wraps an `IntrospectionException` (lines 131-135) are left out, because introspection is a
  library call. Each `Bean` carries the descriptors introspection would report.
- Reflection is modelled only in part. The model keeps a refused access (swallowed), a null
  receiver and a receiver of another class. The model refuses every receiver whose class differs
  from the introspected one, even where `Method.invoke` accepts it: an instance of a subclass, or
  of any class that inherits the accessor from its declaring class.
  Argument type mismatches are left out; `HasType` shows that synthesized arguments always fit.
- The cast of the target exception to `RuntimeException` (lines 200 and 210) is left out. A checked
  exception or an `Error` from an accessor would turn into a ClassCastException; every exception
  thrown by an accessor is treated as unchecked.
- `EasyMock.createMock` is represented by the opaque value `Mock(type)`. Its failures (for example
  on final classes) are left out.
- Float and double zeros are tags (`FloatZero`, `DoubleZero`). Boxing is not distinguished from
  the primitive value.
- The object under test has no state in the model. What the getter returns after the setter ran
  is left out; the model shows instead which argument the setter received.
- Property names are never null in the model. `excludeProperty(null)` stores a null key that
  `get` cannot tell from a missing one; that case is left out.
- The JVM's own NullPointerException is modelled with no message. Newer JDKs add a detailed
  message.
- The empty-enum message is the one older JDKs give ("java.lang.ArrayIndexOutOfBoundsException: 0").
  JDK 11 and later say "java.lang.ArrayIndexOutOfBoundsException: Index 0 out of bounds for length 0".
- `ParamSynthesis.CreateParam`: every enum's `values()` method is taken to be reachable by
  reflection. For an enum where it is not (a non-public enum of another package), the source wraps
  the IllegalAccessException in a RuntimeException (lines 229-236); the model gives that enum its
  first constant instead.
- `Helper.BeanMethodTestHelper.Create`: a null `testMode` is not modelled. The source accepts it
  (line 136 compares null with `Exclude`) and ends up in Include mode; `TestMode` has only the two
  documented constants.
- `info` is `transient` in the source; serialization is left out.
