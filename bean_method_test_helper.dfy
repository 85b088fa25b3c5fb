/** The helper object: the object under test it is bound to, the descriptors introspected at
    construction, the fixed mode flag and the growing set of property names; and the object under
    test itself, reduced to the accessor calls it receives. */
module Helper {
  import opened JavaTypes
  import opened ParamSynthesis
  import opened BeanExecution

  /** An object under test: its runtime class (as introspection reports it) never changes; what the
      helper does to it is call its accessors, and `received` records those calls in order. */
  class Bean {
    const beanInfo: BeanInfo
    var received: seq<Call>

    constructor (beanInfo: BeanInfo)
      ensures this.beanInfo == beanInfo && received == []
    {
      this.beanInfo := beanInfo;
      received := [];
    }

    /** The accessor body runs (its result or exception is the descriptor's given outcome). */
    method Accept(call: Call)
      modifies this
      ensures received == old(received) + [call]
    {
      received := received + [call];
    }
  }

  class BeanMethodTestHelper {
    var oUT: Bean?
    var info: BeanInfo
    var exclusionMode: bool
    /** The keys of the source's name-to-name map. */
    var propertyMap: set<string>

    /** In Exclude mode "class" is always in the set: seeded by construction, never removed. */
    ghost predicate Valid()
      reads this
    {
      exclusionMode ==> "class" in propertyMap
    }

    function CurrentPolicy(): Policy
      reads this
    {
      Policy(exclusionMode, propertyMap)
    }

    function CurrentReceiver(): Receiver
      reads this
    {
      if oUT == null then NullReceiver else Instance(oUT.beanInfo.className)
    }

    /** The objects an execution may change: the object under test, when there is one. */
    function Target(): set<Bean>
      reads this
    {
      if oUT == null then {} else {oUT}
    }

    /** The constructor once its null check has passed: bind the object, capture its descriptors,
        fix the mode, and in Exclude mode seed the set with "class". */
    constructor Init(out: Bean, testMode: TestMode)
      ensures Valid()
      ensures oUT == out && info == out.beanInfo
      ensures exclusionMode == (testMode == Exclude)
      ensures propertyMap == if testMode == Exclude then {"class"} else {}
    {
      oUT := out;
      info := out.beanInfo;
      exclusionMode := testMode == Exclude;
      propertyMap := if testMode == Exclude then {"class"} else {};
    }

    /** new BeanMethodTestHelper(oUT, testMode): a null object under test is refused with
        IllegalArgumentException and no helper is produced. */
    static method Create(out: Bean?, testMode: TestMode) returns (r: Result<BeanMethodTestHelper, JavaException>)
      ensures r.Failure? <==> out == null
      ensures r.Failure? ==> r.error == IllegalArgument(NULL_OUT_MESSAGE)
      ensures r.Success? ==> fresh(r.value) && r.value.Valid()
      ensures r.Success? ==> r.value.oUT == out && out != null && r.value.info == out.beanInfo
      ensures r.Success? ==> r.value.exclusionMode == (testMode == Exclude)
      ensures r.Success? ==> r.value.propertyMap == if testMode == Exclude then {"class"} else {}
    {
      if out == null {
        return Failure(IllegalArgument(NULL_OUT_MESSAGE));
      }
      var h := new BeanMethodTestHelper.Init(out, testMode);
      return Success(h);
    }

    /** new BeanMethodTestHelper(oUT): Exclude mode. */
    static method CreateDefault(out: Bean?) returns (r: Result<BeanMethodTestHelper, JavaException>)
      ensures r.Failure? <==> out == null
      ensures r.Failure? ==> r.error == IllegalArgument(NULL_OUT_MESSAGE)
      ensures r.Success? ==> fresh(r.value) && r.value.Valid()
      ensures r.Success? ==> r.value.oUT == out && out != null && r.value.info == out.beanInfo
      ensures r.Success? ==> r.value.exclusionMode && r.value.propertyMap == {"class"}
    {
      r := Create(out, Exclude);
    }

    /** Adds the name in Exclude mode; in Include mode refuses with IllegalArgumentException and
        changes nothing. Only the name set may change; adding a name already present changes nothing. */
    method ExcludeProperty(property: string) returns (thrown: Option<JavaException>)
      requires Valid()
      modifies this`propertyMap
      ensures Valid()
      ensures thrown.None? <==> exclusionMode
      ensures thrown.Some? ==> thrown.value == IllegalArgument(WRONG_MODE_MESSAGE)
      ensures propertyMap == if exclusionMode then old(propertyMap) + {property} else old(propertyMap)
      ensures property in old(propertyMap) ==> propertyMap == old(propertyMap)
    {
      if !exclusionMode {
        return Some(IllegalArgument(WRONG_MODE_MESSAGE));
      }
      propertyMap := propertyMap + {property};
      thrown := None;
    }

    /** Adds the name in Include mode; in Exclude mode refuses with IllegalArgumentException (with the
        same message as ExcludeProperty) and changes nothing. */
    method IncludeProperty(property: string) returns (thrown: Option<JavaException>)
      requires Valid()
      modifies this`propertyMap
      ensures Valid()
      ensures thrown.None? <==> !exclusionMode
      ensures thrown.Some? ==> thrown.value == IllegalArgument(WRONG_MODE_MESSAGE)
      ensures propertyMap == if exclusionMode then old(propertyMap) else old(propertyMap) + {property}
      ensures property in old(propertyMap) ==> propertyMap == old(propertyMap)
    {
      if exclusionMode {
        return Some(IllegalArgument(WRONG_MODE_MESSAGE));
      }
      propertyMap := propertyMap + {property};
      thrown := None;
    }

    /** One reflective invocation on the current object under test. */
    method InvokeAccessor(outcome: Outcome, call: Call) returns (thrown: Option<JavaException>)
      modifies Target()
      ensures unchanged(this)
      ensures thrown == Invoke(outcome, CurrentReceiver(), info.className, call).thrown
      ensures oUT != null ==> oUT.received == old(oUT.received) + Invoke(outcome, CurrentReceiver(), info.className, call).calls
    {
      if outcome.Inaccessible? {
        // IllegalAccessException: swallowed
        thrown := None;
      } else if oUT == null {
        thrown := Some(NullPointer);
      } else if oUT.beanInfo.className != info.className {
        thrown := Some(IllegalArgument(NOT_INSTANCE_MESSAGE));
      } else {
        oUT.Accept(call);
        thrown := if outcome.Throws? then Some(outcome.thrown) else None;
      }
    }

    /** The loop body of executeBeanMethods for one selected descriptor: the argument goes through
        the one-slot buffer to the setter, then the getter is invoked. */
    method ExerciseDescriptor(pd: PropertyDescriptor, objArray: array<Option<Value>>) returns (thrown: Option<JavaException>)
      requires objArray.Length == 1
      modifies Target(), objArray
      ensures unchanged(this)
      ensures thrown == Exercise(pd, CurrentReceiver(), info.className).thrown
      ensures oUT != null ==> oUT.received == old(oUT.received) + Exercise(pd, CurrentReceiver(), info.className).calls
    {
      if pd.writeMethod.None? {
        // getWriteMethod() is null: getParameterTypes() on it
        return Some(NullPointer);
      }
      var param := CreateParam(pd.writeMethod.value.paramType);
      if param.Failure? {
        return Some(param.error);
      }
      objArray[0] := Some(param.value);
      thrown := InvokeAccessor(pd.writeMethod.value.outcome, SetCall(pd.name, objArray[0].value));
      if thrown.None? {
        if pd.readMethod.None? {
          // getReadMethod() is null: invoke on it
          thrown := Some(NullPointer);
        } else {
          thrown := InvokeAccessor(pd.readMethod.value.outcome, GetCall(pd.name));
        }
      }
    }

    /** executeBeanMethods: walks the captured descriptors in order and exercises the selected ones;
        the first exception ends the walk and is returned as thrown. The helper's own fields are
        not written, so a second execution applies the same selection; in Exclude mode no "class"
        accessor is ever called. */
    method ExecuteBeanMethods() returns (thrown: Option<JavaException>)
      requires Valid()
      modifies Target()
      ensures Valid() && unchanged(this)
      ensures thrown == Execute(info.properties, CurrentPolicy(), CurrentReceiver(), info.className).thrown
      ensures oUT != null ==>
        oUT.received == old(oUT.received) + Execute(info.properties, CurrentPolicy(), CurrentReceiver(), info.className).calls
      ensures exclusionMode && oUT != null ==>
        forall k :: |old(oUT.received)| <= k < |oUT.received| ==> oUT.received[k].property != "class"
    {
      ghost var stop;
      thrown, stop := WalkDescriptors();
      if thrown.Some? {
        FailureEndsRun(info.properties, stop, CurrentPolicy(), CurrentReceiver(), info.className);
      } else {
        assert info.properties[..stop] == info.properties;
      }
      if exclusionMode && oUT != null {
        ClassNeverInvoked(info.properties, CurrentPolicy(), CurrentReceiver(), info.className);
      }
    }

    /** The loop of executeBeanMethods: it stops after the descriptor that threw, or after the last. */
    method WalkDescriptors() returns (thrown: Option<JavaException>, ghost stop: nat)
      modifies Target()
      ensures unchanged(this)
      ensures stop <= |info.properties| && (thrown.None? ==> stop == |info.properties|)
      ensures thrown == Execute(info.properties[..stop], CurrentPolicy(), CurrentReceiver(), info.className).thrown
      ensures oUT != null ==>
        oUT.received == old(oUT.received) + Execute(info.properties[..stop], CurrentPolicy(), CurrentReceiver(), info.className).calls
    {
      var properties := info.properties;
      ghost var policy, receiver := CurrentPolicy(), CurrentReceiver();
      ghost var run := Run([], None);
      var objArray := new Option<Value>[1](_ => None);
      var i := 0;
      thrown := None;
      // the source throws out of the loop; here the loop ends on the first exception
      while i < |properties| && thrown.None?
        invariant i <= |properties|
        invariant run == Execute(properties[..i], policy, receiver, info.className)
        invariant thrown == run.thrown
        invariant oUT != null ==> oUT.received == old(oUT.received) + run.calls
      {
        var pd := properties[i];
        ExecuteExtend(properties, i, policy, receiver, info.className);
        if (pd.name !in propertyMap) == exclusionMode {
          thrown := ExerciseDescriptor(pd, objArray);
          run := Run(run.calls + Exercise(pd, receiver, info.className).calls, thrown);
        }
        i := i + 1;
      }
      stop := i;
    }

    /** Replaces the object under test only: mode, name set and captured descriptors stay. */
    method SetOUT(out: Bean?)
      requires Valid()
      modifies this`oUT
      ensures Valid()
      ensures oUT == out
    {
      oUT := out;
    }

    method GetOUT() returns (r: Bean?)
      ensures r == oUT
    {
      r := oUT;
    }

    method IsExclusionMode() returns (r: bool)
      ensures r == exclusionMode
    {
      r := exclusionMode;
    }
  }
}
