/** What one run of executeBeanMethods does, as a function of the captured property descriptors,
    the selection policy and the object the accessors are invoked on: which accessors of the object
    under test are called, with which arguments, in which order, and which exception ends the run. */
module BeanExecution {
  import opened JavaTypes
  import opened ParamSynthesis

  datatype TestMode = Exclude | Include

  /** The selection policy: the mode flag and the set of property names. */
  datatype Policy = Policy(exclusionMode: bool, names: set<string>)

  /** A property is exercised iff "its name is not in the set" equals the exclusion flag. */
  predicate Selects(policy: Policy, name: string)
    ensures Selects(policy, name) <==>
      if policy.exclusionMode then name !in policy.names else name in policy.names
  {
    (name !in policy.names) == policy.exclusionMode
  }

  /** What happens when reflection invokes one accessor of the object under test: the body returns,
      the body throws (an unchecked exception of the object's own), or access is refused
      (IllegalAccessException, which the helper swallows). */
  datatype Outcome = Returns | Throws(thrown: JavaException) | Inaccessible

  datatype WriteMethod = WriteMethod(paramType: JType, outcome: Outcome)
  datatype ReadMethod = ReadMethod(outcome: Outcome)

  /** A property descriptor as introspection reports it; either accessor may be missing. */
  datatype PropertyDescriptor =
    PropertyDescriptor(name: string, writeMethod: Option<WriteMethod>, readMethod: Option<ReadMethod>)

  /** The introspected class: its name and its property descriptors in introspection order. */
  datatype BeanInfo = BeanInfo(className: string, properties: seq<PropertyDescriptor>)

  /** An accessor call that reached the object under test. */
  datatype Call = SetCall(property: string, arg: Value) | GetCall(property: string)

  /** The object the accessors are invoked on: null, or an instance of the named class. */
  datatype Receiver = NullReceiver | Instance(className: string)

  /** The calls made, in order, and the exception that ended the run (None: it returned normally). */
  datatype Run = Run(calls: seq<Call>, thrown: Option<JavaException>)

  /** Method.invoke as the helper uses it: a refused access is swallowed, a null receiver raises
      NullPointerException, a receiver of another class IllegalArgumentException; otherwise the
      accessor runs and an exception it throws is re-raised unchanged. */
  function Invoke(outcome: Outcome, receiver: Receiver, declaring: string, call: Call): (r: Run)
    ensures r.calls == [call] <==> !outcome.Inaccessible? && receiver == Instance(declaring)
    ensures r.calls == [] || r.calls == [call]
    ensures receiver == Instance(declaring) ==>
      r.thrown == (if outcome.Throws? then Some(outcome.thrown) else None)
    ensures outcome.Inaccessible? ==> r.thrown.None?
  {
    if outcome.Inaccessible? then Run([], None)
    else if receiver.NullReceiver? then Run([], Some(NullPointer))
    else if receiver.className != declaring then Run([], Some(IllegalArgument(NOT_INSTANCE_MESSAGE)))
    else Run([call], if outcome.Throws? then Some(outcome.thrown) else None)
  }

  /** One selected descriptor: fetch the write method (a missing one raises NullPointerException),
      synthesize its argument, invoke the setter, then the getter (a missing read method raises
      NullPointerException after the setter ran). At most a set and a get reach the object, the set
      first, both on this property, and the set carries a value of the setter's declared type. */
  function Exercise(pd: PropertyDescriptor, receiver: Receiver, declaring: string): (r: Run)
    ensures forall c :: c in r.calls ==> c.property == pd.name
    ensures |r.calls| <= 2
    ensures |r.calls| == 2 ==> r.calls[0].SetCall? && r.calls[1].GetCall?
    ensures forall c :: c in r.calls && c.SetCall? ==>
      pd.writeMethod.Some? && HasType(c.arg, pd.writeMethod.value.paramType)
    ensures pd.writeMethod.None? ==> r == Run([], Some(NullPointer))
  {
    if pd.writeMethod.None? then Run([], Some(NullPointer))
    else
      match CreateParam(pd.writeMethod.value.paramType)
      case Failure(e) => Run([], Some(e))
      case Success(v) =>
        var w := Invoke(pd.writeMethod.value.outcome, receiver, declaring, SetCall(pd.name, v));
        if w.thrown.Some? then w
        else if pd.readMethod.None? then Run(w.calls, Some(NullPointer))
        else
          var g := Invoke(pd.readMethod.value.outcome, receiver, declaring, GetCall(pd.name));
          Run(w.calls + g.calls, g.thrown)
  }

  /** The run over the descriptors in order: unselected descriptors are skipped, and the first
      exception ends the run. Defined on prefixes, as the loop extends them. */
  function Execute(props: seq<PropertyDescriptor>, policy: Policy, receiver: Receiver, declaring: string): (r: Run)
    ensures |r.calls| <= 2 * |props|
    decreases |props|
  {
    if props == [] then Run([], None)
    else
      var before := Execute(props[..|props| - 1], policy, receiver, declaring);
      var last := props[|props| - 1];
      if before.thrown.Some? || !Selects(policy, last.name) then before
      else
        var step := Exercise(last, receiver, declaring);
        Run(before.calls + step.calls, step.thrown)
  }

  /** One more descriptor: the run over a longer prefix, in terms of the shorter one. */
  lemma ExecuteExtend(props: seq<PropertyDescriptor>, i: nat, policy: Policy, receiver: Receiver, declaring: string)
    requires i < |props|
    ensures var before := Execute(props[..i], policy, receiver, declaring);
      Execute(props[..i + 1], policy, receiver, declaring) ==
        if before.thrown.Some? || !Selects(policy, props[i].name) then before
        else Run(before.calls + Exercise(props[i], receiver, declaring).calls, Exercise(props[i], receiver, declaring).thrown)
  {
    assert props[..i + 1][..i] == props[..i];
  }

  /** Reference definition: the calls of every selected descriptor, concatenated front to back. */
  function SelectedCalls(props: seq<PropertyDescriptor>, policy: Policy, receiver: Receiver, declaring: string): seq<Call>
  {
    Flatten(Contributions(props, policy, receiver, declaring))
  }

  /** The calls each descriptor contributes, in descriptor order. */
  function Contributions(props: seq<PropertyDescriptor>, policy: Policy, receiver: Receiver, declaring: string): seq<seq<Call>>
  {
    seq(|props|, k requires 0 <= k < |props| => Contribution(props[k], policy, receiver, declaring))
  }

  function Contribution(pd: PropertyDescriptor, policy: Policy, receiver: Receiver, declaring: string): seq<Call>
  {
    if Selects(policy, pd.name) then Exercise(pd, receiver, declaring).calls else []
  }

  function Flatten(parts: seq<seq<Call>>): seq<Call>
    decreases |parts|
  {
    if parts == [] then [] else parts[0] + Flatten(parts[1..])
  }

  lemma {:induction false} FlattenSnoc(parts: seq<seq<Call>>, last: seq<Call>)
    ensures Flatten(parts + [last]) == Flatten(parts) + last
    decreases |parts|
  {
    if parts != [] {
      assert (parts + [last])[1..] == parts[1..] + [last];
      FlattenSnoc(parts[1..], last);
    } else {
      assert (parts + [last])[1..] == [];
    }
  }

  lemma SelectedCallsSnoc(props: seq<PropertyDescriptor>, pd: PropertyDescriptor,
                          policy: Policy, receiver: Receiver, declaring: string)
    ensures SelectedCalls(props + [pd], policy, receiver, declaring)
         == SelectedCalls(props, policy, receiver, declaring) + Contribution(pd, policy, receiver, declaring)
  {
    assert Contributions(props + [pd], policy, receiver, declaring)
        == Contributions(props, policy, receiver, declaring) + [Contribution(pd, policy, receiver, declaring)];
    FlattenSnoc(Contributions(props, policy, receiver, declaring), Contribution(pd, policy, receiver, declaring));
  }

  /** Once a prefix of the descriptors has thrown, the rest of them change nothing. */
  lemma {:induction false} FailureEndsRun(props: seq<PropertyDescriptor>, i: nat,
                                           policy: Policy, receiver: Receiver, declaring: string)
    requires i <= |props|
    requires Execute(props[..i], policy, receiver, declaring).thrown.Some?
    ensures Execute(props, policy, receiver, declaring) == Execute(props[..i], policy, receiver, declaring)
    decreases |props|
  {
    if i < |props| {
      var prefix := props[..|props| - 1];
      assert prefix[..i] == props[..i];
      FailureEndsRun(prefix, i, policy, receiver, declaring);
    } else {
      assert props[..i] == props;
    }
  }

  /** A run returns normally iff no selected descriptor throws, and then its calls are exactly the
      selected descriptors' calls in descriptor order. */
  lemma {:induction false} CompletesIff(props: seq<PropertyDescriptor>,
                                         policy: Policy, receiver: Receiver, declaring: string)
    ensures Execute(props, policy, receiver, declaring).thrown.None? <==>
      forall k :: 0 <= k < |props| && Selects(policy, props[k].name) ==>
        Exercise(props[k], receiver, declaring).thrown.None?
    ensures Execute(props, policy, receiver, declaring).thrown.None? ==>
      Execute(props, policy, receiver, declaring).calls == SelectedCalls(props, policy, receiver, declaring)
    decreases |props|
  {
    if props != [] {
      var prefix := props[..|props| - 1];
      var last := props[|props| - 1];
      assert props == prefix + [last];
      CompletesIff(prefix, policy, receiver, declaring);
      SelectedCallsSnoc(prefix, last, policy, receiver, declaring);
      assert forall k :: 0 <= k < |prefix| ==> prefix[k] == props[k];
    }
  }

  /** A run that throws stops at its first throwing selected descriptor k: every selected
      descriptor before k returned normally, k's own exception is the one raised, unchanged,
      and no call after k's reaches the object. */
  lemma {:induction false} FirstFailure(props: seq<PropertyDescriptor>,
                                         policy: Policy, receiver: Receiver, declaring: string)
    requires Execute(props, policy, receiver, declaring).thrown.Some?
    ensures exists k :: (0 <= k < |props| && Selects(policy, props[k].name) &&
      Exercise(props[k], receiver, declaring).thrown.Some? &&
      (forall j :: 0 <= j < k && Selects(policy, props[j].name) ==>
        Exercise(props[j], receiver, declaring).thrown.None?) &&
      Execute(props, policy, receiver, declaring) ==
        Run(SelectedCalls(props[..k], policy, receiver, declaring) + Exercise(props[k], receiver, declaring).calls,
            Exercise(props[k], receiver, declaring).thrown))
    decreases |props|
  {
    var prefix := props[..|props| - 1];
    var last := props[|props| - 1];
    var before := Execute(prefix, policy, receiver, declaring);
    assert forall j :: 0 <= j < |prefix| ==> prefix[j] == props[j];
    if before.thrown.Some? {
      FirstFailure(prefix, policy, receiver, declaring);
      var k :| 0 <= k < |prefix| && Selects(policy, prefix[k].name) &&
        Exercise(prefix[k], receiver, declaring).thrown.Some? &&
        (forall j :: 0 <= j < k && Selects(policy, prefix[j].name) ==>
          Exercise(prefix[j], receiver, declaring).thrown.None?) &&
        before == Run(SelectedCalls(prefix[..k], policy, receiver, declaring) + Exercise(prefix[k], receiver, declaring).calls,
                      Exercise(prefix[k], receiver, declaring).thrown);
      assert prefix[..k] == props[..k];
    } else {
      var k := |props| - 1;
      CompletesIff(prefix, policy, receiver, declaring);
      assert props[..k] == prefix;
    }
  }

  /** Descriptors that are not selected change nothing: a run over a sequence whose tail from i on
      holds no selected descriptor is the run over its first i descriptors. */
  lemma {:induction false} UnselectedChangeNothing(props: seq<PropertyDescriptor>, i: nat,
                                                    policy: Policy, receiver: Receiver, declaring: string)
    requires i <= |props|
    requires forall j :: i <= j < |props| ==> !Selects(policy, props[j].name)
    ensures Execute(props, policy, receiver, declaring) == Execute(props[..i], policy, receiver, declaring)
    decreases |props|
  {
    if i < |props| {
      var prefix := props[..|props| - 1];
      assert prefix[..i] == props[..i];
      assert forall j :: i <= j < |prefix| ==> prefix[j] == props[j];
      UnselectedChangeNothing(prefix, i, policy, receiver, declaring);
    } else {
      assert props[..i] == props;
    }
  }

  /** A descriptor that is not selected changes nothing wherever it stands: dropping it leaves the
      run as it was. */
  lemma {:induction false} UnselectedSkipped(props: seq<PropertyDescriptor>, i: nat,
                                              policy: Policy, receiver: Receiver, declaring: string)
    requires i < |props| && !Selects(policy, props[i].name)
    ensures Execute(props[..i] + props[i + 1..], policy, receiver, declaring) == Execute(props, policy, receiver, declaring)
    decreases |props|
  {
    var dropped := props[..i] + props[i + 1..];
    if i == |props| - 1 {
      assert dropped == props[..|props| - 1];
    } else {
      var prefix := props[..|props| - 1];
      UnselectedSkipped(prefix, i, policy, receiver, declaring);
      assert dropped[..|dropped| - 1] == prefix[..i] + prefix[i + 1..];
      assert dropped[|dropped| - 1] == props[|props| - 1];
      SameLastSameRun(dropped, props, policy, receiver, declaring);
    }
  }

  /** Two descriptor sequences whose runs agree before their common last descriptor agree. */
  lemma SameLastSameRun(p: seq<PropertyDescriptor>, q: seq<PropertyDescriptor>,
                        policy: Policy, receiver: Receiver, declaring: string)
    requires p != [] && q != [] && p[|p| - 1] == q[|q| - 1]
    requires Execute(p[..|p| - 1], policy, receiver, declaring) == Execute(q[..|q| - 1], policy, receiver, declaring)
    ensures Execute(p, policy, receiver, declaring) == Execute(q, policy, receiver, declaring)
  {
  }

  /** When exactly one descriptor is selected, the run is that descriptor's exercise alone. */
  lemma SingleSelected(props: seq<PropertyDescriptor>, k: nat,
                       policy: Policy, receiver: Receiver, declaring: string)
    requires k < |props| && Selects(policy, props[k].name)
    requires forall j :: 0 <= j < |props| && j != k ==> !Selects(policy, props[j].name)
    ensures Execute(props, policy, receiver, declaring) == Exercise(props[k], receiver, declaring)
  {
    UnselectedChangeNothing(props[..k], 0, policy, receiver, declaring);
    assert props[..k + 1][..k] == props[..k];
    UnselectedChangeNothing(props, k + 1, policy, receiver, declaring);
  }

  /** Only selected descriptors' accessors are ever called. */
  lemma {:induction false} OnlySelectedInvoked(props: seq<PropertyDescriptor>,
                                                policy: Policy, receiver: Receiver, declaring: string)
    ensures forall c :: c in Execute(props, policy, receiver, declaring).calls ==>
      exists k :: 0 <= k < |props| && Selects(policy, props[k].name) && c.property == props[k].name
    decreases |props|
  {
    if props != [] {
      var prefix := props[..|props| - 1];
      OnlySelectedInvoked(prefix, policy, receiver, declaring);
      assert forall j :: 0 <= j < |prefix| ==> prefix[j] == props[j];
    }
  }

  /** In Exclude mode with "class" in the set, the "class" property is never exercised. */
  lemma ClassNeverInvoked(props: seq<PropertyDescriptor>, policy: Policy, receiver: Receiver, declaring: string)
    requires policy.exclusionMode && "class" in policy.names
    ensures forall c :: c in Execute(props, policy, receiver, declaring).calls ==> c.property != "class"
  {
    OnlySelectedInvoked(props, policy, receiver, declaring);
  }

  /** In Include mode with an empty set, nothing is exercised and the run returns normally. */
  lemma {:induction false} NothingIncluded(props: seq<PropertyDescriptor>, receiver: Receiver, declaring: string)
    ensures Execute(props, Policy(false, {}), receiver, declaring) == Run([], None)
    decreases |props|
  {
    if props != [] {
      NothingIncluded(props[..|props| - 1], receiver, declaring);
    }
  }

  /** For a descriptor with both accessors, invoked on an instance of the introspected class, with
      an argument that could be synthesized: the setter is called with that argument before the
      getter, an exception thrown by the setter is raised unchanged and the getter is then not
      called, and an exception thrown by the getter is raised unchanged. */
  lemma SetterThenGetter(pd: PropertyDescriptor, declaring: string, v: Value)
    requires pd.writeMethod.Some? && pd.readMethod.Some?
    requires CreateParam(pd.writeMethod.value.paramType) == Success(v)
    ensures var w := pd.writeMethod.value.outcome; var g := pd.readMethod.value.outcome;
      var r := Exercise(pd, Instance(declaring), declaring);
      (w.Throws? ==> r == Run([SetCall(pd.name, v)], Some(w.thrown))) &&
      (w.Returns? && g.Throws? ==> r == Run([SetCall(pd.name, v), GetCall(pd.name)], Some(g.thrown))) &&
      (w.Returns? && g.Returns? ==> r == Run([SetCall(pd.name, v), GetCall(pd.name)], None))
  {
  }

  /** A setter whose argument cannot be synthesized (an enum without constants) is never called:
      the descriptor raises the wrapped index error. A missing read method raises
      NullPointerException only after the setter ran. */
  lemma SynthesisAndReadFailures(pd: PropertyDescriptor, declaring: string)
    requires pd.writeMethod.Some?
    ensures var t := pd.writeMethod.value.paramType;
      t.EnumType? && t.constants == [] ==>
        Exercise(pd, Instance(declaring), declaring) == Run([], Some(EmptyEnumFailure))
    ensures var t := pd.writeMethod.value.paramType;
      pd.readMethod.None? && pd.writeMethod.value.outcome.Returns? && CreateParam(t).Success? ==>
        Exercise(pd, Instance(declaring), declaring) == Run([SetCall(pd.name, CreateParam(t).value)], Some(NullPointer))
  {
  }
}
