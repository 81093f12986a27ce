/**
 * The Hartree-Fock initial point: an all-zero vector of variational parameters,
 * one entry per excitation of the UCC ansatz, together with the reference energy
 * read from an optional grouped property container.
 *
 * The state of an `HFInitialPoint` is described twice: as the fields of the class
 * `HFInitialPoint`, whose methods change them in place, and as the value `State`,
 * on which the transition functions below say what every method does. The lemmas
 * are stated on the transition functions.
 */
module InitialPoints {
  import opened Wrappers

  /** One excitation: the occupied indices it removes and the virtual indices it adds. */
  type Excitation = (seq<int>, seq<int>)

  /** An ordered excitation list; position k is the slot of parameter k. */
  type ExcitationList = seq<Excitation>

  /**
   * The UCC ansatz, seen only through the excitation list it supplies once its
   * operators have been built.
   */
  datatype Ansatz = Ansatz(excitationList: ExcitationList)

  /** The electronic-energy property; its reference energy may be null. */
  datatype ElectronicEnergy = ElectronicEnergy(referenceEnergy: Option<real>)

  /** The properties a grouped container can hold: the energy one, or any other kind. */
  datatype Property = EnergyProperty(energy: ElectronicEnergy) | OtherProperty(kind: string)

  /** A grouped second-quantized property: its member properties, keyed by name. */
  datatype GroupedProperty = GroupedProperty(properties: map<string, Property>)

  /** The name under which a container keeps its electronic-energy property. */
  const ElectronicEnergyName: string := "ElectronicEnergy"

  /** The error raised by `compute` when no excitation list is known. */
  datatype Error = MissingExcitationList

  /** Asks the container for its electronic-energy property. */
  function GetElectronicEnergy(g: GroupedProperty): Option<ElectronicEnergy> {
    if ElectronicEnergyName in g.properties && g.properties[ElectronicEnergyName].EnergyProperty?
    then Some(g.properties[ElectronicEnergyName].energy)
    else None
  }

  /** The all-zero parameter vector for an excitation list. */
  function ZeroParameters(excitations: ExcitationList): seq<real> {
    seq(|excitations|, _ => 0.0)
  }

  /** Every field of an `HFInitialPoint`, as a value. */
  datatype State = State(
    ansatz: Option<Ansatz>,
    excitationList: Option<ExcitationList>,
    referenceEnergy: Option<real>,
    groupedProperty: Option<GroupedProperty>,
    parameters: Option<seq<real>>)

  /** The state of a fresh instance. */
  function Initial(): State {
    State(None, None, Some(0.0), None, None)
  }

  /** The cache is absent, or holds one zero per excitation of the current list. */
  predicate CacheConsistent(s: State) {
    s.parameters.Some? ==>
      s.excitationList.Some? &&
      |s.parameters.value| == |s.excitationList.value| &&
      forall k :: 0 <= k < |s.parameters.value| ==> s.parameters.value[k] == 0.0
  }

  /** The `grouped_property` setter. */
  function WithGroupedProperty(s: State, g: GroupedProperty): State {
    match GetElectronicEnergy(g)
    case None => s
    case Some(energy) => s.(referenceEnergy := energy.referenceEnergy, groupedProperty := Some(g))
  }

  /** The `ansatz` setter. */
  function WithAnsatz(s: State, a: Ansatz): State {
    s.(parameters := None, excitationList := Some(a.excitationList), ansatz := Some(a))
  }

  /** The `excitation_list` setter. */
  function WithExcitationList(s: State, excitations: ExcitationList): State {
    s.(parameters := None, excitationList := Some(excitations))
  }

  /** `_compute`: fills the cache from the current excitation list. */
  function FillParameters(s: State): State
    requires s.excitationList.Some?
  {
    s.(parameters := Some(ZeroParameters(s.excitationList.value)))
  }

  /**
   * `compute`: applies the grouped property, then the ansatz, then fails when no
   * excitation list is known and otherwise fills the cache.
   */
  function ComputeStep(s: State, a: Option<Ansatz>, g: Option<GroupedProperty>): (r: (State, Outcome<Error>))
    ensures r.1.Fail? <==> a.None? && s.excitationList.None?
    ensures r.1.Fail? ==> r.0 == (if g.Some? then WithGroupedProperty(s, g.value) else s)
    ensures r.1.Pass? ==>
      r.0.excitationList.Some? && r.0.parameters.Some? &&
      |r.0.parameters.value| == |r.0.excitationList.value| &&
      forall k :: 0 <= k < |r.0.parameters.value| ==> r.0.parameters.value[k] == 0.0
    ensures a.Some? ==> r.0.ansatz == a && r.0.excitationList == Some(a.value.excitationList)
    ensures a.None? ==> r.0.ansatz == s.ansatz && r.0.excitationList == s.excitationList
    ensures r.0.referenceEnergy == (if g.Some? then WithGroupedProperty(s, g.value) else s).referenceEnergy
    ensures r.0.groupedProperty == (if g.Some? then WithGroupedProperty(s, g.value) else s).groupedProperty
  {
    var afterProperty := if g.Some? then WithGroupedProperty(s, g.value) else s;
    var afterAnsatz := if a.Some? then WithAnsatz(afterProperty, a.value) else afterProperty;
    if afterAnsatz.excitationList.None? then (afterAnsatz, Fail(MissingExcitationList))
    else (FillParameters(afterAnsatz), Pass)
  }

  /** `to_numpy_array`: the cached vector, computed first (without arguments) when absent. */
  function ToArray(s: State): (r: (State, Result<seq<real>, Error>))
    ensures s.parameters.Some? ==> r == (s, Success(s.parameters.value))
    ensures s.parameters.None? ==> (r.1.Failure? <==> s.excitationList.None?)
    ensures r.1.Failure? ==> r.0 == s
    ensures r.1.Success? ==> r.0.parameters == Some(r.1.value)
    ensures r.0 == s.(parameters := r.0.parameters)
    ensures CacheConsistent(s) && r.1.Success? ==>
      s.excitationList.Some? && r.1.value == ZeroParameters(s.excitationList.value)
  {
    if s.parameters.Some? then (s, Success(s.parameters.value))
    else
      var (after, outcome) := ComputeStep(s, None, None);
      match outcome
      case Fail(e) => (after, Failure(e))
      case Pass => (after, Success(after.parameters.value))
  }

  /**
   * The Hartree-Fock initial point object. Every method moves `Model()` exactly as
   * the matching transition function says, and keeps `Valid()`.
   */
  class HFInitialPoint {
    var ansatz: Option<Ansatz>
    var excitationList: Option<ExcitationList>
    var referenceEnergy: Option<real>
    var groupedProperty: Option<GroupedProperty>
    var parameters: Option<seq<real>>

    /** The fields as a value. */
    function Model(): State
      reads this
    {
      State(ansatz, excitationList, referenceEnergy, groupedProperty, parameters)
    }

    /** The object invariant: the cache matches the excitation list. */
    predicate Valid()
      reads this
    {
      CacheConsistent(Model())
    }

    constructor ()
      ensures Valid()
      ensures Model() == Initial()
    {
      ansatz := None;
      excitationList := None;
      referenceEnergy := Some(0.0);
      groupedProperty := None;
      parameters := None;
    }

    /** Stores the container and its reference energy, or changes nothing when it has none. */
    method SetGroupedProperty(g: GroupedProperty)
      modifies this
      ensures old(Valid()) ==> Valid()
      ensures Model() == WithGroupedProperty(old(Model()), g)
    {
      var energy := GetElectronicEnergy(g);
      if energy.None? {
        return;
      }
      referenceEnergy := energy.value.referenceEnergy;
      groupedProperty := Some(g);
    }

    /** Records the ansatz, takes its excitation list and drops the cache. */
    method SetAnsatz(a: Ansatz)
      modifies this
      ensures Valid()
      ensures Model() == WithAnsatz(old(Model()), a)
    {
      parameters := None;
      excitationList := Some(a.excitationList);
      ansatz := Some(a);
    }

    /** Replaces the excitation list and drops the cache; the ansatz is kept. */
    method SetExcitationList(excitations: ExcitationList)
      modifies this
      ensures Valid()
      ensures Model() == WithExcitationList(old(Model()), excitations)
    {
      parameters := None;
      excitationList := Some(excitations);
    }

    /** Returns the cached vector, computing it first when there is none. */
    method ToNumpyArray() returns (r: Result<seq<real>, Error>)
      modifies this
      ensures old(Valid()) ==> Valid()
      ensures (Model(), r) == ToArray(old(Model()))
    {
      if parameters.None? {
        var outcome := Compute(None, None);
        if outcome.Fail? {
          return Failure(outcome.error);
        }
      }
      r := Success(parameters.value);
    }

    /** Applies the optional arguments, then fills the cache or fails without a list. */
    method Compute(a: Option<Ansatz>, g: Option<GroupedProperty>) returns (outcome: Outcome<Error>)
      modifies this
      ensures outcome.Pass? || old(Valid()) ==> Valid()
      ensures (Model(), outcome) == ComputeStep(old(Model()), a, g)
    {
      if g.Some? {
        SetGroupedProperty(g.value);
      }
      if a.Some? {
        SetAnsatz(a.value);
      }
      if excitationList.None? {
        return Fail(MissingExcitationList);
      }
      FillCache();
      outcome := Pass;
    }

    /** `_compute`: one zero per excitation of the current list. */
    method FillCache()
      requires excitationList.Some?
      modifies this
      ensures Valid()
      ensures Model() == FillParameters(old(Model()))
    {
      parameters := Some(ZeroParameters(excitationList.value));
    }

    /** The stored reference energy. */
    method GetEnergy() returns (e: Option<real>)
      ensures e == Model().referenceEnergy
    {
      e := referenceEnergy;
    }
  }

  // ---------------------------------------------------------------------------
  // Properties of single operations
  // ---------------------------------------------------------------------------

  /** A fresh instance has nothing set and reference energy zero. */
  lemma InitialIsEmpty()
    ensures Initial().ansatz.None? && Initial().excitationList.None? && Initial().parameters.None?
    ensures Initial().referenceEnergy == Some(0.0)
    ensures CacheConsistent(Initial())
  {
  }

  /**
   * The grouped-property setter changes nothing when the container has no
   * electronic energy; otherwise it stores the property's reference energy as it
   * is (a null one included) and the container, and nothing else.
   */
  lemma GroupedPropertySetterEffect(s: State, g: GroupedProperty)
    ensures GetElectronicEnergy(g).None? ==> WithGroupedProperty(s, g) == s
    ensures GetElectronicEnergy(g).Some? ==>
      WithGroupedProperty(s, g).referenceEnergy == GetElectronicEnergy(g).value.referenceEnergy &&
      WithGroupedProperty(s, g).groupedProperty == Some(g)
    ensures WithGroupedProperty(s, g).ansatz == s.ansatz
    ensures WithGroupedProperty(s, g).excitationList == s.excitationList
    ensures WithGroupedProperty(s, g).parameters == s.parameters
    ensures CacheConsistent(s) ==> CacheConsistent(WithGroupedProperty(s, g))
  {
  }

  /** A container without an electronic-energy property leaves the energy and the stored container where they were. */
  lemma MissingEnergyKeepsEnergy(s: State, g: GroupedProperty)
    requires GetElectronicEnergy(g).None?
    ensures WithGroupedProperty(s, g).referenceEnergy == s.referenceEnergy
    ensures WithGroupedProperty(s, g).groupedProperty == s.groupedProperty
  {
  }

  /** The energy setter stores a null reference energy as null: it is not turned into zero. */
  lemma NullReferenceEnergyIsStored(s: State, g: GroupedProperty)
    requires GetElectronicEnergy(g) == Some(ElectronicEnergy(None))
    ensures WithGroupedProperty(s, g).referenceEnergy.None?
  {
  }

  /** The ansatz setter drops the cache, takes the ansatz's list and records the ansatz. */
  lemma AnsatzSetterEffect(s: State, a: Ansatz)
    ensures WithAnsatz(s, a).parameters.None?
    ensures WithAnsatz(s, a).excitationList == Some(a.excitationList)
    ensures WithAnsatz(s, a).ansatz == Some(a)
    ensures WithAnsatz(s, a).referenceEnergy == s.referenceEnergy
    ensures WithAnsatz(s, a).groupedProperty == s.groupedProperty
    ensures CacheConsistent(WithAnsatz(s, a))
  {
  }

  /** The excitation-list setter drops the cache and replaces the list, and nothing else. */
  lemma ExcitationListSetterEffect(s: State, excitations: ExcitationList)
    ensures WithExcitationList(s, excitations).parameters.None?
    ensures WithExcitationList(s, excitations).excitationList == Some(excitations)
    ensures WithExcitationList(s, excitations).ansatz == s.ansatz
    ensures WithExcitationList(s, excitations).referenceEnergy == s.referenceEnergy
    ensures WithExcitationList(s, excitations).groupedProperty == s.groupedProperty
    ensures CacheConsistent(WithExcitationList(s, excitations))
  {
  }

  /**
   * Setting an excitation list after an ansatz keeps the ansatz: the recorded
   * ansatz and the active list may disagree.
   */
  lemma ExcitationListOverridesAnsatz(s: State, a: Ansatz, excitations: ExcitationList)
    requires excitations != a.excitationList
    ensures WithExcitationList(WithAnsatz(s, a), excitations).ansatz == Some(a)
    ensures WithExcitationList(WithAnsatz(s, a), excitations).excitationList.value != a.excitationList
  {
  }

  /** `compute` keeps the cache consistent, whether it succeeds or fails. */
  lemma ComputeKeepsCacheConsistent(s: State, a: Option<Ansatz>, g: Option<GroupedProperty>)
    requires CacheConsistent(s)
    ensures CacheConsistent(ComputeStep(s, a, g).0)
  {
  }

  /**
   * The grouped property is applied before the missing-list check: when `compute`
   * fails, the energy it read from the container stays.
   */
  lemma EnergyPersistsWhenComputeFails(s: State, g: GroupedProperty)
    requires s.excitationList.None?
    requires GetElectronicEnergy(g).Some?
    ensures ComputeStep(s, None, Some(g)).1 == Fail(MissingExcitationList)
    ensures ComputeStep(s, None, Some(g)).0.referenceEnergy == GetElectronicEnergy(g).value.referenceEnergy
    ensures ComputeStep(s, None, Some(g)).0.parameters == s.parameters
  {
  }

  /** Calling `compute` twice with the same arguments gives the same state and outcome as once. */
  lemma ComputeIsIdempotent(s: State, a: Option<Ansatz>, g: Option<GroupedProperty>)
    ensures ComputeStep(ComputeStep(s, a, g).0, a, g) == ComputeStep(s, a, g)
  {
  }

  /** Two successive `to_numpy_array` calls return the same result, and the second changes nothing. */
  lemma ToArrayIsStable(s: State)
    ensures ToArray(ToArray(s).0) == (ToArray(s).0, ToArray(s).1)
  {
  }

  /** After the excitation list is set, `to_numpy_array` returns one zero per new excitation. */
  lemma SetListThenToArray(s: State, excitations: ExcitationList)
    ensures ToArray(WithExcitationList(s, excitations)).1 == Success(ZeroParameters(excitations))
    ensures |ToArray(WithExcitationList(s, excitations)).1.value| == |excitations|
  {
  }

  /** The list [((0,), (2,)), ((1,), (3,))] gives the initial point [0.0, 0.0]. */
  lemma TwoExcitationScenario()
    ensures ToArray(WithExcitationList(Initial(), [([0], [2]), ([1], [3])])).1 == Success([0.0, 0.0])
  {
    assert ZeroParameters([([0], [2]), ([1], [3])]) == [0.0, 0.0];
  }

  /** A container whose energy property holds -1.137 makes the reported energy exactly -1.137. */
  lemma ReferenceEnergyScenario()
    ensures WithGroupedProperty(
      Initial(),
      GroupedProperty(map[ElectronicEnergyName := EnergyProperty(ElectronicEnergy(Some(-1.137)))])
    ).referenceEnergy == Some(-1.137)
  {
  }

  // ---------------------------------------------------------------------------
  // Properties of sequences of operations
  // ---------------------------------------------------------------------------

  /** One call on the public interface of an `HFInitialPoint`. */
  datatype Op =
    | SetGroupedPropertyOp(property: GroupedProperty)
    | SetAnsatzOp(newAnsatz: Ansatz)
    | SetExcitationListOp(excitations: ExcitationList)
    | ComputeOp(ansatzArg: Option<Ansatz>, propertyArg: Option<GroupedProperty>)
    | ToArrayOp

  /** The state after one call (a call that raises leaves the state it reached). */
  function Apply(s: State, op: Op): State {
    match op
    case SetGroupedPropertyOp(g) => WithGroupedProperty(s, g)
    case SetAnsatzOp(a) => WithAnsatz(s, a)
    case SetExcitationListOp(excitations) => WithExcitationList(s, excitations)
    case ComputeOp(a, g) => ComputeStep(s, a, g).0
    case ToArrayOp => ToArray(s).0
  }

  /** The state after the calls in order. */
  function Run(s: State, ops: seq<Op>): State
    decreases |ops|
  {
    if ops == [] then s else Run(Apply(s, ops[0]), ops[1..])
  }

  /** The calls that supply an excitation list. */
  predicate SuppliesList(op: Op) {
    op.SetAnsatzOp? || op.SetExcitationListOp? || (op.ComputeOp? && op.ansatzArg.Some?)
  }

  /** Every call keeps the cache consistent. */
  lemma ApplyKeepsCacheConsistent(s: State, op: Op)
    requires CacheConsistent(s)
    ensures CacheConsistent(Apply(s, op))
  {
  }

  /** A call leaves an excitation list in place exactly when there was one or it supplies one. */
  lemma ApplyListAvailable(s: State, op: Op)
    ensures Apply(s, op).excitationList.Some? <==> s.excitationList.Some? || SuppliesList(op)
  {
  }

  /** Any sequence of calls keeps the cache consistent. */
  lemma {:induction false} RunKeepsCacheConsistent(s: State, ops: seq<Op>)
    requires CacheConsistent(s)
    ensures CacheConsistent(Run(s, ops))
    decreases |ops|
  {
    if ops != [] {
      ApplyKeepsCacheConsistent(s, ops[0]);
      RunKeepsCacheConsistent(Apply(s, ops[0]), ops[1..]);
    }
  }

  /** In every state reachable from a fresh instance the cache matches the excitation list. */
  lemma {:induction false} ReachableCacheConsistent(ops: seq<Op>)
    ensures CacheConsistent(Run(Initial(), ops))
  {
    RunKeepsCacheConsistent(Initial(), ops);
  }

  /** An excitation list is available after some calls exactly when there was one or one of them supplied it. */
  lemma {:induction false} RunListAvailable(s: State, ops: seq<Op>)
    ensures Run(s, ops).excitationList.Some? <==>
      s.excitationList.Some? || exists k :: 0 <= k < |ops| && SuppliesList(ops[k])
    decreases |ops|
  {
    if ops != [] {
      var next := Apply(s, ops[0]);
      ApplyListAvailable(s, ops[0]);
      RunListAvailable(next, ops[1..]);
      if exists k :: 0 <= k < |ops[1..]| && SuppliesList(ops[1..][k]) {
        var k :| 0 <= k < |ops[1..]| && SuppliesList(ops[1..][k]);
        assert SuppliesList(ops[k + 1]);
      }
      if exists k :: 0 <= k < |ops| && SuppliesList(ops[k]) {
        var k :| 0 <= k < |ops| && SuppliesList(ops[k]);
        if k > 0 {
          assert ops[1..][k - 1] == ops[k];
        }
      }
    }
  }

  /**
   * On an instance built fresh and then used, `compute` fails exactly when it is given
   * no ansatz and no earlier call supplied an excitation list.
   */
  lemma {:induction false} ComputeFailsIffNoListSupplied(ops: seq<Op>, a: Option<Ansatz>, g: Option<GroupedProperty>)
    ensures ComputeStep(Run(Initial(), ops), a, g).1.Fail? <==>
      a.None? && forall k :: 0 <= k < |ops| ==> !SuppliesList(ops[k])
  {
    RunListAvailable(Initial(), ops);
  }

  /** The calls that read a reference energy from a container holding an electronic-energy property. */
  predicate ObtainsEnergy(op: Op) {
    (op.SetGroupedPropertyOp? && GetElectronicEnergy(op.property).Some?) ||
    (op.ComputeOp? && op.propertyArg.Some? && GetElectronicEnergy(op.propertyArg.value).Some?)
  }

  /** Calls that obtain no electronic energy leave the reference energy as it was. */
  lemma {:induction false} EnergyUnchangedUnlessObtained(s: State, ops: seq<Op>)
    requires forall k :: 0 <= k < |ops| ==> !ObtainsEnergy(ops[k])
    ensures Run(s, ops).referenceEnergy == s.referenceEnergy
    decreases |ops|
  {
    if ops != [] {
      EnergyUnchangedUnlessObtained(Apply(s, ops[0]), ops[1..]);
    }
  }

  /**
   * The reported energy of an instance is zero unless some call obtained it from an
   * electronic-energy property.
   */
  lemma {:induction false} EnergyZeroUnlessObtained(ops: seq<Op>)
    requires forall k :: 0 <= k < |ops| ==> !ObtainsEnergy(ops[k])
    ensures Run(Initial(), ops).referenceEnergy == Some(0.0)
  {
    EnergyUnchangedUnlessObtained(Initial(), ops);
  }
}
