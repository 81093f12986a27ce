# HFInitialPoint: the Hartree-Fock initial point of qiskit-nature

This project models `HFInitialPoint` from
`qiskit_nature/algorithms/initial_points/hf_initial_point.py`. The class seeds the
parameters of a UCC variational ansatz with an all-zero vector, one entry per excitation
of the ansatz's excitation list. It also reports the Hartree-Fock reference energy,
which it reads from an optional grouped property container.

The object has these fields: an optional ansatz, an optional excitation list, a
reference energy (initially 0.0), the last grouped property container it accepted, and an
optional cached parameter vector. Its setters and its `compute` method change these
fields in place.

- `wrappers.dfy` defines `Option`, `Result` and `Outcome`. `None` stands for Python's
  `None`. A raised `QiskitNatureError` is `Fail`/`Failure(MissingExcitationList)`.
- `hf_initial_point.dfy` (module `InitialPoints`) contains:
  - the data: excitations, the ansatz, the electronic-energy property and the grouped container;
  - the value `State` of every field, and one transition function per operation
    (`WithGroupedProperty`, `WithAnsatz`, `WithExcitationList`, `FillParameters`,
    `ComputeStep`, `ToArray`);
  - the class `HFInitialPoint`. Its fields are updated in place. Each method's
    postcondition ties `Model()`, the fields read as a `State`, to the transition
    function applied to the old state;
  - lemmas on the transition functions for single calls;
  - lemmas on arbitrary sequences of calls (`Op`, `Apply`, `Run`).

`Valid()` is the object invariant: the cached vector, if any, has one zero per
excitation of the current list. The constructor establishes it. The ansatz and
excitation-list setters, a successful `Compute` and `FillCache` establish it outright. The
grouped-property setter, `ToNumpyArray` and a failing `Compute` keep it.
`ReachableCacheConsistent` proves that it holds after any sequence of calls on a fresh
instance. This relies on lists being values (see "Left out" on aliasing).

Where the code and its documentation disagree, the model follows the code:

- Line 71 reads `electronic_energy.reference_energy if not None else 0.0`. The condition
  `not None` is always true, so a null `reference_energy` is stored as null. It is not
  replaced by zero. The stored energy is therefore an `Option<real>`, and it starts as
  `Some(0.0)`. `NullReferenceEnergyIsStored` states this behaviour.
- When the container holds no electronic energy, the setter returns early (lines 64-69).
  Both the energy and the previously stored container stay as they were. Nothing is
  cleared.
- Setting the excitation list directly does not clear the recorded ansatz (lines
  102-107). The two can therefore disagree, as `ExcitationListOverridesAnsatz` shows.

## Model

| member | source | states |
|---|---|---|
| `InitialPoints.HFInitialPoint.constructor` | qiskit_nature/algorithms/initial_points/hf_initial_point.py:45-50 | a fresh object is in the initial state (no ansatz, no list, no cache, energy 0.0) and satisfies the cache invariant |
| `InitialPoints.InitialIsEmpty` | qiskit_nature/algorithms/initial_points/hf_initial_point.py:45-50 | the initial state has no ansatz, no excitation list, no parameters, reference energy 0.0, and a consistent cache |
| `InitialPoints.HFInitialPoint.SetGroupedProperty` | qiskit_nature/algorithms/initial_points/hf_initial_point.py:61-72 | the new fields are those of `WithGroupedProperty` on the old ones; the cache invariant is kept |
| `InitialPoints.GroupedPropertySetterEffect` | qiskit_nature/algorithms/initial_points/hf_initial_point.py:61-72 | no electronic energy in the container: the state is unchanged; otherwise the energy becomes exactly the property's reference energy and the container is stored; ansatz, list and cache never change |
| `InitialPoints.MissingEnergyKeepsEnergy` | qiskit_nature/algorithms/initial_points/hf_initial_point.py:63-69 | a container from which no electronic energy is obtained leaves the reference energy and the stored container as they were |
| `InitialPoints.NullReferenceEnergyIsStored` | qiskit_nature/algorithms/initial_points/hf_initial_point.py:71 | a null reference energy is stored as null, not as 0.0 |
| `InitialPoints.ReferenceEnergyScenario` | qiskit_nature/algorithms/initial_points/hf_initial_point.py:61-72 | a container whose energy property holds -1.137 makes the stored energy exactly -1.137 |
| `InitialPoints.HFInitialPoint.SetAnsatz` | qiskit_nature/algorithms/initial_points/hf_initial_point.py:83-92 | the new fields are those of `WithAnsatz` on the old ones; the cache invariant holds afterwards |
| `InitialPoints.AnsatzSetterEffect` | qiskit_nature/algorithms/initial_points/hf_initial_point.py:83-92 | the ansatz setter clears the cache, takes the ansatz's excitation list and records the ansatz; energy and container are unchanged |
| `InitialPoints.HFInitialPoint.SetExcitationList` | qiskit_nature/algorithms/initial_points/hf_initial_point.py:102-107 | the new fields are those of `WithExcitationList` on the old ones; the cache invariant holds afterwards |
| `InitialPoints.ExcitationListSetterEffect` | qiskit_nature/algorithms/initial_points/hf_initial_point.py:102-107 | the list setter clears the cache and replaces the list; ansatz, energy and container are unchanged |
| `InitialPoints.ExcitationListOverridesAnsatz` | qiskit_nature/algorithms/initial_points/hf_initial_point.py:102-107 | after an ansatz and then a different list are set, the recorded ansatz stays while the active list is not the ansatz's |
| `InitialPoints.HFInitialPoint.ToNumpyArray` | qiskit_nature/algorithms/initial_points/hf_initial_point.py:109-113 | the result and the new fields are those of `ToArray` on the old fields; the cache invariant is kept |
| `InitialPoints.ToArray` | qiskit_nature/algorithms/initial_points/hf_initial_point.py:109-113 | a cached vector is returned unchanged and the state is untouched; without a cache it fails exactly when there is no list, leaving the state; only the cache ever changes, and on success it holds the returned vector; on a consistent state the returned vector is one zero per excitation of the list held before the call |
| `InitialPoints.ToArrayIsStable` | qiskit_nature/algorithms/initial_points/hf_initial_point.py:109-113 | two successive calls return identical results and the second changes nothing |
| `InitialPoints.SetListThenToArray` | qiskit_nature/algorithms/initial_points/hf_initial_point.py:102-113 | after a list is set, whatever was cached before, the array is one zero per excitation of the new list |
| `InitialPoints.TwoExcitationScenario` | qiskit_nature/algorithms/initial_points/hf_initial_point.py:147-150 | the list [((0,), (2,)), ((1,), (3,))] yields [0.0, 0.0] |
| `InitialPoints.HFInitialPoint.Compute` | qiskit_nature/algorithms/initial_points/hf_initial_point.py:115-147 | the outcome and the new fields are those of `ComputeStep` on the old fields and the arguments; the cache invariant holds after a success and is kept otherwise |
| `InitialPoints.ComputeStep` | qiskit_nature/algorithms/initial_points/hf_initial_point.py:133-150 | fails exactly when no ansatz is given and no list is set; on failure the state is the grouped-property setter's result and no parameters are computed; on success the cache has one zero per excitation; the ansatz argument, when given, becomes ansatz and list; energy and container are the grouped-property setter's |
| `InitialPoints.ComputeKeepsCacheConsistent` | qiskit_nature/algorithms/initial_points/hf_initial_point.py:133-150 | `compute` keeps the cache consistent whether it succeeds or fails |
| `InitialPoints.EnergyPersistsWhenComputeFails` | qiskit_nature/algorithms/initial_points/hf_initial_point.py:133-145 | with no list, `compute` given only a container with an energy fails, yet keeps the energy it read; no parameters are computed |
| `InitialPoints.ComputeIsIdempotent` | qiskit_nature/algorithms/initial_points/hf_initial_point.py:133-150 | calling `compute` twice with the same arguments gives the same state and outcome as calling it once |
| `InitialPoints.HFInitialPoint.FillCache` | qiskit_nature/algorithms/initial_points/hf_initial_point.py:149-150 | the cache becomes one zero per excitation of the current list; nothing else changes |
| `InitialPoints.HFInitialPoint.GetEnergy` | qiskit_nature/algorithms/initial_points/hf_initial_point.py:152-159 | returns the stored reference energy; `EnergyZeroUnlessObtained` gives its value when no container supplied one |
| `InitialPoints.ApplyKeepsCacheConsistent` | qiskit_nature/algorithms/initial_points/hf_initial_point.py:61-150 | every public call keeps the cache consistent with the list |
| `InitialPoints.ApplyListAvailable` | qiskit_nature/algorithms/initial_points/hf_initial_point.py:83-145 | after a call a list is available exactly when one was before or the call supplied one (ansatz setter, list setter, `compute` with an ansatz) |
| `InitialPoints.RunKeepsCacheConsistent` | qiskit_nature/algorithms/initial_points/hf_initial_point.py:61-150 | any sequence of calls keeps the cache consistent |
| `InitialPoints.ReachableCacheConsistent` | qiskit_nature/algorithms/initial_points/hf_initial_point.py:45-150 | in every state reachable from a fresh instance the cache is absent or has one zero per excitation of the list (lists taken as values) |
| `InitialPoints.RunListAvailable` | qiskit_nature/algorithms/initial_points/hf_initial_point.py:83-145 | after a sequence of calls a list is available exactly when there was one or some call supplied one |
| `InitialPoints.ComputeFailsIffNoListSupplied` | qiskit_nature/algorithms/initial_points/hf_initial_point.py:136-145 | on a fresh instance used by any calls, `compute` fails exactly when it gets no ansatz and no earlier call supplied a list |
| `InitialPoints.EnergyUnchangedUnlessObtained` | qiskit_nature/algorithms/initial_points/hf_initial_point.py:61-72 | a sequence of calls none of which obtains an electronic energy from a container leaves the reference energy as it was |
| `InitialPoints.EnergyZeroUnlessObtained` | qiskit_nature/algorithms/initial_points/hf_initial_point.py:152-159 | on a fresh instance, the energy `get_energy` reports is 0.0 unless some call obtained it from an electronic-energy property |

## Left out

- Building the ansatz's operators (`ansatz.operators`, line 86) is a side effect inside the
  UCC circuit library. The ansatz is modelled only as the excitation list it supplies,
  which is assumed to be a list and never null. In the source, an ansatz whose
  `excitation_list` is still null stores null at line 91, and then `compute` fails at line 139
  even though an ansatz was given. `ComputeStep`'s "fails exactly when no ansatz is given and
  no list is set", `ApplyListAvailable`, `RunListAvailable` and
  `ComputeFailsIffNoListSupplied` depend on this assumption.
- `GroupedSecondQuantizedProperty.get_property` and the internals of `ElectronicEnergy` are
  not part of this model. The container is a map from property name to property. The
  lookup `GetElectronicEnergy` returns the entry under `"ElectronicEnergy"` when it is an
  electronic-energy property, and nothing otherwise.
- The warning emitted at lines 65-68 is not modelled. Only its effect is: nothing changes.
- numpy arrays and floating point are not modelled. The vector is a `seq<real>` of exact zeros.
- The property getters (lines 52-59, 74-81, 94-100) are not modelled as operations, because the
  fields they return are public fields of the class. The base class `InitialPoint` is not part
  of this model. The `_grouped_property` field that it would initialise starts as `None` here.
- The UCC circuit, the spin-operator module (`LinearMapper`, `LogarithmicMapper`, re-exported
  by `qiskit_nature/second_quantization/operators/spin/__init__.py`) and concurrent use of one
  object are not part of this model.
- Aliasing of lists is not modelled. The source stores the caller's list object itself
  (lines 91 and 107) and returns the cached array object itself (line 113). In the model,
  excitation lists and the vector are values. A caller who changes the list in place after
  handing it over, for example by appending to it after `compute`, leaves the source with a
  cache whose length no longer matches the list. `ReachableCacheConsistent`,
  `RunKeepsCacheConsistent` and `Valid()` assume the caller never changes a list it has
  handed over.
