# workflow — a verified model of a named-transition state machine

The repository is a small TypeScript engine for finite state machines
(`src/workflow.ts`). Rules are registered by name. A `Transition` fires from
one origin state. A `MultiOriginTransition` fires from any state in a list.
Each rule resolves a current state to its destination or to `null`.

`BaseWorkflow` holds the name-to-rule registry, in which the first
registration under a name wins. It also holds an optional guard that rejects
unexpected current states. Two engines build on it:

- `Workflow` answers `can(name, state)` for a bare state value.
- `ClassWorkflow` is bound to one property of an entity class. It answers
  `can(name, instance)`, and `apply(name, instance)` writes the destination
  into that property.

This model reproduces the code's behaviour, including its quirks:

- `Workflow.can` and `apply` test the resolved state for JavaScript
  truthiness. A rule whose destination is `0` or `""` therefore never
  succeeds there. `ClassWorkflow.can` tests `!== null` instead, so it
  accepts that rule (`Laws.EnginesAgreeExceptOnFalsy`,
  `Scenarios.ResetToDraftQuirk`).
- The known-states set is only ever assigned the empty set. With detection
  on, every failed `can` therefore throws the unexpected-state error.
- `can` returns a boolean, as the code does. The doc comment at
  src/workflow.ts:79-83 says it returns the next state or `null`; the model
  follows the code.
- The tests call `can(state, name)` and `apply(entity, name)`. The source
  signatures take the name first. The model uses the source order.

Files:

- `wrappers.dfy`: `Option`, `Result` and `Outcome`. These stand in for
  `null` and for thrown errors.
- `transitions.dfy`: states, rules and `TryTransition`.
- `registry.dfy`: the errors, the registry as a value (`Register`,
  `RegisterAll`, `Lookup`, `Guard`) and the class `BaseWorkflow`.
- `engines.dfy`: the specification functions `TokenCan`, `EntityCan`,
  `EntityApply` and `ValidateProperty`, plus the classes `Workflow`,
  `Entity` and `ClassWorkflow`. Each class method is proved equal to its
  specification function.
- `laws.dfy`: properties that relate the operations to each other.
- `scenarios.dfy`: the repository's test scenarios. The entity-based ones
  are client methods (`PostLifecycle`, `MissingPropertyScenario`,
  `UnexpectedEntityStateScenario`) written against the class contracts
  alone.

TypeScript inheritance (`extends BaseWorkflow`) becomes composition. Each
engine owns a `base: BaseWorkflow`, and callers register rules through
`engine.base.AddTransition`. Thrown errors become `Err`/`Fail` values that
carry the name and/or state named in the message.

## Model

| member | source | states |
|---|---|---|
| Transitions.TryTransition | src/workflow.ts:15-38 | resolution yields a state exactly when the current state is one of the rule's origins (`===` single origin, `includes` list), and that state is the destination |
| Transitions.SingletonMultiIsSingle | src/workflow.ts:15-38 | a multi-origin rule with a one-element list resolves exactly like the single-origin rule |
| Transitions.MultiOriginsConcat | src/workflow.ts:32-38 | a multi-origin rule over `a + b` fires exactly when the rule over `a` or the rule over `b` fires |
| Registry.Register | src/workflow.ts:54-58 | registering adds the name; a name already present keeps its rule and the map is unchanged; a new name maps to the new rule; no other entry changes |
| Registry.RegisterAllFirstWins | src/workflow.ts:54-58 | after any run of registrations the keys are the old keys plus the registered names, old rules are kept, and each new name holds the rule of the first call that registered it |
| Registry.RegisterAllNoOp | src/workflow.ts:54-58 | re-registering names that are all present changes nothing |
| Registry.RegisterAllIdempotent | src/workflow.ts:54-58 | running the same registrations twice leaves the registry as one run did |
| Registry.Lookup | src/workflow.ts:60-67 | lookup succeeds exactly when the name is registered, with the registered rule, and otherwise fails with not-found carrying the name |
| Registry.Guard | src/workflow.ts:69-75 | the guard fails exactly when detection is on and the state is not known, with an unexpected-state error carrying that state |
| Registry.GuardWithNoKnownStates | src/workflow.ts:48-75 | with the only known-states set the code ever has (empty), the guard fails on every state exactly when detection is on |
| Registry.DetectFlag | src/workflow.ts:50-52 | the detection flag is on exactly when the option is given as `true`; absent means off |
| Registry.BaseWorkflow.constructor | src/workflow.ts:45-52 | a new registry is empty, its known-states set is empty, and detection follows the option with default off |
| Registry.BaseWorkflow.AddTransition | src/workflow.ts:54-58 | a registered name leaves the map unchanged; otherwise the map gains exactly `name → rule`; flag and known states are untouched |
| Registry.BaseWorkflow.GetTransition | src/workflow.ts:60-67 | returns exactly what `Lookup` specifies on the current registry |
| Registry.BaseWorkflow.DoDetectUnexpectedState | src/workflow.ts:69-75 | fails exactly as `Guard` specifies on the current flag and known states |
| Engines.TokenCan | src/workflow.ts:84-93 | unknown name gives not-found; `true` exactly when the rule fires to a truthy state; `false` exactly when it does not and the guard passes; any other error is the unexpected-state error for the current state |
| Engines.EntityCan | src/workflow.ts:123-137 | unknown name gives not-found; `true` exactly when the rule fires (falsy destinations included); `false` exactly when it does not and the guard passes; any other error is the unexpected-state error |
| Engines.EntityApply | src/workflow.ts:139-155 | unknown name gives not-found; succeeds exactly when the rule fires to a truthy state, with the rule's destination; any other failure is a rejection carrying the name and current state |
| Engines.ValidateProperty | src/workflow.ts:157-166 | passes exactly when the bound property is defined on the default instance, otherwise fails with invalid-property carrying its name |
| Engines.Workflow.constructor | src/workflow.ts:50-52 | a new token engine has an empty registry and detection defaulting to off |
| Engines.Workflow.Can | src/workflow.ts:84-93 | returns exactly `TokenCan` on the engine's registry, flag and known states, and modifies nothing |
| Engines.ClassWorkflow.constructor | src/workflow.ts:112-121 | once validation has passed, the engine is bound to the property and has an empty registry |
| Engines.ClassWorkflow.Create | src/workflow.ts:112-121 | construction fails with invalid-property exactly when the property is undefined on the default instance, and otherwise yields a fresh engine with no transitions |
| Engines.ClassWorkflow.Can | src/workflow.ts:123-137 | returns exactly `EntityCan` on the instance's bound property, and modifies nothing |
| Engines.ClassWorkflow.Apply | src/workflow.ts:139-155 | on success the bound property becomes exactly the destination and nothing else changes; on failure it returns the error and the instance is untouched |
| Laws.UnknownNameAlwaysFails | src/workflow.ts:60-67 | an unknown name fails with not-found in both `can`s and in `apply`, whatever the flag, known states or current state |
| Laws.FailedCanWithNoKnownStates | src/workflow.ts:69-93 | with the empty known-states set, a failed `can` throws unexpected-state when detection is on and returns `false` when off |
| Laws.KnownStateNeverUnexpected | src/workflow.ts:69-75 | a current state in the known set never trips the guard: `can` returns a boolean |
| Laws.DetectionOffNeverThrows | src/workflow.ts:51 | with detection off, `can` on a registered name never throws |
| Laws.EnginesAgreeExceptOnFalsy | src/workflow.ts:88-130 | the two `can`s agree exactly except when the rule fires towards a falsy destination |
| Laws.ApplyImpliesCan | src/workflow.ts:139-155 | a successful `apply` implies both `can`s report `true`, under any guard settings |
| Laws.ApplyMatchesTokenCan | src/workflow.ts:139-155 | `apply` succeeds exactly where the token `can` reports `true`, and never raises the guard's error |
| Laws.FalsyDestinationAlwaysRejected | src/workflow.ts:139-155 | a rule to `0` or `""` is rejected by `apply` from every state and never makes the token `can` true, while the entity `can` accepts its origins |
| Laws.SingleRuleCan | src/workflow.ts:15-21 | for a registered single-origin rule with a truthy destination and detection off, both `can`s are `current == origin` and `apply` yields the destination exactly from the origin |
| Laws.MultiRuleCan | src/workflow.ts:32-38 | for a registered multi-origin rule with a truthy destination and detection off, both `can`s are list membership and `apply` yields the destination exactly from a listed origin |
| Scenarios.BlogTable | src/workflow.spec.ts:33-39 | the four registrations of the test build exactly the expected registry |
| Scenarios.TokenLifecycle | src/workflow.spec.ts:41-61 | from each lifecycle state exactly the expected transitions are allowed |
| Scenarios.UnknownTransitionScenario | src/workflow.spec.ts:11-26 | an unknown name throws not-found even with detection on |
| Scenarios.UnexpectedStateScenario | src/workflow.spec.ts:64-81 | with detection on, a failed `can` from `invalid` throws unexpected-state carrying `invalid` |
| Scenarios.NewPostWorkflow | src/workflow.spec.ts:99-122 | creating the engine bound to `status` and registering the test's four transitions yields exactly that registry, with detection off and no known states |
| Scenarios.PostLifecycle | src/workflow.spec.ts:98-149 | against the class contracts: from Draft only `publish` is allowed; after it only `abort` and `complete`; after `abort`, `archive` is allowed and `apply` of `complete` is rejected with the name and state 2, which the post keeps |
| Scenarios.MissingPropertyScenario | src/workflow.spec.ts:151-167 | binding `nonExistentProperty` fails at construction with invalid-property carrying that name |
| Scenarios.UnexpectedEntityStateScenario | src/workflow.spec.ts:169-194 | with detection on, a post in the unused state 5 makes a failed `can` throw unexpected-state carrying 5 |
| Scenarios.ResetToDraftQuirk | src/workflow.ts:139-155 | a rule back to enum value 0 is accepted by the entity `can`, refused by the token `can` and rejected by `apply` |

## Left out

- JavaScript reflection and TypeScript typing are not modelled: `new this.entity()`, the `typeof … === "undefined"` test, the `Constructor` type and the mapped `stateProperty` type. An entity class is given by the properties its default instance defines (a map), and an instance by its current properties.
- Engines.ClassWorkflow.Can: requires the bound property to be present on the instance. The TypeScript type of `stateProperty` guarantees this for typed callers; an instance whose property is `undefined` is not modelled.
- Engines.ClassWorkflow.Apply: requires the bound property to be present on the instance, for the same reason as `Can`.
- Numbers are modelled as integers. NaN and ±0, where `===` and the SameValueZero of `includes` and `Set.has` disagree, are not modelled.
- Error message text is not modelled (template strings, `toString()` of numbers). Each error is a constructor carrying the name and/or state that its message names.
- Rules are immutable values. In the code, `MultiOriginTransition` keeps the caller's origin array by reference (src/workflow.ts:25-28), and the registry stores rule objects by reference (src/workflow.ts:46, 56). So a caller who changes that array after `addTransition` changes which states the registered rule accepts. The model does not capture that aliasing.
- `ITransition` is open to user-written rules in TypeScript. Only its two implementations in the file are modelled, as a closed datatype.
- The known-states set has no operation that adds to it, as in the code. The guard is still modelled against an arbitrary set, so the laws cover a populated set too.
- The `node:test` harness is not modelled. Its scenarios are restated as lemmas and client methods.
- There is no concurrency or I/O in the code.
