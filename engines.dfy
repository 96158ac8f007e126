/**
 * The two engines over the shared registry: the token-based `Workflow`
 * (src/workflow.ts, lines 78-94) and the entity-based `ClassWorkflow`
 * (lines 96-167). TypeScript's `extends BaseWorkflow` becomes a `base`
 * registry object that each engine owns.
 */
module Engines {
  import opened Wrappers
  import opened Transitions
  import opened Registry

  /** The rule under `name` fires from `current` (resolution yields a non-null state). */
  ghost predicate Fires(table: map<string, Rule>, name: string, current: State) {
    name in table && current in Origins(table[name])
  }

  /**
   * `Workflow.can(name, current)`: look the rule up, then report `true` when
   * resolution yields a TRUTHY state; otherwise run the guard and report
   * `false`. A rule whose destination is `0` or `""` therefore never
   * reports `true` here.
   */
  function TokenCan(table: map<string, Rule>, detect: bool, known: set<State>, name: string, current: State)
    : (r: Result<bool, WorkflowError>)
    ensures name !in table ==> r == Err(TransitionNotFound(name))
    ensures r == Ok(true) <==> Fires(table, name, current) && !Falsy(table[name].to)
    ensures r == Ok(false) <==> name in table && !(Fires(table, name, current) && !Falsy(table[name].to))
                                && !(detect && current !in known)
    ensures name in table && r.Err? ==> r == Err(UnexpectedState(current))
  {
    match Lookup(table, name)
    case Err(e) => Err(e)
    case Ok(rule) =>
      var next := TryTransition(rule, current);
      if next.Some? && !Falsy(next.value) then Ok(true)
      else match Guard(detect, known, current)
        case Fail(e) => Err(e)
        case Pass => Ok(false)
  }

  /**
   * `ClassWorkflow.can(name, instance)` on the instance's current state:
   * `true` whenever resolution yields a non-null state (`!== null`, so a
   * falsy destination still counts); otherwise the guard, then `false`.
   */
  function EntityCan(table: map<string, Rule>, detect: bool, known: set<State>, name: string, current: State)
    : (r: Result<bool, WorkflowError>)
    ensures name !in table ==> r == Err(TransitionNotFound(name))
    ensures r == Ok(true) <==> Fires(table, name, current)
    ensures r == Ok(false) <==> name in table && !Fires(table, name, current) && !(detect && current !in known)
    ensures name in table && r.Err? ==> r == Err(UnexpectedState(current))
  {
    match Lookup(table, name)
    case Err(e) => Err(e)
    case Ok(rule) =>
      var next := TryTransition(rule, current);
      if next != None then Ok(true)
      else match Guard(detect, known, current)
        case Fail(e) => Err(e)
        case Pass => Ok(false)
  }

  /**
   * `ClassWorkflow.apply(name, instance)` on the instance's current state:
   * the state to write, or the error thrown instead. A null or falsy
   * resolution is rejected with the name and the current state; the guard
   * is never consulted.
   */
  function EntityApply(table: map<string, Rule>, name: string, current: State)
    : (r: Result<State, WorkflowError>)
    ensures name !in table ==> r == Err(TransitionNotFound(name))
    ensures r.Ok? <==> Fires(table, name, current) && !Falsy(table[name].to)
    ensures r.Ok? ==> r.value == table[name].to
    ensures name in table && r.Err? ==> r == Err(TransitionRejected(name, current))
  {
    match Lookup(table, name)
    case Err(e) => Err(e)
    case Ok(rule) =>
      var next := TryTransition(rule, current);
      if next.None? || Falsy(next.value) then Err(TransitionRejected(name, current))
      else Ok(next.value)
  }

  /**
   * `validateProperty`: a default instance is given by the properties it
   * defines; the bound property must be one of them.
   */
  function ValidateProperty(defaults: map<string, State>, property: string): (o: Outcome<WorkflowError>)
    ensures o.Pass? <==> property in defaults
    ensures o.Fail? ==> o.error == InvalidProperty(property)
  {
    if property !in defaults then Fail(InvalidProperty(property)) else Pass
  }

  /** The token-based engine. */
  class Workflow {
    const base: BaseWorkflow

    constructor (options: BaseWorkflowOptions)
      ensures fresh(base) && base.Valid() && base.transitions == map[]
      ensures base.detectUnexpectedState <==> options.detectUnexpectedState == Some(true)
    {
      base := new BaseWorkflow(options);
    }

    /** Whether `name` may fire from `current`; never changes the registry. */
    method Can(name: string, current: State) returns (r: Result<bool, WorkflowError>)
      ensures r == TokenCan(base.transitions, base.detectUnexpectedState, base.states, name, current)
    {
      var transition := base.GetTransition(name);
      if transition.Err? {
        return Err(transition.error);
      }
      var state := TryTransition(transition.value, current);
      if state.Some? && !Falsy(state.value) {
        return Ok(true);
      }
      var guard := base.DoDetectUnexpectedState(current);
      if guard.Fail? {
        return Err(guard.error);
      }
      r := Ok(false);
    }
  }

  /** An instance of the caller's entity class: its defined properties. */
  class Entity {
    var fields: map<string, State>

    constructor (fields: map<string, State>)
      ensures this.fields == fields
    {
      this.fields := fields;
    }
  }

  /**
   * `ClassWorkflowOptions`: the entity class is given by the properties a
   * default instance defines.
   */
  datatype ClassWorkflowOptions = ClassWorkflowOptions(
    defaults: map<string, State>,
    stateProperty: string,
    detectUnexpectedState: Option<bool>)

  /** The entity-based engine, bound to one state property of the entity class. */
  class ClassWorkflow {
    const base: BaseWorkflow
    const stateProperty: string

    /** The construction that `validateProperty` lets through. */
    constructor (options: ClassWorkflowOptions)
      requires ValidateProperty(options.defaults, options.stateProperty).Pass?
      ensures fresh(base) && base.Valid() && base.transitions == map[]
      ensures base.detectUnexpectedState <==> options.detectUnexpectedState == Some(true)
      ensures stateProperty == options.stateProperty
    {
      base := new BaseWorkflow(BaseWorkflowOptions(options.detectUnexpectedState));
      stateProperty := options.stateProperty;
    }

    /**
     * `new ClassWorkflow(options)`: fails with an invalid-property error when
     * the bound property is undefined on a default instance, and otherwise
     * yields an engine with no transitions.
     */
    static method Create(options: ClassWorkflowOptions) returns (r: Result<ClassWorkflow, WorkflowError>)
      ensures r.Err? <==> options.stateProperty !in options.defaults
      ensures r.Err? ==> r.error == InvalidProperty(options.stateProperty)
      ensures r.Ok? ==> fresh(r.value) && fresh(r.value.base) && r.value.base.Valid()
                        && r.value.base.transitions == map[]
                        && r.value.stateProperty == options.stateProperty
                        && (r.value.base.detectUnexpectedState <==> options.detectUnexpectedState == Some(true))
    {
      var valid := ValidateProperty(options.defaults, options.stateProperty);
      if valid.Fail? {
        return Err(valid.error);
      }
      var w := new ClassWorkflow(options);
      r := Ok(w);
    }

    /** Whether `name` may fire from the instance's state; changes nothing. */
    method Can(name: string, instance: Entity) returns (r: Result<bool, WorkflowError>)
      requires stateProperty in instance.fields
      ensures r == EntityCan(base.transitions, base.detectUnexpectedState, base.states,
                             name, instance.fields[stateProperty])
    {
      var current := instance.fields[stateProperty];
      var transition := base.GetTransition(name);
      if transition.Err? {
        return Err(transition.error);
      }
      var nextState := TryTransition(transition.value, current);
      if nextState != None {
        return Ok(true);
      }
      var guard := base.DoDetectUnexpectedState(current);
      if guard.Fail? {
        return Err(guard.error);
      }
      r := Ok(false);
    }

    /**
     * Fires `name` on the instance: writes exactly the destination into the
     * bound property, or throws and leaves the instance as it was.
     */
    method Apply(name: string, instance: Entity) returns (o: Outcome<WorkflowError>)
      requires stateProperty in instance.fields
      modifies instance`fields
      ensures var res := EntityApply(base.transitions, name, old(instance.fields[stateProperty]));
        && (o.Pass? <==> res.Ok?)
        && (res.Ok? ==> instance.fields == old(instance.fields)[stateProperty := res.value])
        && (res.Err? ==> o == Fail(res.error) && instance.fields == old(instance.fields))
    {
      var current := instance.fields[stateProperty];
      var transition := base.GetTransition(name);
      if transition.Err? {
        return Fail(transition.error);
      }
      var nextState := TryTransition(transition.value, current);
      if nextState.None? || Falsy(nextState.value) {
        return Fail(TransitionRejected(name, current));
      }
      instance.fields := instance.fields[stateProperty := nextState.value];
      o := Pass;
    }
  }
}
