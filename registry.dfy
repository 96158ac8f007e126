/**
 * The registry and unexpected-state guard shared by both engines:
 * `BaseWorkflow` (src/workflow.ts, lines 41-76).
 */
module Registry {
  import opened Wrappers
  import opened Transitions

  /** The four errors the engines throw, carrying what their messages name. */
  datatype WorkflowError =
    | TransitionNotFound(name: string)                 // "Transition '<name>' not found."
    | UnexpectedState(state: State)                    // "The instance has an unexpected state '<state>'"
    | TransitionRejected(name: string, state: State)   // "Can't apply transition '<name>' to current state '<state>'"
    | InvalidProperty(property: string)                // "Property '<property>' does not exist in the provided entity."

  /** `addTransition` on the registry's value: a name already present keeps its rule. */
  function Register(table: map<string, Rule>, name: string, rule: Rule): (t: map<string, Rule>)
    ensures t.Keys == table.Keys + {name}
    ensures name in table ==> t == table
    ensures name !in table ==> t[name] == rule
    ensures forall k :: k in table ==> t[k] == table[k]
  {
    if name in table then table else table[name := rule]
  }

  /** One `addTransition(name, rule)` call. */
  datatype Registration = Registration(name: string, rule: Rule)

  /** The registry after a run of `addTransition` calls, in order. */
  function RegisterAll(table: map<string, Rule>, regs: seq<Registration>): map<string, Rule>
    decreases |regs|
  {
    if regs == [] then table
    else RegisterAll(Register(table, regs[0].name, regs[0].rule), regs[1..])
  }

  /** The names registered by a run of calls. */
  ghost function Names(regs: seq<Registration>): set<string> {
    set i | 0 <= i < |regs| :: regs[i].name
  }

  /** The rule of the first call in `regs` that registers `name`, if any. */
  function FirstRule(regs: seq<Registration>, name: string): (r: Option<Rule>)
    decreases |regs|
  {
    if regs == [] then None
    else if regs[0].name == name then Some(regs[0].rule)
    else FirstRule(regs[1..], name)
  }

  /** The names of a run are its first call's name and the rest's. */
  lemma NamesCons(regs: seq<Registration>)
    requires regs != []
    ensures Names(regs) == {regs[0].name} + Names(regs[1..])
  {
  }

  /** Some call registers `name` exactly when a first such call exists. */
  lemma {:induction false} FirstRuleExists(regs: seq<Registration>, name: string)
    ensures FirstRule(regs, name).Some? <==> name in Names(regs)
    decreases |regs|
  {
    if regs != [] {
      NamesCons(regs);
      FirstRuleExists(regs[1..], name);
    }
  }

  /**
   * First registration wins, over any run of `addTransition` calls: the
   * registry gains exactly the registered names, keeps every rule it held,
   * and maps each new name to the rule of the FIRST call that registered it.
   */
  lemma {:induction false} RegisterAllFirstWins(table: map<string, Rule>, regs: seq<Registration>)
    ensures RegisterAll(table, regs).Keys == table.Keys + Names(regs)
    ensures forall k :: k in table ==> RegisterAll(table, regs)[k] == table[k]
    ensures forall k :: k in Names(regs) && k !in table ==>
      FirstRule(regs, k).Some? && RegisterAll(table, regs)[k] == FirstRule(regs, k).value
    decreases |regs|
  {
    if regs != [] {
      var next := Register(table, regs[0].name, regs[0].rule);
      NamesCons(regs);
      RegisterAllFirstWins(next, regs[1..]);
      forall k | k in Names(regs) && k !in table
        ensures FirstRule(regs, k).Some? && RegisterAll(table, regs)[k] == FirstRule(regs, k).value
      {
        if k != regs[0].name {
          assert k in Names(regs[1..]) && k !in next;
        }
      }
    }
  }

  /** Re-running calls whose names are all registered changes nothing. */
  lemma {:induction false} RegisterAllNoOp(table: map<string, Rule>, regs: seq<Registration>)
    requires Names(regs) <= table.Keys
    ensures RegisterAll(table, regs) == table
    decreases |regs|
  {
    if regs != [] {
      NamesCons(regs);
      RegisterAllNoOp(table, regs[1..]);
    }
  }

  /**
   * Setup code that registers the same transitions twice leaves the
   * registry as one run did.
   */
  lemma RegisterAllIdempotent(table: map<string, Rule>, regs: seq<Registration>)
    ensures RegisterAll(RegisterAll(table, regs), regs) == RegisterAll(table, regs)
  {
    RegisterAllFirstWins(table, regs);
    RegisterAllNoOp(RegisterAll(table, regs), regs);
  }

  /** `getTransition`: the registered rule, or not-found carrying the name. */
  function Lookup(table: map<string, Rule>, name: string): (r: Result<Rule, WorkflowError>)
    ensures r.Ok? <==> name in table
    ensures r.Ok? ==> r.value == table[name]
    ensures r.Err? ==> r.error == TransitionNotFound(name)
  {
    if name in table then Ok(table[name]) else Err(TransitionNotFound(name))
  }

  /**
   * `doDetectUnexpectedState`: throws, carrying the current state, exactly
   * when detection is on and the state is not a known one.
   */
  function Guard(detect: bool, known: set<State>, current: State): (o: Outcome<WorkflowError>)
    ensures o.Fail? <==> detect && current !in known
    ensures o.Fail? ==> o.error == UnexpectedState(current)
  {
    if detect && current !in known then Fail(UnexpectedState(current)) else Pass
  }

  /** With no known states the guard fails on every state exactly when detection is on. */
  lemma GuardWithNoKnownStates(detect: bool, current: State)
    ensures Guard(detect, {}, current) == if detect then Fail(UnexpectedState(current)) else Pass
  {
  }

  /** `BaseWorkflowOptions`: an absent flag reads as false. */
  datatype BaseWorkflowOptions = BaseWorkflowOptions(detectUnexpectedState: Option<bool>)

  /** `options.detectUnexpectedState ?? false`. */
  function DetectFlag(flag: Option<bool>): (on: bool)
    ensures on <==> flag == Some(true)
  {
    match flag
    case Some(b) => b
    case None => false
  }

  /** `BaseWorkflow`: a named registry of rules plus the unexpected-state guard. */
  class BaseWorkflow {
    var transitions: map<string, Rule>
    var detectUnexpectedState: bool
    /** The known states; the only assignment to it is the empty set below. */
    var states: set<State>

    ghost predicate Valid()
      reads this
    {
      states == {}
    }

    constructor (options: BaseWorkflowOptions)
      ensures Valid()
      ensures transitions == map[]
      ensures detectUnexpectedState <==> options.detectUnexpectedState == Some(true)
    {
      transitions := map[];
      states := {};
      detectUnexpectedState := DetectFlag(options.detectUnexpectedState);
    }

    /** First registration wins; a repeated name is a silent no-op. */
    method AddTransition(name: string, rule: Rule)
      modifies this`transitions
      ensures old(name in transitions) ==> transitions == old(transitions)
      ensures old(name !in transitions) ==> transitions == old(transitions)[name := rule]
      ensures transitions == Register(old(transitions), name, rule)
    {
      if name !in transitions {
        transitions := transitions[name := rule];
      }
    }

    method GetTransition(name: string) returns (r: Result<Rule, WorkflowError>)
      ensures r == Lookup(transitions, name)
    {
      if name !in transitions {
        return Err(TransitionNotFound(name));
      }
      r := Ok(transitions[name]);
    }

    method DoDetectUnexpectedState(current: State) returns (o: Outcome<WorkflowError>)
      ensures o == Guard(detectUnexpectedState, states, current)
    {
      o := Pass;
      if detectUnexpectedState && current !in states {
        o := Fail(UnexpectedState(current));
      }
    }
  }
}
