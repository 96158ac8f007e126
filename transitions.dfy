/**
 * Transition rules (src/workflow.ts, lines 1-39): a single-origin `Transition`
 * and a `MultiOriginTransition`, each resolving a current state to its
 * destination or to `null`.
 */
module Transitions {
  import opened Wrappers

  /** `string | number`; JavaScript numbers are modelled as integers. */
  datatype State = Str(text: string) | Num(number: int)

  /** JavaScript truthiness: the falsy states are `0` and `""`. */
  predicate Falsy(s: State) {
    s == Num(0) || s == Str("")
  }

  /** A transition rule, without its name (the registry holds the name). */
  datatype Rule =
    | Single(origin: State, to: State)       // class Transition
    | Multi(origins: seq<State>, to: State)  // class MultiOriginTransition

  /** The states a rule may fire from, as a set, whatever way the rule stores them. */
  ghost function Origins(r: Rule): set<State> {
    match r
    case Single(o, _) => {o}
    case Multi(os, _) => set i | 0 <= i < |os| :: os[i]
  }

  /**
   * `tryTransition`: the destination exactly when the current state is one of
   * the rule's origins (`===` for a single origin, `includes` for a list),
   * `null` otherwise.
   */
  function TryTransition(r: Rule, current: State): (next: Option<State>)
    ensures next.Some? <==> current in Origins(r)
    ensures next.Some? ==> next.value == r.to
  {
    match r
    case Single(origin, to) =>
      if current == origin then Some(to) else None
    case Multi(origins, to) =>
      if current in origins then Some(to) else None
  }

  /** A multi-origin rule with one origin resolves exactly as the single-origin rule. */
  lemma SingletonMultiIsSingle(origin: State, to: State, current: State)
    ensures TryTransition(Multi([origin], to), current) == TryTransition(Single(origin, to), current)
  {
  }

  /**
   * A multi-origin rule over `a + b` fires exactly when the rule over `a`
   * or the rule over `b` fires: the order and grouping of the origin list
   * does not matter.
   */
  lemma MultiOriginsConcat(a: seq<State>, b: seq<State>, to: State, current: State)
    ensures TryTransition(Multi(a + b, to), current).Some?
        <==> TryTransition(Multi(a, to), current).Some? || TryTransition(Multi(b, to), current).Some?
  {
  }
}
