/**
 * Properties relating the engines' operations to each other: lookup comes
 * first, the guard only speaks on a failed resolution, `apply` agrees with
 * `can`, and the truthiness checks set the engines apart on falsy
 * destinations.
 */
module Laws {
  import opened Wrappers
  import opened Transitions
  import opened Registry
  import opened Engines

  /** An unknown name fails with not-found, whatever the flag, known states or current state. */
  lemma UnknownNameAlwaysFails(table: map<string, Rule>, detect: bool, known: set<State>, name: string, current: State)
    requires name !in table
    ensures TokenCan(table, detect, known, name, current) == Err(TransitionNotFound(name))
    ensures EntityCan(table, detect, known, name, current) == Err(TransitionNotFound(name))
    ensures EntityApply(table, name, current) == Err(TransitionNotFound(name))
  {
  }

  /**
   * The known-states set is always empty, so a failed `can` throws the
   * unexpected-state error exactly when detection is on and otherwise
   * returns false.
   */
  lemma FailedCanWithNoKnownStates(table: map<string, Rule>, detect: bool, name: string, current: State)
    requires name in table
    ensures !Fires(table, name, current) ==>
      EntityCan(table, detect, {}, name, current) == if detect then Err(UnexpectedState(current)) else Ok(false)
    ensures !(Fires(table, name, current) && !Falsy(table[name].to)) ==>
      TokenCan(table, detect, {}, name, current) == if detect then Err(UnexpectedState(current)) else Ok(false)
  {
  }

  /** A known current state never trips the guard: `can` then returns a plain boolean. */
  lemma KnownStateNeverUnexpected(table: map<string, Rule>, detect: bool, known: set<State>, name: string, current: State)
    requires name in table && current in known
    ensures TokenCan(table, detect, known, name, current).Ok?
    ensures EntityCan(table, detect, known, name, current).Ok?
  {
  }

  /** With detection off, `can` never throws on a registered name. */
  lemma DetectionOffNeverThrows(table: map<string, Rule>, known: set<State>, name: string, current: State)
    requires name in table
    ensures TokenCan(table, false, known, name, current).Ok?
    ensures EntityCan(table, false, known, name, current).Ok?
  {
  }

  /**
   * The two `can`s agree except on one input: a rule that fires towards a
   * falsy destination (`if (state)` against `!== null`).
   */
  lemma EnginesAgreeExceptOnFalsy(table: map<string, Rule>, detect: bool, known: set<State>, name: string, current: State)
    ensures TokenCan(table, detect, known, name, current) == EntityCan(table, detect, known, name, current)
        <==> !(Fires(table, name, current) && Falsy(table[name].to))
  {
  }

  /** `apply` succeeds only where both `can`s report true, under any guard settings. */
  lemma ApplyImpliesCan(table: map<string, Rule>, detect: bool, known: set<State>, name: string, current: State)
    requires EntityApply(table, name, current).Ok?
    ensures TokenCan(table, detect, known, name, current) == Ok(true)
    ensures EntityCan(table, detect, known, name, current) == Ok(true)
  {
  }

  /**
   * `apply` fires exactly where the token-based `can` reports true, and its
   * errors are never the guard's.
   */
  lemma ApplyMatchesTokenCan(table: map<string, Rule>, detect: bool, known: set<State>, name: string, current: State)
    ensures EntityApply(table, name, current).Ok? <==> TokenCan(table, detect, known, name, current) == Ok(true)
    ensures EntityApply(table, name, current).Err? ==> !EntityApply(table, name, current).error.UnexpectedState?
  {
  }

  /**
   * A rule whose destination is `0` or `""` is rejected by `apply` from
   * every state, although the entity-based `can` reports true from each of
   * its origins.
   */
  lemma FalsyDestinationAlwaysRejected(table: map<string, Rule>, detect: bool, known: set<State>, name: string, current: State)
    requires name in table && Falsy(table[name].to)
    ensures EntityApply(table, name, current) == Err(TransitionRejected(name, current))
    ensures TokenCan(table, detect, known, name, current) != Ok(true)
    ensures current in Origins(table[name]) ==> EntityCan(table, detect, known, name, current) == Ok(true)
  {
  }

  /** A registered single-origin rule with a truthy destination: `can` is `current == origin`. */
  lemma SingleRuleCan(table: map<string, Rule>, known: set<State>, name: string, origin: State, to: State, current: State)
    requires name in table && table[name] == Single(origin, to) && !Falsy(to)
    ensures TokenCan(table, false, known, name, current) == Ok(current == origin)
    ensures EntityCan(table, false, known, name, current) == Ok(current == origin)
    ensures current == origin <==> EntityApply(table, name, current) == Ok(to)
  {
  }

  /** A registered multi-origin rule with a truthy destination: `can` is membership in the list. */
  lemma MultiRuleCan(table: map<string, Rule>, known: set<State>, name: string, origins: seq<State>, to: State, current: State)
    requires name in table && table[name] == Multi(origins, to) && !Falsy(to)
    ensures TokenCan(table, false, known, name, current) == Ok(current in origins)
    ensures EntityCan(table, false, known, name, current) == Ok(current in origins)
    ensures current in origins <==> EntityApply(table, name, current) == Ok(to)
  {
  }
}
