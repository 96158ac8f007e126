/**
 * The repository's own scenarios (src/workflow.spec.ts), stated against the
 * model: a blog post moving draft -> published -> aborted/completed ->
 * archived. The tests pass the state before the name; the engines take the
 * name first.
 */
module Scenarios {
  import opened Wrappers
  import opened Transitions
  import opened Registry
  import opened Engines

  /** The four registrations of the token-based test, in order. */
  function BlogRegistrations(): seq<Registration> {
    [ Registration("publish", Single(Str("draft"), Str("published"))),
      Registration("abort", Single(Str("published"), Str("aborted"))),
      Registration("complete", Single(Str("published"), Str("completed"))),
      Registration("archive", Multi([Str("aborted"), Str("completed")], Str("archived"))) ]
  }

  function BlogTable(): (t: map<string, Rule>)
    ensures t == map[
      "publish" := Single(Str("draft"), Str("published")),
      "abort" := Single(Str("published"), Str("aborted")),
      "complete" := Single(Str("published"), Str("completed")),
      "archive" := Multi([Str("aborted"), Str("completed")], Str("archived"))]
  {
    RegisterAll(map[], BlogRegistrations())
  }

  /** From each state of the lifecycle, exactly the expected transitions are allowed. */
  lemma TokenLifecycle()
    ensures var t := BlogTable();
      && TokenCan(t, false, {}, "publish", Str("draft")) == Ok(true)
      && TokenCan(t, false, {}, "abort", Str("draft")) == Ok(false)
      && TokenCan(t, false, {}, "complete", Str("draft")) == Ok(false)
      && TokenCan(t, false, {}, "archive", Str("draft")) == Ok(false)
      && TokenCan(t, false, {}, "publish", Str("published")) == Ok(false)
      && TokenCan(t, false, {}, "abort", Str("published")) == Ok(true)
      && TokenCan(t, false, {}, "complete", Str("published")) == Ok(true)
      && TokenCan(t, false, {}, "archive", Str("published")) == Ok(false)
      && TokenCan(t, false, {}, "publish", Str("aborted")) == Ok(false)
      && TokenCan(t, false, {}, "abort", Str("aborted")) == Ok(false)
      && TokenCan(t, false, {}, "complete", Str("aborted")) == Ok(false)
      && TokenCan(t, false, {}, "archive", Str("aborted")) == Ok(true)
      && TokenCan(t, false, {}, "publish", Str("completed")) == Ok(false)
      && TokenCan(t, false, {}, "abort", Str("completed")) == Ok(false)
      && TokenCan(t, false, {}, "complete", Str("completed")) == Ok(false)
      && TokenCan(t, false, {}, "archive", Str("completed")) == Ok(true)
      && TokenCan(t, false, {}, "publish", Str("invalid")) == Ok(false)
  {
  }

  /** An unknown name throws not-found, even with detection on. */
  lemma UnknownTransitionScenario()
    ensures TokenCan(map[], true, {}, "invalid_transition", Str("draft"))
         == Err(TransitionNotFound("invalid_transition"))
  {
  }

  /** With detection on, a failed `can` from an unlisted state throws, carrying that state. */
  lemma UnexpectedStateScenario()
    ensures var t := RegisterAll(map[], [Registration("publish", Single(Str("draft"), Str("published")))]);
      TokenCan(t, true, {}, "publish", Str("invalid")) == Err(UnexpectedState(Str("invalid")))
  {
  }

  /** The registry of the entity-based test: the enum values Draft = 0 ... Archived = 4. */
  function PostTable(): map<string, Rule> {
    map[
      "publish" := Single(Num(0), Num(1)),
      "abort" := Single(Num(1), Num(2)),
      "complete" := Single(Num(1), Num(3)),
      "archive" := Multi([Num(2), Num(3)], Num(4))]
  }

  /** The test's engine: bound to `status`, detection off, the four transitions registered. */
  method NewPostWorkflow() returns (wf: ClassWorkflow)
    ensures fresh(wf.base) && wf.stateProperty == "status"
    ensures wf.base.transitions == PostTable()
    ensures !wf.base.detectUnexpectedState && wf.base.states == {}
  {
    var created := ClassWorkflow.Create(ClassWorkflowOptions(map["status" := Num(0)], "status", None));
    wf := created.value;
    wf.base.AddTransition("publish", Single(Num(0), Num(1)));
    wf.base.AddTransition("abort", Single(Num(1), Num(2)));
    wf.base.AddTransition("complete", Single(Num(1), Num(3)));
    wf.base.AddTransition("archive", Multi([Num(2), Num(3)], Num(4)));
  }

  /**
   * The entity-based test, run against the classes: a post whose status is
   * Draft is published, then aborted, may then be archived, and can no
   * longer be completed: the last `apply` is rejected with the name and the
   * current state, which stays Aborted.
   */
  method PostLifecycle() returns (status: State, rejected: Outcome<WorkflowError>)
    ensures status == Num(2)
    ensures rejected == Fail(TransitionRejected("complete", Num(2)))
  {
    var wf := NewPostWorkflow();
    var post := new Entity(map["status" := Num(0)]);
    var ok := wf.Can("publish", post);
    assert ok == Ok(true);
    ok := wf.Can("abort", post);
    assert ok == Ok(false);
    ok := wf.Can("complete", post);
    assert ok == Ok(false);
    ok := wf.Can("archive", post);
    assert ok == Ok(false);

    var applied := wf.Apply("publish", post);
    assert post.fields["status"] == Num(1);
    ok := wf.Can("publish", post);
    assert ok == Ok(false);
    ok := wf.Can("abort", post);
    assert ok == Ok(true);
    ok := wf.Can("complete", post);
    assert ok == Ok(true);
    ok := wf.Can("archive", post);
    assert ok == Ok(false);

    applied := wf.Apply("abort", post);
    assert post.fields["status"] == Num(2);
    ok := wf.Can("archive", post);
    assert Num(2) == [Num(2), Num(3)][0];
    assert ok == Ok(true);

    rejected := wf.Apply("complete", post);
    status := post.fields["status"];
  }

  /** Binding a property the entity does not define fails at construction. */
  method MissingPropertyScenario() returns (error: Option<WorkflowError>)
    ensures error == Some(InvalidProperty("nonExistentProperty"))
  {
    var created := ClassWorkflow.Create(ClassWorkflowOptions(map["status" := Num(0)], "nonExistentProperty", None));
    error := if created.Err? then Some(created.error) else None;
  }

  /** With detection on, a post in an unused enum state (5) makes a failed `can` throw. */
  method UnexpectedEntityStateScenario() returns (result: Result<bool, WorkflowError>)
    ensures result == Err(UnexpectedState(Num(5)))
  {
    var created := ClassWorkflow.Create(ClassWorkflowOptions(map["status" := Num(0)], "status", Some(true)));
    var wf := created.value;
    wf.base.AddTransition("publish", Single(Num(0), Num(1)));
    var post := new Entity(map["status" := Num(0)]);
    post.fields := post.fields["status" := Num(5)];
    result := wf.Can("publish", post);
  }

  /**
   * A transition back to the enum's Draft = 0: the entity-based `can`
   * reports true, yet `apply` rejects it because 0 is falsy.
   */
  lemma ResetToDraftQuirk()
    ensures var t := map["reset" := Single(Num(4), Num(0))];
      && EntityCan(t, false, {}, "reset", Num(4)) == Ok(true)
      && TokenCan(t, false, {}, "reset", Num(4)) == Ok(false)
      && EntityApply(t, "reset", Num(4)) == Err(TransitionRejected("reset", Num(4)))
  {
  }
}
