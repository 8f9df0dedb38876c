/**
 * A race between two resumes of one Task in agent/travel_agent/a2a/service.py, over a run of the
 * protocol from the empty store.
 */
module TaskRaces {
  import opened Common
  import opened TaskTypes
  import opened TaskStore
  import opened TaskProtocol
  import opened DurableService

  const QUESTION := AskInput(LEASE, "", "q")
  const FIRST := Resume("n", "one", ANSWER)
  const SECOND := Resume("n", "two", ANSWER)
  const LATER_LEASE := Lease(KEY, "o", 2, 50)
  const LATER_QUESTION := AskInput(LATER_LEASE, "", "q")

  /** The Task is started and asks for input. */
  function Asked(): seq<Action> {
    [Create(HEADER, "m"), ClaimLease(KEY, "o", 50, 0)] + ([Read(0, KEY, Start(LEASE), 0), Write(0, 0)] + [Read(0, KEY, QUESTION, 0), Write(0, 0)])
  }

  /** The first message is accepted, and the Task asks again. */
  function AnsweredOnce(): seq<Action> {
    [Read(0, KEY, FIRST, 0), Write(0, 0)] + [ClaimLease(KEY, "o", 50, 0), Read(0, KEY, LATER_QUESTION, 0), Write(0, 0)]
  }

  /** Only the identity, the state, the question and the messages matter here. */
  predicate At(s: System, state: TaskState, pending: Option<string>, messages: map<string, string>) {
    KEY in s.store.records && Is(s.store.records[KEY], state, pending, messages)
  }

  predicate Is(r: Record, state: TaskState, pending: Option<string>, messages: map<string, string>) {
    r.header == HEADER && r.State() == state && r.pendingInput == pending && r.messages == messages
  }

  const CREATED: map<string, string> := map["m" := FINGERPRINT]

  lemma AskedState()
    ensures var s := Exec(INIT, Asked());
            At(s, InputRequired, Some("q"), CREATED) && KEY !in s.store.leases && s.store.Attempt(KEY) == 1
  {
    CreatedAndClaimed();
    var s := Exec(INIT, [Create(HEADER, "m"), ClaimLease(KEY, "o", 50, 0)]);
    ClaimedOnce();
    var starting, asking := [Read(0, KEY, Start(LEASE), 0), Write(0, 0)], [Read(0, KEY, QUESTION, 0), Write(0, 0)];
    ExecConcat(INIT, [Create(HEADER, "m"), ClaimLease(KEY, "o", 50, 0)], starting + asking);
    ExecConcat(s, starting, asking);
    TwoSteps(s, starting[0], starting[1]);
    ReadThenWrite(s, Start(LEASE));
    var started := Exec(s, starting);
    WriteKeepsAttempts(s, Start(LEASE));
    hide Exec;
    TwoSteps(started, asking[0], asking[1]);
    ReadThenWrite(started, QUESTION);
    WriteKeepsAttempts(started, QUESTION);
  }

  lemma ClaimedOnce()
    ensures Exec(INIT, [Create(HEADER, "m"), ClaimLease(KEY, "o", 50, 0)]).store.Attempt(KEY) == 1
  {
    TwoSteps(INIT, Create(HEADER, "m"), ClaimLease(KEY, "o", 50, 0));
    hide Exec;
  }

  lemma WriteKeepsAttempts(s: System, i: Intent)
    ensures Step(Step(s, Read(0, KEY, i, 0)), Write(0, 0)).store.attempts == s.store.attempts
  {
  }

  /** A resume that nobody overtakes. */
  lemma Resumed(s: System, id: string, fingerprint: string, messages: map<string, string>)
    requires At(s, InputRequired, Some("q"), messages)
    ensures var i := Resume(id, fingerprint, ANSWER);
            var t := Exec(s, [Read(0, KEY, i, 0), Write(0, 0)]);
            && At(t, Working, None, messages[id := fingerprint])
            && t.store.leases == s.store.leases && t.store.attempts == s.store.attempts
  {
    var i := Resume(id, fingerprint, ANSWER);
    TwoSteps(s, Read(0, KEY, i, 0), Write(0, 0));
    ReadThenWrite(s, i);
    WriteKeepsAttempts(s, i);
    hide Exec, Step;
  }

  lemma AskedLater(s: System, messages: map<string, string>)
    requires At(s, Working, None, messages) && KEY !in s.store.leases && s.store.Attempt(KEY) == 1
    ensures At(Exec(s, [ClaimLease(KEY, "o", 50, 0), Read(0, KEY, LATER_QUESTION, 0), Write(0, 0)]), InputRequired, Some("q"), messages)
  {
    ThreeSteps(s, ClaimLease(KEY, "o", 50, 0), Read(0, KEY, LATER_QUESTION, 0), Write(0, 0));
    var claimed := Step(s, ClaimLease(KEY, "o", 50, 0));
    assert claimed.store.records == s.store.records && claimed.store.LeaseLive(KEY, LATER_LEASE, 0);
    ReadThenWrite(claimed, LATER_QUESTION);
    hide Exec, Step;
  }

  lemma AnsweredOnceState(s: System)
    requires At(s, InputRequired, Some("q"), CREATED) && KEY !in s.store.leases && s.store.Attempt(KEY) == 1
    ensures At(Exec(s, AnsweredOnce()), InputRequired, Some("q"), CREATED["n" := "one"])
  {
    hide Exec, At;
    ExecConcat(s, [Read(0, KEY, FIRST, 0), Write(0, 0)], [ClaimLease(KEY, "o", 50, 0), Read(0, KEY, LATER_QUESTION, 0), Write(0, 0)]);
    Resumed(s, "n", "one", CREATED);
    AskedLater(Exec(s, [Read(0, KEY, FIRST, 0), Write(0, 0)]), CREATED["n" := "one"]);
  }

  /**
   * An accepted message can be overwritten: both resumes find the Task waiting for "q" and their
   * message id unused; one is accepted, the Task asks "q" again, and the other replaces its
   * fingerprint, since the loop looks at recorded messages only when the Task is not waiting.
   */
  lemma AcceptedMessageIsOverwritten()
    ensures var validated := Exec(INIT, Asked());
            var accepted := Exec(validated, AnsweredOnce());
            var overwritten := Exec(accepted, [Read(0, KEY, SECOND, 0), Write(0, 0)]);
            && At(validated, InputRequired, Some("q"), CREATED)
            && At(accepted, InputRequired, Some("q"), CREATED["n" := "one"])
            && At(overwritten, Working, None, CREATED["n" := "two"])
  {
    hide Exec, At, Asked, AnsweredOnce;
    AskedState();
    var validated := Exec(INIT, Asked());
    AnsweredOnceState(validated);
    Resumed(Exec(validated, AnsweredOnce()), "n", "two", CREATED["n" := "one"]);
    assert CREATED["n" := "one"]["n" := "two"] == CREATED["n" := "two"];
  }
}
