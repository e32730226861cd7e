/** A run in which a handler is started for an attempt left over from before a replay, so that
    the epoch after the replay sees more starts than MaxRetry + 1. */
module LateStart {
  import opened Values
  import opened TaskMachine
  import opened Protocol
  import opened ProtocolTheorems
  import opened Drive

  const TASK := Message("t", "k", "", "q", 0, 0, 0, 0, 0, 0, Pending, "", "", 0, 0, 0)
  const COPY_A := Claimed(TASK, "a")
  const DEAD := Dead(COPY_A, "task lease expired")
  const REPLAYED := Reset(DEAD, 30)
  const COPY_B := Claimed(REPLAYED, "b")

  const FIRST := Origin("t", 1)
  const SECOND := Origin("t", 2)

  const PENDING := Task(TASK, Pending, 0, 1, None, 0)
  const ACTIVE_A := Task(TASK, Active, 0, 1, Some("a"), 10)
  const ARCHIVED := Task(DEAD, Archived, 0, 1, None, 20)
  const PENDING_AGAIN := Task(REPLAYED, Pending, 0, 1, None, 0)
  const ACTIVE_B := Task(REPLAYED, Active, 0, 1, Some("b"), 40)

  // The task allows no retry. Its dispatcher is held up until the lease has expired, recovery has
  // archived the task and an operator has replayed it; then it hands over its copy.
  const S1 := START.(store := Only(PENDING), epoch := map["t" := 1], limits := map[FIRST := 0])
  const S2 := S1.(store := Only(ACTIVE_A), claims := map["a" := FIRST], waiting := map["a" := COPY_A])
  const S3 := S2.(recovering := multiset{COPY_A})
  const S4 := S3.(store := Only(ARCHIVED), recovering := multiset{})
  const S5 := S4.(replaying := multiset{(DEAD, 1)})
  const S6 := S5.(store := Only(PENDING_AGAIN), replaying := multiset{},
                  epoch := map["t" := 2], limits := map[FIRST := 0, SECOND := 0])
  const S7 := S6.(store := Only(ACTIVE_B), claims := map["a" := FIRST, "b" := SECOND],
                  waiting := map["a" := COPY_A, "b" := COPY_B])
  const S8 := S7.(waiting := map["b" := COPY_B], running := map["a" := COPY_A], started := map["a" := 2])
  const S9 := S8.(waiting := map[], running := map["a" := COPY_A, "b" := COPY_B], started := map["a" := 2, "b" := 2])

  const STEPS: seq<Step> := [
    Step.Enqueue(TASK, 0), Step.Claim("a", 10), ReadExpired("t"), Recover(COPY_A, 20, 0),
    ReadDeadLetter("t"), WriteReplay(DEAD, 1, 30), Step.Claim("b", 40),
    StartHandler("a"), StartHandler("b")]

  lemma Step1()
    ensures Leads(START, STEPS[0], S1)
  {
    hide Next, DueIds, Promoted, Extended, Removed;
  }

  lemma Step2()
    ensures Leads(S1, STEPS[1], S2)
  {
    OnlyNext(PENDING);
    hide Next, DueIds, Promoted, Extended, Removed;
  }

  lemma Step3()
    ensures Leads(S2, STEPS[2], S3)
  {
    hide Next, DueIds, Promoted, Extended, Removed;
  }

  lemma Step4()
    ensures Leads(S3, STEPS[3], S4)
  {
    hide Next, DueIds, Promoted, Extended, Removed;
  }

  lemma Step5()
    ensures Leads(S4, STEPS[4], S5)
  {
    assert DeadCopy(S4.store, "t") == {(DEAD, 1)};
    hide After, Enabled, DeadCopy;
    ReadsForReplay(S4, "t", (DEAD, 1));
  }

  lemma Step6()
    ensures Leads(S5, STEPS[5], S6)
  {
    ReplayApplies(S5.store, "t", REPLAYED);
    AfterSettles(S5, STEPS[5]);
    hide Apply, Succeeds;
  }

  lemma HandsOutAgain()
    ensures Next(Only(PENDING_AGAIN)) == Some("t") && Succeeds(Only(PENDING_AGAIN), Op.Claim("b", 40))
    ensures Apply(Only(PENDING_AGAIN), Op.Claim("b", 40)) == Only(ACTIVE_B)
  {
    OnlyNext(PENDING_AGAIN);
    hide Next;
  }

  lemma Step7()
    ensures Leads(S6, STEPS[6], S7)
  {
    HandsOutAgain();
    AfterSettles(S6, STEPS[6]);
    hide Apply, Succeeds, Next;
  }

  lemma Step8()
    ensures Leads(S7, STEPS[7], S8)
  {
    hide Apply, Succeeds, Next, ActiveCopy, DeadCopy;
  }

  lemma Step9()
    ensures Leads(S8, STEPS[8], S9)
  {
    hide Apply, Succeeds, Next, ActiveCopy, DeadCopy;
  }

  lemma Nine()
    ensures |STEPS| == 9
  {
  }

  lemma FirstSteps()
    ensures |STEPS| == 9 && EndsIn(STEPS[..5], S5)
  {
    hide *;
    Nine();
    Nowhere(STEPS);
    Step1();
    Onward(STEPS, 0, START, S1);
    Step2();
    Onward(STEPS, 1, S1, S2);
    Step3();
    Onward(STEPS, 2, S2, S3);
    Step4();
    Onward(STEPS, 3, S3, S4);
    Step5();
    Onward(STEPS, 4, S4, S5);
  }

  lemma LastSteps()
    ensures EndsIn(STEPS[..9], S9)
  {
    hide *;
    FirstSteps();
    Step6();
    Onward(STEPS, 5, S5, S6);
    Step7();
    Onward(STEPS, 6, S6, S7);
    Step8();
    Onward(STEPS, 7, S7, S8);
    Step9();
    Onward(STEPS, 8, S8, S9);
  }

  lemma TwoStarted()
    ensures SECOND in S9.limits && |StartedDuring(S9, SECOND)| == S9.limits[SECOND] + 2
  {
    assert StartedDuring(S9, SECOND) == {"a", "b"};
  }

  /** After the replay, two handlers are started for a task that allows no retry. */
  lemma LateStartsExceedBudget()
    ensures Legal(START, STEPS) && SECOND in Runs(START, STEPS).limits
    ensures |StartedDuring(Runs(START, STEPS), SECOND)| == Runs(START, STEPS).limits[SECOND] + 2
  {
    hide Legal, Runs, StartedDuring;
    assert STEPS[..9] == STEPS;
    LastSteps();
    TwoStarted();
  }
}
