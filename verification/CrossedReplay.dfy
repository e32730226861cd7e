/** A run in which a replay puts the message of a deleted record into the record that took its id. */
module CrossedReplay {
  import opened Values
  import opened TaskMachine
  import opened Protocol
  import opened Drive
  import ProtocolTheorems
  import opened ReplayRuns

  function Of(kind: string): Message {
    Message("t", kind, "", "q", 0, 0, 0, 0, 0, 0, Pending, "", "", 0, 0, 0)
  }

  const FIRST := Of("first")
  const SECOND := Of("second")
  const COPY_A := Claimed(FIRST, "a")
  const COPY_B := Claimed(SECOND, "b")
  const DEAD := Dead(COPY_A, "bad")

  function Waits(msg: Message, seqno: nat): Machine {
    Only(Task(msg, Pending, 0, seqno, None, 0))
  }

  function Held(msg: Message, seqno: nat, attempt: string): Machine {
    Only(Task(msg, Active, 0, seqno, Some(attempt), 10))
  }

  function Rests(msg: Message, seqno: nat): Machine {
    Only(Task(msg, Archived, 0, seqno, None, 20))
  }

  const O1 := Origin("t", 1)
  const O2 := Origin("t", 2)

  // A first record is archived and read for a replay, then deleted. A second record takes its id and is archived
  // too, before the copy of the first is written.
  const S1 := START.(store := Waits(FIRST, 1), epoch := map["t" := 1], limits := map[O1 := 0])
  const S2 := S1.(store := Held(FIRST, 1, "a"), claims := map["a" := O1], waiting := map["a" := COPY_A])
  const S3 := S2.(waiting := map[], running := map["a" := COPY_A], started := map["a" := 1])
  const S4 := S3.(store := Rests(DEAD, 1), running := map[])
  const S5 := S4.(replaying := multiset{(DEAD, 1)})
  const S6 := S5.(store := Machine(map[], 1))
  const S7 := S6.(store := Waits(SECOND, 2), epoch := map["t" := 2], limits := map[O1 := 0, O2 := 0])
  const S8 := S7.(store := Held(SECOND, 2, "b"), claims := map["a" := O1, "b" := O2], waiting := map["b" := COPY_B])
  const S9 := S8.(waiting := map[], running := map["b" := COPY_B], started := map["a" := 1, "b" := 2])
  const S10 := S9.(store := Rests(Dead(COPY_B, "bad"), 2), running := map[])

  const STEPS: seq<Step> := [
    Step.Enqueue(FIRST, 0), Step.Claim("a", 10), StartHandler("a"), Fail("a", true, 20, 0, "bad"),
    ReadDeadLetter("t"), Step.Delete("t"),
    Step.Enqueue(SECOND, 0), Step.Claim("b", 10), StartHandler("b"), Fail("b", true, 20, 0, "bad")]

  lemma HandsOut(msg: Message, seqno: nat, a: string)
    ensures Next(Waits(msg, seqno)) == Some("t")
    ensures Succeeds(Waits(msg, seqno), Op.Claim(a, 10))
    ensures Apply(Waits(msg, seqno), Op.Claim(a, 10)) == Held(msg, seqno, a)
  {
    OnlyNext(Task(msg, Pending, 0, seqno, None, 0));
    hide Next;
  }

  lemma Buries(msg: Message, seqno: nat, a: string)
    requires msg.id == "t"
    ensures
      var op := Op.Archive(Dead(Claimed(msg, a), "bad"), 20, a);
      Succeeds(Held(msg, seqno, a), op)
      && Apply(Held(msg, seqno, a), op) == Rests(Dead(Claimed(msg, a), "bad"), seqno)
  {
  }

  lemma Step1()
    ensures Leads(START, STEPS[0], S1)
  {
  }

  lemma Step2()
    ensures Leads(S1, STEPS[1], S2)
  {
    HandsOut(FIRST, 1, "a");
    AfterSettles(S1, STEPS[1]);
    hide Apply, Succeeds, Next;
  }

  lemma Step3()
    ensures Leads(S2, STEPS[2], S3)
  {
    hide Apply, Succeeds, Next, ActiveCopy, DeadCopy;
  }

  lemma Step4()
    ensures Leads(S3, STEPS[3], S4)
  {
    Buries(FIRST, 1, "a");
    AfterSettles(S3, STEPS[3]);
    hide Apply, Succeeds;
  }

  lemma Step5()
    ensures Leads(S4, STEPS[4], S5)
  {
    assert DeadCopy(S4.store, "t") == {(DEAD, 1)};
    hide After, Enabled, DeadCopy;
    ReadsForReplay(S4, "t", (DEAD, 1));
  }

  lemma Step6()
    ensures Leads(S5, STEPS[5], S6)
  {
    hide Next, DueIds, Promoted, Extended, ActiveCopy, DeadCopy;
  }

  lemma Step7()
    ensures Leads(S6, STEPS[6], S7)
  {
  }

  lemma Step8()
    ensures Leads(S7, STEPS[7], S8)
  {
    HandsOut(SECOND, 2, "b");
    AfterSettles(S7, STEPS[7]);
    hide Apply, Succeeds, Next;
  }

  lemma Step9()
    ensures Leads(S8, STEPS[8], S9)
  {
    hide Apply, Succeeds, Next, ActiveCopy, DeadCopy;
  }

  lemma Step10()
    ensures Leads(S9, STEPS[9], S10)
  {
    Buries(SECOND, 2, "b");
    AfterSettles(S9, STEPS[9]);
    hide Apply, Succeeds;
  }

  lemma Ten()
    ensures |STEPS| == 10
  {
  }

  lemma FirstHalf()
    ensures |STEPS| == 10 && EndsIn(STEPS[..5], S5)
  {
    hide *;
    Ten();
    Nowhere(STEPS);
    Step1();
    Onward(STEPS, 0, START, S1);
    Step2();
    Onward(STEPS, 1, S1, S2);
    Step3();
    Onward(STEPS, 2, S2, S3);
    Step4();
    Onward(STEPS, 3, S3, S4);
    Step5();
    Onward(STEPS, 4, S4, S5);
  }

  lemma SecondHalf()
    ensures EndsIn(STEPS[..10], S10)
  {
    hide *;
    FirstHalf();
    Step6();
    Onward(STEPS, 5, S5, S6);
    Step7();
    Onward(STEPS, 6, S6, S7);
    Step8();
    Onward(STEPS, 7, S7, S8);
    Step9();
    Onward(STEPS, 8, S8, S9);
    Step10();
    Onward(STEPS, 9, S9, S10);
  }

  lemma WritesFirst()
    ensures (DEAD, 1) in S10.replaying && !Atomic(S10, DEAD, 30)
  {
    ReplayApplies(S10.store, "t", Reset(DEAD, 30));
    hide Apply;
    assert Apply(S10.store, Op.Replay("t", Reset(DEAD, 30))).tasks["t"].msg.kind == "first";
    assert ProtocolTheorems.AtomicReplay(S10.store, "t", 30).tasks["t"].msg.kind == "second";
  }

  /** Legal steps that end with a replay about to write the first message over the second. */
  lemma ReplayCanCross()
    ensures Legal(START, STEPS) && (DEAD, 1) in Runs(START, STEPS).replaying
    ensures !Atomic(Runs(START, STEPS), DEAD, 30)
  {
    hide Legal, Runs, Atomic;
    SecondHalf();
    WritesFirst();
    assert STEPS[..10] == STEPS;
  }
}
