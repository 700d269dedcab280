/** A small concrete run of the protocol, for the exhibits: one run, one signed request, one call that
    registers it and contacts the worker. */
module SampleRun {
  import opened Basics
  import opened ExecutionProtocol
  import opened Ledger
  import opened Invocation
  import opened Protocol
  import opened ProtocolTheorems

  const CFG := Config(true, Some(7), true)
  const GUARD := RunIdentity(1, "s", "o")
  const HANDOFF := Handoff(Absent, Usable, true, Some(5), Some(60.0))
  const REQUEST := Envelope(2, 3, "c", 1, "s", "o", 7, "t", 5, 0, 900 * SECOND, false, 3, true, true)
  const RECEIPT := Receipt(2, Succeeded, 9, "a", 0, true)

  const RESULT :=
    Observation(4, 2, 1, Sha256(REQUEST), Worker, WorkerResult, "a", "a", NoReason, Some(6), Some(Sha256(RECEIPT)),
                Some(Success), Some(RECEIPT), true, true)

  const REPLY :=
    Reply(OriginalResult, "a", ToolReport("t", Success, false, false, true, 9), RESULT,
          RecoveryPage(true, false, false, Some(RECEIPT), Sha256(REQUEST), "a", true, true, EchoOf(REQUEST), []), true)

  lemma ReplyIsVerified()
    ensures VerifyOriginal(REPLY, REQUEST, true, "a", "a") == Ok(VerifiedOriginal(REPLY, "a", "a"))
  {
    hide SafeRequestId;
    ShortIdIsSafe();
    assert ValidateObservation(RESULT, REQUEST, true).None?;
  }

  lemma ShortIdIsSafe()
    ensures SafeRequestId("a")
  {
  }

  lemma PossibleNext(s: System, a: Action)
    requires Possible(s)
    ensures Possible(Next(s, a))
  {
    hide Next, Possible;
    assert Perform(s, [a]) == Next(s, a) by {
      assert [a][..0] == [];
      assert Perform(s, []) == s;
    }
    PossibleContinues(s, [a]);
  }

  /** The ledger with the run, and then with the registered request, and then with its claim. */
  const CREATED := EmptyLedger(true, 7).(runs := map[1 := Run("s", "o", None)])

  const REGISTERED :=
    CREATED.(intents := map[2 := Intent(REQUEST, "a", 0, 1)], states := map[2 := EMPTY_STATE], nextIntent := 2)

  const CLAIM :=
    Observe(REQUEST, 8, Worker, ClaimCommitted, "a", "a", NoReason).(claimOwnerId := Some(6))

  const CLAIMED :=
    REGISTERED.(claims := map[2 := Claim(6, 0, OBSERVE_WINDOW)], rows := [Row(1, 0, Some(ClaimSlot), CLAIM)],
                nextRow := 2)

  const CALL := Call(0, GUARD, CFG, REQUEST, HANDOFF, "a", "a", false, false, Unlatched)

  /** A run is created and a call on it begins. */
  lemma BegunCall() returns (s: System)
    ensures Possible(s) && s == Start(true, 7, 0).(db := CREATED, calls := map[0 := CALL])
  {
    hide Possible;
    var s0 := Start(true, 7, 0);
    StartIsPossible(true, 7, 0);
    var s1 := Next(s0, Others(CreateRunOp(1, "s", "o")));
    PossibleNext(s0, Others(CreateRunOp(1, "s", "o")));
    assert s1.db == CREATED;
    var begin := Begin(0, 0, GUARD, CFG, REQUEST, HANDOFF, "a", "a");
    var s2 := Next(s1, begin);
    PossibleNext(s1, begin);
    s := Next(s2, Check(0));
    PossibleNext(s2, Check(0));
  }

  lemma RequestIsValid()
    ensures ValidateRequest(REQUEST, true).None? && SafeRequestId("a")
  {
  }

  lemma RegisterSample()
    ensures Register(CREATED, CFG, REQUEST, "a", 0) == Step(REGISTERED, Ok("a"))
  {
    hide ValidateRequest, SafeRequestId;
    RequestIsValid();
  }

  /** It registers its request and contacts the worker. */
  lemma PostedCall() returns (s: System)
    ensures Possible(s)
    ensures s == Start(true, 7, 0).(db := REGISTERED, calls := map[0 := CALL.(posted := true, stage := Posted)])
  {
    hide Possible, ValidateRequest, SafeRequestId, Register;
    RequestIsValid();
    RegisterSample();
    var s0 := BegunCall();
    var s1 := Next(s0, RegisterCall(0, Healthy));
    PossibleNext(s0, RegisterCall(0, Healthy));
    s := Next(s1, Post(0));
    PossibleNext(s1, Post(0));
  }

  lemma ClaimSample()
    ensures ClaimDispatch(REGISTERED, CFG, REQUEST, "a", 6, 8, 0) == Step(CLAIMED, Ok(6))
  {
    hide ValidateRequest, SafeRequestId;
    RequestIsValid();
    assert WorkerRefusal(InsertClaim(REGISTERED, 2, 6, 0), REGISTERED.intents[2], CLAIM, true).None?;
  }

  /** The worker claims it. */
  lemma ClaimedCall() returns (s: System)
    ensures Possible(s)
    ensures s == Start(true, 7, 0).(db := CLAIMED, calls := map[0 := CALL.(posted := true, stage := Posted)],
                                    mints := [Mint(REQUEST, 6, false, false)])
  {
    hide Possible, ClaimDispatch;
    ClaimSample();
    var s0 := PostedCall();
    var claim := ClaimSend(CFG, REQUEST, "a", 6, 8, Healthy);
    s := Next(s0, claim);
    PossibleNext(s0, claim);
  }

  lemma StartIsPossible(enabled: bool, epoch: Uuid, now: Time)
    ensures Possible(Start(enabled, epoch, now))
  {
    hide Next;
    assert Perform(Start(enabled, epoch, now), []) == Start(enabled, epoch, now);
  }
}
