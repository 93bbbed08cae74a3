/**
 * sync/sync.go as a class: the package's globals (`isRefreshing`, the
 * `errChan` requeue buffer, the `semaphore` channel, the output log `o`)
 * become fields, updated in place by one method per Go function. The
 * semaphore is a count of the slots held (`inFlight`): every step and every
 * token refresh takes one slot and gives it back on every way out. Remote
 * answers are taken in order from `replies` and `renewals`.
 *
 * Each method is proved against the pipeline function it implements:
 * `State()` after the call is what `Pipeline` says it is. The goroutine that
 * `processUser` starts runs to completion at once, and the one-second sleep
 * is left out.
 */
module Sync {

  import opened Wrappers
  import opened CustomFields
  import opened Pipeline
  import Utils
  import MindBody

  class SyncRun {
    const settings: Settings
    var isRefreshing: bool
    var buffer: seq<Member>
    var failed: map<string, string>
    var success: nat
    var replies: seq<Reply>
    var renewals: seq<Renewal>
    var expireTime: int
    var halt: Halt
    /** Semaphore slots currently held. */
    var inFlight: nat

    /** The run's state, as the pipeline functions see it. */
    function State(): RunState
      reads this
    {
      RunState(isRefreshing, buffer, failed, success, replies, renewals, expireTime, halt, inFlight)
    }

    constructor (barcodeFieldId: int, statusFieldId: int, rateLimit: nat,
                 replies: seq<Reply>, renewals: seq<Renewal>, expireTime: int)
      ensures settings == Settings(SyncVariant, barcodeFieldId, statusFieldId, rateLimit)
      ensures State() == Initial(replies, renewals, expireTime)
    {
      settings := Settings(SyncVariant, barcodeFieldId, statusFieldId, rateLimit);
      isRefreshing := false;
      buffer := [];
      failed := map[];
      success := 0;
      this.replies := replies;
      this.renewals := renewals;
      this.expireTime := expireTime;
      halt := Running;
      inFlight := 0;
    }

    /** `o.failure(userID, reason)`: the reason is written under the ID, replacing an earlier one. */
    method Failure(userId: string, reason: string)
      modifies this
      ensures State() == old(State()).(failed := old(failed)[userId := reason])
    {
      failed := failed[userId := reason];
    }

    /** The deferred `<-semaphore`: the slot is given back unless the run is stuck. */
    method ReleaseSlot()
      requires IsSync(settings) && (halt.Running? ==> inFlight > 0)
      modifies this
      ensures State() == Release(settings, old(State()))
    {
      if halt.Running? {
        inFlight := inFlight - 1;
      }
    }

    /**
     * What every step function does once it holds its slot and has made its
     * remote call: a success passes; a 401 pushes the user onto the buffer
     * and runs `doRefresh`; any other error records "<Step>: <error>"; and
     * the slot is given back.
     */
    method Respond(m: Member, stage: Stage) returns (ok: bool, requeued: bool)
      requires IsSync(settings) && halt.Running? && inFlight > 0
      requires IsFieldStage(stage) ==> FieldValue(FieldId(settings, stage), m.customFields).Success?
      modifies this
      decreases |replies|, 1, 0
      ensures (State(), ok, requeued) == Step(settings, old(State()).(inFlight := old(inFlight) - 1), m, stage)
    {
      if replies == [] {
        halt := OracleExhausted;
        return false, false;
      }
      var reply := replies[0];
      replies := replies[1..];
      if reply.Ok? {
        ReleaseSlot();
        return true, false;
      }
      if Unauthorized(reply) {
        if |buffer| >= settings.capacity {
          halt := Deadlocked;
          return false, true;
        }
        buffer := buffer + [m];
        DoRefresh();
        ReleaseSlot();
        return false, true;
      }
      Failure(m.externalId, Reason(settings, stage, Utils.ErrorText(reply.error)));
      ReleaseSlot();
      return false, false;
    }

    /** `createUser(user)`. */
    method CreateUser(m: Member) returns (ok: bool, requeued: bool)
      requires IsSync(settings) && halt.Running?
      modifies this
      decreases |replies|, 1, 1
      ensures (State(), ok, requeued) == Step(settings, old(State()), m, Pipeline.CreateUser)
    {
      inFlight := inFlight + 1;
      ok, requeued := Respond(m, Pipeline.CreateUser);
    }

    /**
     * `updateCustomField(user, id)` for the barcode or the status field: a
     * field the user lacks is recorded as a failure with no remote call.
     */
    method UpdateCustomField(m: Member, stage: Stage) returns (ok: bool, requeued: bool)
      requires IsSync(settings) && halt.Running? && IsFieldStage(stage)
      modifies this
      decreases |replies|, 1, 1
      ensures (State(), ok, requeued) == Step(settings, old(State()), m, stage)
    {
      inFlight := inFlight + 1;
      var value := FieldValue(FieldId(settings, stage), m.customFields);
      if value.Failure? {
        Failure(m.externalId, Reason(settings, stage, value.error));
        ReleaseSlot();
        return false, false;
      }
      ok, requeued := Respond(m, stage);
    }

    /** `createCredential(barcodeID, user)`. */
    method CreateCredential(m: Member) returns (ok: bool, requeued: bool)
      requires IsSync(settings) && halt.Running?
      modifies this
      decreases |replies|, 1, 1
      ensures (State(), ok, requeued) == Step(settings, old(State()), m, Pipeline.CreateCredential)
    {
      inFlight := inFlight + 1;
      ok, requeued := Respond(m, Pipeline.CreateCredential);
    }

    /** `assignCredential(credID, user)`. */
    method AssignCredential(m: Member) returns (ok: bool, requeued: bool)
      requires IsSync(settings) && halt.Running?
      modifies this
      decreases |replies|, 1, 1
      ensures (State(), ok, requeued) == Step(settings, old(State()), m, Pipeline.AssignCredential)
    {
      inFlight := inFlight + 1;
      ok, requeued := Respond(m, Pipeline.AssignCredential);
    }

    /** `assignGroup(user)`. */
    method AssignGroup(m: Member) returns (ok: bool, requeued: bool)
      requires IsSync(settings) && halt.Running?
      modifies this
      decreases |replies|, 1, 1
      ensures (State(), ok, requeued) == Step(settings, old(State()), m, Pipeline.AssignGroup)
    {
      inFlight := inFlight + 1;
      ok, requeued := Respond(m, Pipeline.AssignGroup);
    }

    /**
     * `processUser(user)`: the six steps, each returning at once on any
     * failure; a success is counted only after all six pass.
     */
    method ProcessUser(m: Member)
      requires IsSync(settings) && halt.Running?
      modifies this
      decreases |replies|, 2, 2
      ensures State() == Pipeline.ProcessUser(settings, old(State()), m)
    {
      assert Stages[0..] == Stages;
      ghost var s0 := State();
      var ok, requeued := CreateUser(m);
      AttemptAdvance(settings, s0, m, 0, (State(), ok, requeued));
      if !ok {
        return;
      }
      ghost var s1 := State();
      ok, requeued := UpdateCustomField(m, BarcodeField);
      AttemptAdvance(settings, s1, m, 1, (State(), ok, requeued));
      if !ok {
        return;
      }
      ghost var s2 := State();
      ok, requeued := UpdateCustomField(m, SecondField);
      AttemptAdvance(settings, s2, m, 2, (State(), ok, requeued));
      if !ok {
        return;
      }
      FinishUser(m);
    }

    /**
     * The rest of `processUser`'s goroutine, from creating the credential
     * on: the state after it is the attempt's from the fourth stage.
     */
    method FinishUser(m: Member)
      requires IsSync(settings) && halt.Running?
      modifies this
      decreases |replies|, 2, 1
      ensures State() == Attempt(settings, old(State()), m, Stages[3..]).0
    {
      ghost var s3 := State();
      var ok, requeued := CreateCredential(m);
      AttemptAdvance(settings, s3, m, 3, (State(), ok, requeued));
      if !ok {
        return;
      }
      AssignUser(m);
    }

    /**
     * The end of `processUser`'s goroutine: assign the credential and the
     * group, then count a success.
     */
    method AssignUser(m: Member)
      requires IsSync(settings) && halt.Running?
      modifies this
      decreases |replies|, 2, 0
      ensures State() == Attempt(settings, old(State()), m, Stages[4..]).0
    {
      ghost var s4 := State();
      var ok, requeued := AssignCredential(m);
      AttemptAdvance(settings, s4, m, 4, (State(), ok, requeued));
      if !ok {
        return;
      }
      ghost var s5 := State();
      ok, requeued := AssignGroup(m);
      AttemptAdvance(settings, s5, m, 5, (State(), ok, requeued));
      if !ok {
        return;
      }
      AttemptFinish(settings, State(), m);
      success := success + 1;
    }

    /**
     * `refreshToken()`: take a slot, ask for a token, give the slot back.
     * The next renewal is used up; its new expiry is kept when it succeeds.
     */
    method RefreshToken() returns (ok: bool)
      requires IsSync(settings) && halt.Running?
      modifies this
      ensures old(renewals) == [] ==> !ok && State() == old(State()).(halt := OracleExhausted)
      ensures old(renewals) != [] ==>
                && (ok <==> old(renewals)[0].result.Success?)
                && State() == old(State()).(renewals := old(renewals)[1..],
                                            expireTime := if ok then old(renewals)[0].result.value else old(expireTime))
    {
      if renewals == [] {
        halt := OracleExhausted;
        return false;
      }
      var renewal := renewals[0];
      renewals := renewals[1..];
      inFlight := inFlight + 1;
      match renewal.result {
        case Failure(_) =>
          ok := false;
        case Success(expiry) =>
          expireTime := expiry;
          ok := true;
      }
      inFlight := inFlight - 1;
    }

    /**
     * `doRefresh()`: nothing while a refresh is under way; otherwise set the
     * flag and refresh the token. A failure returns with the flag still set
     * and the buffer as it was; a success clears the flag and re-processes
     * buffered users, oldest first, until the buffer is empty.
     */
    method DoRefresh()
      requires IsSync(settings) && halt.Running?
      modifies this
      decreases |replies|, 4, 0
      ensures State() == Pipeline.DoRefresh(settings, old(State()))
    {
      if isRefreshing {
        return;
      }
      isRefreshing := true;
      var ok := RefreshToken();
      if !ok {
        return;
      }
      isRefreshing := false;
      DrainBuffer();
    }

    /** The loop at the end of `doRefresh()`: re-process buffered users, oldest first, until the buffer is empty. */
    method DrainBuffer()
      requires IsSync(settings)
      modifies this
      decreases |replies|, 3, 0
      ensures State() == Drain(settings, old(State()))
    {
      while halt.Running? && buffer != []
        invariant |replies| <= |old(replies)|
        invariant Drain(settings, State()) == Drain(settings, old(State()))
        decreases |replies|, if halt.Running? then 1 else 0
      {
        var m := buffer[0];
        buffer := buffer[1..];
        ProcessUser(m);
      }
    }

    /**
     * `createUsers()`: start with no refresh under way, an empty buffer, a
     * fresh semaphore and an empty failed map; skip clients whose ID
     * `isValid` rejects; build the others with `build` and process each at
     * once, or push it onto the buffer while a refresh is under way.
     */
    method CreateUsers(clients: seq<MindBody.Client>, isValid: string -> bool, build: MindBody.Client -> Member)
      requires IsSync(settings)
      modifies this
      ensures State() == Pipeline.CreateUsers(settings, old(State()).(isRefreshing := false, buffer := [], failed := map[], inFlight := 0),
                                              clients, isValid, build, |clients|)
    {
      isRefreshing := false;
      buffer := [];
      failed := map[];
      inFlight := 0;
      ghost var start := State();
      var i := 0;
      while i < |clients|
        invariant i <= |clients|
        invariant State() == Pipeline.CreateUsers(settings, start, clients, isValid, build, i)
      {
        if halt.Running? && isValid(clients[i].id) {
          var user := build(clients[i]);
          if !isRefreshing {
            ProcessUser(user);
          } else if |buffer| >= settings.capacity {
            halt := Deadlocked;
          } else {
            buffer := buffer + [user];
          }
        }
        i := i + 1;
      }
    }

    /** `o.printLog()`: the log's lines, with the failed map ranged over in `order`. */
    method PrintLog(order: seq<string>) returns (lines: seq<string>)
      requires Enumerates(order, failed.Keys)
      ensures lines == Summary(success, failed, order)
    {
      var failedLines := [];
      var i := 0;
      while i < |order|
        invariant i <= |order|
        invariant failedLines == FailureLines(failed, order[..i])
      {
        assert order[..i + 1][..i] == order[..i];
        failedLines := failedLines + [FailureLine(order[i], failed[order[i]])];
        i := i + 1;
      }
      assert order[..i] == order;
      lines := [LogHeader, "Users Created Successfully: " + GoStrings.Itoa(success) + "\n",
                "Users Failed: " + GoStrings.Itoa(|failed|) + "\n"] + failedLines;
    }
  }
}
