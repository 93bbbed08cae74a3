/**
 * migrate/migrate.go as a class: the package's globals (`isRefreshing`, the
 * `errChan` requeue buffer, the output log `o`) become fields, updated in
 * place by one method per Go function. Remote answers are taken in order
 * from `replies` and `renewals`; the clock is read from the renewal.
 *
 * Each method is proved against the pipeline function it implements:
 * `State()` after the call is what `Pipeline` says it is. The goroutine that
 * `processUser` starts runs to completion at once, and the rate limiter is
 * left out.
 */
module Migrate {

  import opened Wrappers
  import opened CustomFields
  import opened Pipeline
  import Utils
  import MindBody

  class Migration {
    /** The configuration; `requeueStops` selects the corrected abort rule. */
    const settings: Settings
    var isRefreshing: bool
    var buffer: seq<Member>
    var failed: map<string, string>
    var success: nat
    var replies: seq<Reply>
    var renewals: seq<Renewal>
    var expireTime: int
    var halt: Halt

    /** The run's state, as the pipeline functions see it (migrate holds no semaphore). */
    function State(): RunState
      reads this
    {
      RunState(isRefreshing, buffer, failed, success, replies, renewals, expireTime, halt, 0)
    }

    constructor (requeueStops: bool, barcodeFieldId: int, userTypeFieldId: int, rateLimit: nat,
                 replies: seq<Reply>, renewals: seq<Renewal>, expireTime: int)
      ensures settings == Settings(MigrateVariant(requeueStops), barcodeFieldId, userTypeFieldId, rateLimit)
      ensures State() == Initial(replies, renewals, expireTime)
    {
      settings := Settings(MigrateVariant(requeueStops), barcodeFieldId, userTypeFieldId, rateLimit);
      isRefreshing := false;
      buffer := [];
      failed := map[];
      success := 0;
      this.replies := replies;
      this.renewals := renewals;
      this.expireTime := expireTime;
      halt := Running;
    }

    /** `o.failure(userID, reason)`: the reason is written under the ID, replacing an earlier one. */
    method Failure(userId: string, reason: string)
      modifies this
      ensures State() == old(State()).(failed := old(failed)[userId := reason])
    {
      failed := failed[userId := reason];
    }

    /**
     * The answer handling every step function shares: take the next answer;
     * a success passes; a 401 pushes the user onto the buffer and runs
     * `doRefresh`; any other error records "<Step>: <error>".
     */
    method Respond(m: Member, stage: Stage) returns (ok: bool, requeued: bool)
      requires IsMigrate(settings) && halt.Running?
      requires IsFieldStage(stage) ==> FieldValue(FieldId(settings, stage), m.customFields).Success?
      modifies this
      decreases |replies|, 1, 0
      ensures (State(), ok, requeued) == Step(settings, old(State()), m, stage)
    {
      if replies == [] {
        halt := OracleExhausted;
        return false, false;
      }
      var reply := replies[0];
      replies := replies[1..];
      if reply.Ok? {
        return true, false;
      }
      if Unauthorized(reply) {
        if |buffer| >= settings.capacity {
          halt := Deadlocked;
          return false, true;
        }
        buffer := buffer + [m];
        DoRefresh();
        return false, true;
      }
      Failure(m.externalId, Reason(settings, stage, Utils.ErrorText(reply.error)));
      return false, false;
    }

    /** `createUser(user)`. */
    method CreateUser(m: Member) returns (ok: bool, requeued: bool)
      requires IsMigrate(settings) && halt.Running?
      modifies this
      decreases |replies|, 1, 1
      ensures (State(), ok, requeued) == Step(settings, old(State()), m, Pipeline.CreateUser)
    {
      ok, requeued := Respond(m, Pipeline.CreateUser);
    }

    /**
     * `updateCustomField(user, id)` for the barcode or the user-type field:
     * a field the user lacks is recorded as a failure with no remote call.
     */
    method UpdateCustomField(m: Member, stage: Stage) returns (ok: bool, requeued: bool)
      requires IsMigrate(settings) && halt.Running? && IsFieldStage(stage)
      modifies this
      decreases |replies|, 1, 1
      ensures (State(), ok, requeued) == Step(settings, old(State()), m, stage)
    {
      var value := FieldValue(FieldId(settings, stage), m.customFields);
      if value.Failure? {
        Failure(m.externalId, Reason(settings, stage, value.error));
        return false, false;
      }
      ok, requeued := Respond(m, stage);
    }

    /** `createCredential(barcodeID, user)`. */
    method CreateCredential(m: Member) returns (ok: bool, requeued: bool)
      requires IsMigrate(settings) && halt.Running?
      modifies this
      decreases |replies|, 1, 1
      ensures (State(), ok, requeued) == Step(settings, old(State()), m, Pipeline.CreateCredential)
    {
      ok, requeued := Respond(m, Pipeline.CreateCredential);
    }

    /** `assignCredential(credID, user)`. */
    method AssignCredential(m: Member) returns (ok: bool, requeued: bool)
      requires IsMigrate(settings) && halt.Running?
      modifies this
      decreases |replies|, 1, 1
      ensures (State(), ok, requeued) == Step(settings, old(State()), m, Pipeline.AssignCredential)
    {
      ok, requeued := Respond(m, Pipeline.AssignCredential);
    }

    /** `assignGroup(user)`. */
    method AssignGroup(m: Member) returns (ok: bool, requeued: bool)
      requires IsMigrate(settings) && halt.Running?
      modifies this
      decreases |replies|, 1, 1
      ensures (State(), ok, requeued) == Step(settings, old(State()), m, Pipeline.AssignGroup)
    {
      ok, requeued := Respond(m, Pipeline.AssignGroup);
    }

    /**
     * `processUser(user)`: create the user and set the barcode field, each
     * aborting on failure; set the user-type field, not aborting; create the
     * credential, aborting; assign the credential and the group, not
     * aborting; then count a success.
     */
    method ProcessUser(m: Member)
      requires IsMigrate(settings) && halt.Running?
      modifies this
      decreases |replies|, 2, 2
      ensures State() == Pipeline.ProcessUser(settings, old(State()), m)
    {
      assert Stages[0..] == Stages;
      ghost var s0 := State();
      var ok, requeued := CreateUser(m);
      AttemptAdvance(settings, s0, m, 0, (State(), ok, requeued));
      if !ok {
        return;
      }
      ghost var s1 := State();
      ok, requeued := UpdateCustomField(m, BarcodeField);
      AttemptAdvance(settings, s1, m, 1, (State(), ok, requeued));
      if !ok {
        return;
      }
      ghost var s2 := State();
      ok, requeued := UpdateCustomField(m, SecondField);
      AttemptAdvance(settings, s2, m, 2, (State(), ok, requeued));
      if !ok && (!halt.Running? || !Continues(settings, SecondField, requeued)) {
        return;
      }
      FinishUser(m);
    }

    /**
     * The rest of `processUser`'s goroutine, from creating the credential
     * on: the state after it is the attempt's from the fourth stage.
     */
    method FinishUser(m: Member)
      requires IsMigrate(settings) && halt.Running?
      modifies this
      decreases |replies|, 2, 1
      ensures State() == Attempt(settings, old(State()), m, Stages[3..]).0
    {
      ghost var s3 := State();
      var ok, requeued := CreateCredential(m);
      AttemptAdvance(settings, s3, m, 3, (State(), ok, requeued));
      if !ok {
        return;
      }
      AssignUser(m);
    }

    /**
     * The end of `processUser`'s goroutine: assign the credential and the
     * group, then count a success.
     */
    method AssignUser(m: Member)
      requires IsMigrate(settings) && halt.Running?
      modifies this
      decreases |replies|, 2, 0
      ensures State() == Attempt(settings, old(State()), m, Stages[4..]).0
    {
      ghost var s4 := State();
      var ok, requeued := AssignCredential(m);
      AttemptAdvance(settings, s4, m, 4, (State(), ok, requeued));
      if !ok && (!halt.Running? || !Continues(settings, Pipeline.AssignCredential, requeued)) {
        return;
      }
      ghost var s5 := State();
      ok, requeued := AssignGroup(m);
      AttemptAdvance(settings, s5, m, 5, (State(), ok, requeued));
      if !ok && (!halt.Running? || !Continues(settings, Pipeline.AssignGroup, requeued)) {
        return;
      }
      AttemptFinish(settings, State(), m);
      success := success + 1;
    }

    /**
     * `doRefresh()`: nothing while a refresh is under way; otherwise set the
     * flag, ask for a token only when the clock is past the expiry (a
     * failure is fatal), clear the flag, and re-process buffered users,
     * oldest first, until the buffer is empty.
     */
    method DoRefresh()
      requires IsMigrate(settings) && halt.Running?
      modifies this
      decreases |replies|, 4, 0
      ensures State() == Pipeline.DoRefresh(settings, old(State()))
    {
      if isRefreshing {
        return;
      }
      isRefreshing := true;
      if renewals == [] {
        halt := OracleExhausted;
        return;
      }
      var renewal := renewals[0];
      renewals := renewals[1..];
      if renewal.now > expireTime {
        assert renewal.result.Failure? ==> Renew(settings, old(State())).halt == Fatal(RefreshFatal(RefreshError(renewal.result.error)));
        var err := RefreshToken(renewal.result);
        if err.Some? {
          halt := Fatal(RefreshFatal(err.value));
          return;
        }
      }
      isRefreshing := false;
      DrainBuffer();
    }

    /**
     * `refreshToken()`, given what the token call answers: the new expiry is
     * kept, or the error comes back wrapped as "Error refreshing Brivo token: ...".
     */
    method RefreshToken(answer: Result<int, string>) returns (err: Option<string>)
      modifies this
      ensures err.None? <==> answer.Success?
      ensures answer.Success? ==> State() == old(State()).(expireTime := answer.value)
      ensures answer.Failure? ==> State() == old(State()) && err == Some(RefreshError(answer.error))
    {
      match answer {
        case Failure(e) =>
          err := Some(RefreshError(e));
        case Success(expiry) =>
          expireTime := expiry;
          err := None;
      }
    }

    /** The loop at the end of `doRefresh()`: re-process buffered users, oldest first, until the buffer is empty. */
    method DrainBuffer()
      requires IsMigrate(settings)
      modifies this
      decreases |replies|, 3, 0
      ensures State() == Drain(settings, old(State()))
    {
      while halt.Running? && buffer != []
        invariant |replies| <= |old(replies)|
        invariant Drain(settings, State()) == Drain(settings, old(State()))
        decreases |replies|, if halt.Running? then 1 else 0
      {
        var m := buffer[0];
        buffer := buffer[1..];
        ProcessUser(m);
      }
    }

    /**
     * `createUsers()`: start with no refresh under way, an empty buffer and
     * an empty failed map; skip clients whose ID `isValid` rejects; build the
     * others with `build` and process each at once, or push it onto the
     * buffer while a refresh is under way.
     */
    method CreateUsers(clients: seq<MindBody.Client>, isValid: string -> bool, build: MindBody.Client -> Member)
      requires IsMigrate(settings)
      modifies this
      ensures State() == Pipeline.CreateUsers(settings, old(State()).(isRefreshing := false, buffer := [], failed := map[]), clients, isValid, build, |clients|)
    {
      isRefreshing := false;
      buffer := [];
      failed := map[];
      ghost var start := State();
      var i := 0;
      while i < |clients|
        invariant i <= |clients|
        invariant State() == Pipeline.CreateUsers(settings, start, clients, isValid, build, i)
      {
        if halt.Running? && isValid(clients[i].id) {
          var user := build(clients[i]);
          if !isRefreshing {
            ProcessUser(user);
          } else if |buffer| >= settings.capacity {
            halt := Deadlocked;
          } else {
            buffer := buffer + [user];
          }
        }
        i := i + 1;
      }
    }

    /** `o.printLog()`: the log's lines, with the failed map ranged over in `order`. */
    method PrintLog(order: seq<string>) returns (lines: seq<string>)
      requires Enumerates(order, failed.Keys)
      ensures lines == Summary(success, failed, order)
    {
      var failedLines := [];
      var i := 0;
      while i < |order|
        invariant i <= |order|
        invariant failedLines == FailureLines(failed, order[..i])
      {
        assert order[..i + 1][..i] == order[..i];
        failedLines := failedLines + [FailureLine(order[i], failed[order[i]])];
        i := i + 1;
      }
      assert order[..i] == order;
      lines := [LogHeader, "Users Created Successfully: " + GoStrings.Itoa(success) + "\n",
                "Users Failed: " + GoStrings.Itoa(|failed|) + "\n"] + failedLines;
    }
  }
}
