/**
 * The per-user pipeline that migrate/migrate.go and sync/sync.go share, as
 * functions on the run's state. A MINDBODY client turned into a Brivo user
 * goes through six remote steps: create user, barcode field, user-type (or
 * status) field, create credential, assign credential, assign group. Each
 * step's answer is one of three: success, a 401 (the user is pushed onto the
 * requeue buffer and the token refresh runs, draining the buffer), or another
 * error (a "<Step>: <error>" reason is written under the user's external ID).
 *
 * The two programs differ in which failures abort the user, in whether the
 * refresh looks at the clock, and in what a failed refresh does; `Variant`
 * selects. The goroutines are run one at a time, each to completion when it
 * is started. Every remote answer is taken, in order, from `replies` (one
 * per remote call of a step) and `renewals` (one per token refresh).
 */
module Pipeline {

  import opened Wrappers
  import opened GoStrings
  import opened CustomFields
  import Utils
  import MindBody

  /** The Brivo user a client is turned into, as far as the pipeline reads it. */
  datatype Member = Member(externalId: string, customFields: seq<CustomField>)

  /** The answer to a step's remote call. */
  datatype Reply = Ok | Err(error: Utils.Error)

  /** What one token refresh sees: the clock reading, and the new expiry or the error. */
  datatype Renewal = Renewal(now: int, result: Result<int, string>)

  /**
   * How the run stands. `OracleExhausted` ends a run whose answers ran out;
   * `Deadlocked` is a push onto a full buffer that nobody will drain;
   * `Fatal` is `log.Fatalf`.
   */
  datatype Halt = Running | OracleExhausted | Deadlocked | Fatal(message: string)

  /**
   * migrate.go, or its corrected form in which a 401 ends the user's attempt
   * (`requeueStops`); or sync.go.
   */
  datatype Variant = MigrateVariant(requeueStops: bool) | SyncVariant

  datatype Stage = CreateUser | BarcodeField | SecondField | CreateCredential | AssignCredential | AssignGroup

  /**
   * The configuration the pipeline reads: the barcode field ID, the second
   * field's ID (the user-type field in migrate, the status field in sync),
   * and the rate limit, which is the capacity of the requeue buffer.
   */
  datatype Settings = Settings(variant: Variant, barcodeFieldId: int, secondFieldId: int, capacity: nat)

  /**
   * The run's state: the refresh flag, the requeue buffer, the output log
   * (`failed`, `success`), the answers still to come, the token expiry, the
   * halt, and the number of semaphore slots held (sync only).
   */
  datatype RunState = RunState(
    isRefreshing: bool,
    buffer: seq<Member>,
    failed: map<string, string>,
    success: nat,
    replies: seq<Reply>,
    renewals: seq<Renewal>,
    expireTime: int,
    halt: Halt,
    inFlight: nat)

  /** The steps of `processUser`, in order. */
  const Stages: seq<Stage> := [CreateUser, BarcodeField, SecondField, CreateCredential, AssignCredential, AssignGroup]

  /** The state `createUsers` starts from. */
  function Initial(replies: seq<Reply>, renewals: seq<Renewal>, expireTime: int): RunState {
    RunState(false, [], map[], 0, replies, renewals, expireTime, Running, 0)
  }

  predicate IsMigrate(cfg: Settings) {
    cfg.variant.MigrateVariant?
  }

  predicate IsSync(cfg: Settings) {
    cfg.variant.SyncVariant?
  }

  /** The custom field a field stage updates. */
  function FieldId(cfg: Settings, stage: Stage): int {
    if stage == BarcodeField then cfg.barcodeFieldId else cfg.secondFieldId
  }

  predicate IsFieldStage(stage: Stage) {
    stage == BarcodeField || stage == SecondField
  }

  /** The reason `o.failure` records for a step's error text. */
  function Reason(cfg: Settings, stage: Stage, text: string): string {
    match stage
    case CreateUser => "Create User: " + text
    case BarcodeField => "Update Custom Field ID " + Itoa(cfg.barcodeFieldId) + ": " + text
    case SecondField => "Update Custom Field ID " + Itoa(cfg.secondFieldId) + ": " + text
    case CreateCredential => "Create Credential: " + text
    case AssignCredential => "Assign Credential: " + text
    case AssignGroup => "Assign Group: " + text
  }

  /** A `*JSONError` with code 401. */
  predicate Unauthorized(reply: Reply) {
    reply.Err? && reply.error.JsonError? && reply.error.code == 401
  }

  /**
   * Whether `processUser` goes on after a step that did not pass: in migrate,
   * after the second field, assign credential and assign group (in the
   * corrected form, not when the step requeued the user); in sync, never.
   */
  predicate Continues(cfg: Settings, stage: Stage, requeued: bool) {
    match cfg.variant
    case SyncVariant => false
    case MigrateVariant(requeueStops) =>
      (stage == SecondField || stage == AssignCredential || stage == AssignGroup) && !(requeueStops && requeued)
  }

  /** `o.failure(userID, reason)`. */
  function Fail(s: RunState, m: Member, reason: string): (r: RunState)
    ensures r.failed == s.failed[m.externalId := reason]
  {
    s.(failed := s.failed[m.externalId := reason])
  }

  /** The external IDs the state mentions: failed users and buffered users. */
  function Ids(s: RunState): set<string> {
    s.failed.Keys + set b | b in s.buffer :: b.externalId
  }

  /** Giving back a semaphore slot (sync), unless the run is stuck. */
  function Release(cfg: Settings, s: RunState): RunState
    requires IsSync(cfg) && s.halt.Running? ==> s.inFlight > 0
  {
    if IsSync(cfg) && s.halt.Running? then s.(inFlight := s.inFlight - 1) else s
  }

  /**
   * One step function (`createUser`, `updateCustomField`, `createCredential`,
   * `assignCredential`, `assignGroup`): the state after it, whether it
   * passed, and whether it requeued the user.
   */
  function Step(cfg: Settings, s: RunState, m: Member, stage: Stage): (r: (RunState, bool, bool))
    requires s.halt.Running?
    decreases |s.replies|, 1, 0
    ensures |r.0.replies| <= |s.replies|
    ensures !IsFieldStage(stage) ==> |r.0.replies| < |s.replies| || !r.0.halt.Running?
    ensures r.1 <==> (!IsFieldStage(stage) || FieldValue(FieldId(cfg, stage), m.customFields).Success?) && s.replies != [] && s.replies[0].Ok?
    ensures r.1 ==> !r.2 && s.replies != [] && r.0 == s.(replies := s.replies[1..])
    ensures r.2 <==> (!IsFieldStage(stage) || FieldValue(FieldId(cfg, stage), m.customFields).Success?) && s.replies != [] && Unauthorized(s.replies[0])
    ensures r.0.halt.Running? ==> r.0.inFlight == s.inFlight
    ensures Ids(r.0) <= Ids(s) + {m.externalId}
    ensures r.0.success >= s.success
    ensures !r.2 ==> r.0.buffer == s.buffer && r.0.isRefreshing == s.isRefreshing && r.0.success == s.success
    ensures IsMigrate(cfg) && !s.isRefreshing && r.0.halt.Running? ==>
              !r.0.isRefreshing && (r.0.buffer == s.buffer || r.0.buffer == [])
    ensures IsSync(cfg) && s.isRefreshing ==> r.0.isRefreshing
  {
    var s1 := if IsSync(cfg) then s.(inFlight := s.inFlight + 1) else s;
    var lookup := if IsFieldStage(stage) then FieldValue(FieldId(cfg, stage), m.customFields) else Success("");
    if lookup.Failure? then
      (Release(cfg, Fail(s1, m, Reason(cfg, stage, lookup.error))), false, false)
    else if s1.replies == [] then
      (s1.(halt := OracleExhausted), false, false)
    else
      var reply := s1.replies[0];
      var s2 := s1.(replies := s1.replies[1..]);
      if reply.Ok? then
        (Release(cfg, s2), true, false)
      else if Unauthorized(reply) then
        if |s2.buffer| >= cfg.capacity then
          (s2.(halt := Deadlocked), false, true)
        else
          var s3 := s2.(buffer := s2.buffer + [m]);
          assert Ids(s3) == Ids(s2) + {m.externalId};
          (Release(cfg, DoRefresh(cfg, s3)), false, true)
      else
        (Release(cfg, Fail(s2, m, Reason(cfg, stage, Utils.ErrorText(reply.error)))), false, false)
  }

  /**
   * The stages of `processUser` from `stages` on: the state, whether the
   * user was counted as a success, and whether some step requeued the user.
   */
  function Attempt(cfg: Settings, s: RunState, m: Member, stages: seq<Stage>): (r: (RunState, bool, bool))
    requires s.halt.Running?
    decreases |s.replies|, 2, |stages|
    ensures |r.0.replies| <= |s.replies|
    ensures stages != [] && !IsFieldStage(stages[0]) ==> |r.0.replies| < |s.replies| || !r.0.halt.Running?
    ensures r.0.halt.Running? ==> r.0.inFlight == s.inFlight
    ensures Ids(r.0) <= Ids(s) + {m.externalId}
    ensures r.0.success >= s.success
    ensures IsMigrate(cfg) && !s.isRefreshing && r.0.halt.Running? ==>
              !r.0.isRefreshing && (r.0.buffer == s.buffer || r.0.buffer == [])
    ensures IsSync(cfg) && s.isRefreshing ==> r.0.isRefreshing
  {
    if stages == [] then
      (s.(success := s.success + 1), true, false)
    else
      var step := Step(cfg, s, m, stages[0]);
      if step.1 || (step.0.halt.Running? && Continues(cfg, stages[0], step.2)) then
        var rest := Attempt(cfg, step.0, m, stages[1..]);
        (rest.0, rest.1, step.2 || rest.2)
      else
        (step.0, false, step.2)
  }

  /**
   * One step of `processUser` from stage `k` on: the user's attempt goes on
   * from the step's state when the step passed, or when it did not and the
   * variant carries on; otherwise it ends in the step's state.
   */
  lemma AttemptAdvance(cfg: Settings, s: RunState, m: Member, k: nat, step: (RunState, bool, bool))
    requires s.halt.Running? && k < |Stages| && step == Step(cfg, s, m, Stages[k])
    ensures step.1 || (step.0.halt.Running? && Continues(cfg, Stages[k], step.2)) ==>
              step.0.halt.Running? && Attempt(cfg, s, m, Stages[k..]).0 == Attempt(cfg, step.0, m, Stages[k + 1..]).0
    ensures !(step.1 || (step.0.halt.Running? && Continues(cfg, Stages[k], step.2))) ==>
              Attempt(cfg, s, m, Stages[k..]).0 == step.0
  {
    assert Stages[k..][0] == Stages[k] && Stages[k..][1..] == Stages[k + 1..];
  }

  /** Past the last stage the attempt counts the user. */
  lemma AttemptFinish(cfg: Settings, s: RunState, m: Member)
    requires s.halt.Running?
    ensures Attempt(cfg, s, m, Stages[6..]).0 == s.(success := s.success + 1)
  {
    assert Stages[6..] == [];
  }

  /** `processUser(user)`: the six steps for one user. */
  function ProcessUser(cfg: Settings, s: RunState, m: Member): RunState
    requires s.halt.Running?
  {
    Attempt(cfg, s, m, Stages).0
  }

  /** The error `refreshToken()` returns when the token call fails with `e`. */
  function RefreshError(e: string): string {
    "Error refreshing Brivo token: " + e
  }

  /** The message `doRefresh()` exits with when the refresh fails with `err`. */
  function RefreshFatal(err: string): string {
    "Failed refreshing Brivo AUTH token with err " + err + "\n"
  }

  /**
   * The token refresh inside `doRefresh`, after the flag is set: migrate
   * refreshes only when the clock is past the expiry, and a failure is
   * fatal; sync always refreshes, and a failure leaves the flag set.
   */
  function Renew(cfg: Settings, s: RunState): (r: RunState)
    requires s.halt.Running? && !s.isRefreshing
    ensures r.replies == s.replies && r.buffer == s.buffer && r.failed == s.failed
    ensures r.success == s.success && r.inFlight == s.inFlight
    ensures r.halt.Running? && IsMigrate(cfg) ==> !r.isRefreshing
  {
    if s.renewals == [] then s.(isRefreshing := true, halt := OracleExhausted)
    else
      var renewal := s.renewals[0];
      var s1 := s.(isRefreshing := true, renewals := s.renewals[1..]);
      match cfg.variant
      case MigrateVariant(_) =>
        if renewal.now > s1.expireTime then
          match renewal.result
          case Failure(e) => s1.(halt := Fatal(RefreshFatal(RefreshError(e))))
          case Success(expiry) => s1.(expireTime := expiry, isRefreshing := false)
        else s1.(isRefreshing := false)
      case SyncVariant =>
        match renewal.result
        case Failure(_) => s1
        case Success(expiry) => s1.(expireTime := expiry, isRefreshing := false)
  }

  /** `doRefresh()`: nothing while a refresh is under way; else refresh, then drain the buffer. */
  function DoRefresh(cfg: Settings, s: RunState): (r: RunState)
    requires s.halt.Running?
    decreases |s.replies|, 4, 0
    ensures |r.replies| <= |s.replies|
    ensures r.halt.Running? ==> r.inFlight == s.inFlight
    ensures Ids(r) <= Ids(s)
    ensures r.success >= s.success
    ensures s.isRefreshing ==> r == s
    ensures IsMigrate(cfg) && !s.isRefreshing && r.halt.Running? ==> !r.isRefreshing && r.buffer == []
  {
    if s.isRefreshing then s
    else
      var s1 := Renew(cfg, s);
      if s1.halt.Running? && !s1.isRefreshing then Drain(cfg, s1) else s1
  }

  /** The drain loop of `doRefresh`: process buffered users, oldest first, until the buffer is empty. */
  function Drain(cfg: Settings, s: RunState): (r: RunState)
    decreases |s.replies|, 3, if s.halt.Running? then 1 else 0
    ensures |r.replies| <= |s.replies|
    ensures !s.halt.Running? ==> r == s
    ensures r.halt.Running? ==> r.inFlight == s.inFlight && r.buffer == []
    ensures Ids(r) <= Ids(s)
    ensures r.success >= s.success
    ensures IsMigrate(cfg) && !s.isRefreshing && r.halt.Running? ==> !r.isRefreshing
    ensures IsSync(cfg) && s.isRefreshing ==> r.isRefreshing
  {
    if !s.halt.Running? || s.buffer == [] then s
    else
      var m := s.buffer[0];
      var s1 := s.(buffer := s.buffer[1..]);
      assert Ids(s1) + {m.externalId} == Ids(s);
      Drain(cfg, Attempt(cfg, s1, m, Stages).0)
  }

  /** No reply in `rs` is a 401. */
  predicate NoUnauthorized(rs: seq<Reply>) {
    forall i :: 0 <= i < |rs| ==> !Unauthorized(rs[i])
  }

  /**
   * A step whose answer is not a 401: a missing field records
   * "Update Custom Field ID <id>: Custom field <id> not found" without a
   * remote call; a success only consumes the answer; another error records
   * "<Step>: <error text>" under the external ID. Nothing else changes.
   */
  lemma StepOutcomes(cfg: Settings, s: RunState, m: Member, stage: Stage)
    requires s.halt.Running?
    requires s.replies != [] ==> !Unauthorized(s.replies[0])
    ensures IsFieldStage(stage) && FieldValue(FieldId(cfg, stage), m.customFields).Failure? ==>
              Step(cfg, s, m, stage) == (Fail(s, m, Reason(cfg, stage, NotFoundText(FieldId(cfg, stage)))), false, false)
    ensures (!IsFieldStage(stage) || FieldValue(FieldId(cfg, stage), m.customFields).Success?) ==>
              && (s.replies == [] ==> !Step(cfg, s, m, stage).1 && !Step(cfg, s, m, stage).2 && Step(cfg, s, m, stage).0.halt == OracleExhausted)
              && (s.replies != [] && s.replies[0].Err? ==>
                    Step(cfg, s, m, stage) == (Fail(s.(replies := s.replies[1..]), m, Reason(cfg, stage, Utils.ErrorText(s.replies[0].error))), false, false))
  {
    if IsFieldStage(stage) && FieldValue(FieldId(cfg, stage), m.customFields).Failure? {
      FieldValueSpec(FieldId(cfg, stage), m.customFields);
    }
  }

  /**
   * A step whose answer is a 401: the user is pushed onto the requeue buffer
   * and `doRefresh` runs, with no failure recorded by the step itself; the
   * step does not pass and reports the requeue. A push onto a full buffer
   * blocks for good. While another refresh is under way, `doRefresh` returns
   * at once, so the user just waits in the buffer.
   */
  lemma StepUnauthorized(cfg: Settings, s: RunState, m: Member, stage: Stage)
    requires s.halt.Running?
    requires !IsFieldStage(stage) || FieldValue(FieldId(cfg, stage), m.customFields).Success?
    requires s.replies != [] && Unauthorized(s.replies[0])
    ensures var r := Step(cfg, s, m, stage);
            var s1 := (if IsSync(cfg) then s.(inFlight := s.inFlight + 1) else s).(replies := s.replies[1..]);
            && !r.1 && r.2
            && (|s.buffer| >= cfg.capacity ==> r.0 == s1.(halt := Deadlocked))
            && (|s.buffer| < cfg.capacity ==> r.0 == Release(cfg, DoRefresh(cfg, s1.(buffer := s.buffer + [m]))))
            && (|s.buffer| < cfg.capacity && s.isRefreshing ==>
                  r.0.failed == s.failed && r.0.buffer == s.buffer + [m] && r.0.halt.Running?)
  {
  }

  /**
   * Reference definition of "counted" when no answer is a 401: every step
   * that does not pass must be one `processUser` continues after.
   */
  function Passes(cfg: Settings, m: Member, rs: seq<Reply>, stages: seq<Stage>): bool
    decreases |stages|
  {
    if stages == [] then true
    else
      var stage := stages[0];
      if IsFieldStage(stage) && FieldValue(FieldId(cfg, stage), m.customFields).Failure? then
        Continues(cfg, stage, false) && Passes(cfg, m, rs, stages[1..])
      else if rs == [] then false
      else if rs[0].Ok? then Passes(cfg, m, rs[1..], stages[1..])
      else Continues(cfg, stage, false) && Passes(cfg, m, rs[1..], stages[1..])
  }

  /**
   * Without a 401 no user is requeued and the user is counted exactly when
   * `Passes` holds; the run can only stop by running out of answers.
   */
  lemma {:induction false} CountedIffPasses(cfg: Settings, s: RunState, m: Member, stages: seq<Stage>)
    requires s.halt.Running? && NoUnauthorized(s.replies)
    ensures var r := Attempt(cfg, s, m, stages);
      && !r.2
      && (r.1 <==> Passes(cfg, m, s.replies, stages))
      && (r.0.halt.Running? || r.0.halt == OracleExhausted)
    decreases |stages|
  {
    if stages != [] {
      var stage := stages[0];
      StepOutcomes(cfg, s, m, stage);
      var step := Step(cfg, s, m, stage);
      var rest := stages[1..];
      if IsFieldStage(stage) && FieldValue(FieldId(cfg, stage), m.customFields).Failure? {
        if Continues(cfg, stage, false) {
          CountedIffPasses(cfg, step.0, m, rest);
        }
      } else if s.replies != [] {
        assert NoUnauthorized(s.replies[1..]);
        if step.1 || Continues(cfg, stage, false) {
          CountedIffPasses(cfg, step.0, m, rest);
        }
      }
    }
  }

  /**
   * Without a 401 the attempt leaves the buffer, the refresh flag and the
   * token alone, and the success counter goes up by one exactly when the
   * user is counted.
   */
  lemma {:induction false} AttemptFrame(cfg: Settings, s: RunState, m: Member, stages: seq<Stage>)
    requires s.halt.Running? && NoUnauthorized(s.replies)
    ensures var r := Attempt(cfg, s, m, stages);
      && r.0.success == s.success + (if r.1 then 1 else 0)
      && r.0.buffer == s.buffer && r.0.isRefreshing == s.isRefreshing
      && r.0.renewals == s.renewals && r.0.expireTime == s.expireTime
    decreases |stages|
  {
    if stages != [] {
      var stage := stages[0];
      StepOutcomes(cfg, s, m, stage);
      var step := Step(cfg, s, m, stage);
      if step.1 || (step.0.halt.Running? && Continues(cfg, stage, step.2)) {
        assert step.0.replies == s.replies || step.0.replies == s.replies[1..];
        AttemptFrame(cfg, step.0, m, stages[1..]);
      }
    }
  }

  /**
   * With no 401 among the answers, the attempt writes the failed map under
   * the user's external ID only: other entries keep their reasons.
   */
  lemma {:induction false} AttemptFailedKeys(cfg: Settings, s: RunState, m: Member, stages: seq<Stage>)
    requires s.halt.Running? && NoUnauthorized(s.replies)
    ensures var r := Attempt(cfg, s, m, stages);
      && s.failed.Keys <= r.0.failed.Keys <= s.failed.Keys + {m.externalId}
      && (forall k :: k in s.failed && k != m.externalId ==> r.0.failed[k] == s.failed[k])
    decreases |stages|
  {
    if stages != [] {
      var stage := stages[0];
      StepOutcomes(cfg, s, m, stage);
      var step := Step(cfg, s, m, stage);
      if step.1 || (step.0.halt.Running? && Continues(cfg, stage, step.2)) {
        assert step.0.replies == s.replies || step.0.replies == s.replies[1..];
        AttemptFailedKeys(cfg, step.0, m, stages[1..]);
      }
    }
  }

  /** Reference definition for sync: every step passes. */
  function AllPass(cfg: Settings, m: Member, rs: seq<Reply>, stages: seq<Stage>): bool
    decreases |stages|
  {
    stages == []
    || (&& (!IsFieldStage(stages[0]) || FieldValue(FieldId(cfg, stages[0]), m.customFields).Success?)
        && rs != [] && rs[0].Ok?
        && AllPass(cfg, m, rs[1..], stages[1..]))
  }

  /**
   * In sync, whatever the answers (401s included), a user is counted exactly
   * when every step passes: any step error returns first.
   */
  lemma {:induction false} SyncCountedIffAllPass(cfg: Settings, s: RunState, m: Member, stages: seq<Stage>)
    requires IsSync(cfg) && s.halt.Running?
    ensures Attempt(cfg, s, m, stages).1 <==> AllPass(cfg, m, s.replies, stages)
    decreases |stages|
  {
    if stages != [] {
      var step := Step(cfg, s, m, stages[0]);
      if step.1 {
        SyncCountedIffAllPass(cfg, step.0, m, stages[1..]);
      }
    }
  }

  /** For the six steps of sync: six successful answers, and both custom fields present. */
  lemma SyncCountsOnlyFullPass(cfg: Settings, s: RunState, m: Member)
    requires IsSync(cfg) && s.halt.Running?
    ensures Attempt(cfg, s, m, Stages).1 <==>
              && FieldValue(cfg.barcodeFieldId, m.customFields).Success?
              && FieldValue(cfg.secondFieldId, m.customFields).Success?
              && |s.replies| >= 6 && forall i :: 0 <= i < 6 ==> s.replies[i].Ok?
  {
    SyncCountedIffAllPass(cfg, s, m, Stages);
    AllPassIff(cfg, m, s.replies, Stages);
    assert FieldsPresent(cfg, m, Stages) <==>
             FieldValue(cfg.barcodeFieldId, m.customFields).Success? && FieldValue(cfg.secondFieldId, m.customFields).Success? by {
      assert IsFieldStage(Stages[1]) && IsFieldStage(Stages[2]);
      assert FieldId(cfg, Stages[1]) == cfg.barcodeFieldId && FieldId(cfg, Stages[2]) == cfg.secondFieldId;
    }
  }

  /** Every stage passes exactly when every field is present and the next answers are all successes. */
  lemma {:induction false} AllPassIff(cfg: Settings, m: Member, rs: seq<Reply>, stages: seq<Stage>)
    ensures AllPass(cfg, m, rs, stages) <==>
              FieldsPresent(cfg, m, stages) && |rs| >= |stages| && forall i :: 0 <= i < |stages| ==> rs[i].Ok?
    decreases |stages|
  {
    if stages != [] {
      AllPassIff(cfg, m, if rs == [] then [] else rs[1..], stages[1..]);
      if rs != [] {
        assert forall i :: 1 <= i < |rs| ==> rs[i] == rs[1..][i - 1];
      }
      assert FieldsPresent(cfg, m, stages) <==>
               (!IsFieldStage(stages[0]) || FieldValue(FieldId(cfg, stages[0]), m.customFields).Success?) && FieldsPresent(cfg, m, stages[1..]) by {
        assert forall i :: 1 <= i < |stages| ==> stages[i] == stages[1..][i - 1];
      }
    }
  }

  /**
   * The corrected migrate rule (a requeued user's attempt stops), like sync:
   * an attempt that requeued its user never counts it, so the only count
   * is the one the drained re-run makes.
   */
  lemma {:induction false} RequeuedAttemptNotCounted(cfg: Settings, s: RunState, m: Member, stages: seq<Stage>)
    requires s.halt.Running?
    requires cfg.variant != MigrateVariant(false)
    ensures Attempt(cfg, s, m, stages).2 ==> !Attempt(cfg, s, m, stages).1
    decreases |stages|
  {
    if stages != [] {
      var step := Step(cfg, s, m, stages[0]);
      if step.1 || (step.0.halt.Running? && Continues(cfg, stages[0], step.2)) {
        RequeuedAttemptNotCounted(cfg, step.0, m, stages[1..]);
      }
    }
  }

  /** A member with both custom fields (barcode field 1, user-type field 2). */
  const SampleMember := Member("7", [CustomField(1, "7"), CustomField(2, "Member")])

  /** Migrate as written, or corrected, with a buffer of one. */
  function SampleSettings(requeueStops: bool): Settings {
    Settings(MigrateVariant(requeueStops), 1, 2, 1)
  }

  /**
   * Two answers, then a 401 on the user-type field, then nine successes; one
   * refresh, before the expiry, so nothing is refreshed and the buffer is drained.
   */
  function SampleStart(): RunState {
    Initial([Ok, Ok, Err(Utils.JsonError(401, [])), Ok, Ok, Ok, Ok, Ok, Ok, Ok, Ok, Ok], [Renewal(0, Success(100))], 100)
  }

  /** Every field stage among `stages` finds its field. */
  predicate FieldsPresent(cfg: Settings, m: Member, stages: seq<Stage>) {
    forall i :: 0 <= i < |stages| && IsFieldStage(stages[i]) ==> FieldValue(FieldId(cfg, stages[i]), m.customFields).Success?
  }

  /**
   * A clean pass, in either program: with the fields present and a success
   * for every step, the attempt consumes one answer per step, counts the
   * user once and changes nothing else.
   */
  lemma {:induction false} CleanPass(cfg: Settings, s: RunState, m: Member, stages: seq<Stage>)
    requires s.halt.Running? && FieldsPresent(cfg, m, stages)
    requires |s.replies| >= |stages| && forall i :: 0 <= i < |stages| ==> s.replies[i].Ok?
    ensures Attempt(cfg, s, m, stages) == (s.(replies := s.replies[|stages|..], success := s.success + 1), true, false)
    decreases |stages|
  {
    if stages != [] {
      var step := Step(cfg, s, m, stages[0]);
      assert step.1;
      CleanPass(cfg, step.0, m, stages[1..]);
      assert s.replies[1..][|stages| - 1..] == s.replies[|stages|..];
    }
  }

  /**
   * migrate.go as written counts one user twice: the 401 on the user-type
   * field requeues the user, the drain re-runs all six steps and counts it,
   * and the interrupted attempt goes on and counts it again.
   */
  lemma DoubleCountWitness()
    ensures Attempt(SampleSettings(false), SampleStart(), SampleMember, Stages).1
    ensures Attempt(SampleSettings(false), SampleStart(), SampleMember, Stages).2
    ensures ProcessUser(SampleSettings(false), SampleStart(), SampleMember).success == 2
  {
    var cfg := SampleSettings(false);
    SampleOpening(cfg);
    SampleInterruptedAttempt(cfg);
    assert Stages[1..][1..] == Stages[2..];
    assert Attempt(cfg, SampleAtBarcode(), SampleMember, Stages[1..]) == Attempt(cfg, SampleAtField(), SampleMember, Stages[2..]);
  }

  /**
   * The corrected migrate stops an attempt once a step has requeued the
   * user, so the same sample counts the user once: by the drain's re-run.
   */
  lemma CorrectedCountsOnceWitness()
    ensures !Attempt(SampleSettings(true), SampleStart(), SampleMember, Stages).1
    ensures Attempt(SampleSettings(true), SampleStart(), SampleMember, Stages).2
    ensures ProcessUser(SampleSettings(true), SampleStart(), SampleMember).success == 1
  {
    var cfg := SampleSettings(true);
    SampleOpening(cfg);
    SampleRerun(cfg);
    assert !Continues(cfg, SecondField, true);
    assert Stages[1..][1..] == Stages[2..];
    assert Attempt(cfg, SampleAtField(), SampleMember, Stages[2..]) == (SampleRerunState(), false, true);
    assert Attempt(cfg, SampleAtBarcode(), SampleMember, Stages[1..]) == Attempt(cfg, SampleAtField(), SampleMember, Stages[2..]);
  }

  /** The sample's state when the barcode field is about to be set. */
  function SampleAtBarcode(): RunState {
    RunState(false, [], map[], 0, [Ok, Err(Utils.JsonError(401, []))] + NineOks, [Renewal(0, Success(100))], 100, Running, 0)
  }

  /** Creating the user and setting the barcode field pass in the sample. */
  lemma SampleOpening(cfg: Settings)
    requires cfg.variant.MigrateVariant? && cfg.barcodeFieldId == 1
    ensures Step(cfg, SampleStart(), SampleMember, CreateUser) == (SampleAtBarcode(), true, false)
    ensures Step(cfg, SampleAtBarcode(), SampleMember, BarcodeField) == (SampleAtField(), true, false)
  {
    assert FieldValue(1, SampleMember.customFields) == Success("7");
    assert SampleStart().replies[1..] == SampleAtBarcode().replies;
    assert SampleAtBarcode().replies[1..] == SampleAtField().replies;
  }

  /** From the user-type field on, the sample's attempt is requeued, re-run, and still counted. */
  lemma SampleInterruptedAttempt(cfg: Settings)
    requires cfg.variant.MigrateVariant? && !cfg.variant.requeueStops
    requires cfg.barcodeFieldId == 1 && cfg.secondFieldId == 2 && cfg.capacity == 1
    ensures Attempt(cfg, SampleAtField(), SampleMember, Stages[2..]) == (SampleRerunState().(replies := [], success := 2), true, true)
  {
    var m := SampleMember;
    var d1 := SampleRerunState();
    SampleRerun(cfg);
    assert Continues(cfg, SecondField, true);
    assert FieldValue(1, m.customFields) == Success("7");
    assert FieldValue(2, m.customFields) == Success("Member");
    CleanPass(cfg, d1, m, Stages[3..]);
    assert Stages[2..][1..] == Stages[3..];
  }

  /** Nine successes: the drained re-run and the rest of the interrupted attempt. */
  const NineOks: seq<Reply> := [Ok, Ok, Ok, Ok, Ok, Ok, Ok, Ok, Ok]

  /** The sample's state once the user has been pushed onto the buffer. */
  function SampleQueued(): RunState {
    RunState(false, [SampleMember], map[], 0, NineOks, [Renewal(0, Success(100))], 100, Running, 0)
  }

  /** The sample's state after the drain has re-run the user. */
  function SampleRerunState(): RunState {
    RunState(false, [], map[], 1, [Ok, Ok, Ok], [], 100, Running, 0)
  }

  /**
   * In the sample, the refresh is not needed (the clock is before the
   * expiry) and the drain re-runs the user with six successes, counting it.
   */
  lemma SampleRefreshDrains(cfg: Settings)
    requires cfg.variant.MigrateVariant? && cfg.barcodeFieldId == 1 && cfg.secondFieldId == 2
    ensures DoRefresh(cfg, SampleQueued()) == SampleRerunState()
  {
    var m := SampleMember;
    assert FieldValue(1, m.customFields) == Success("7");
    assert FieldValue(2, m.customFields) == Success("Member");
    assert FieldsPresent(cfg, m, Stages);
    var d := RunState(false, [], map[], 0, NineOks, [], 100, Running, 0);
    assert Renew(cfg, SampleQueued()) == d.(buffer := [m]);
    CleanPass(cfg, d, m, Stages);
    assert NineOks[6..] == [Ok, Ok, Ok];
    assert Drain(cfg, SampleRerunState()) == SampleRerunState();
    assert Drain(cfg, d.(buffer := [m])) == SampleRerunState();
  }

  /** The sample's state when the user-type field is about to be set. */
  function SampleAtField(): RunState {
    RunState(false, [], map[], 0, [Err(Utils.JsonError(401, []))] + NineOks, [Renewal(0, Success(100))], 100, Running, 0)
  }

  /** The 401 on the user-type field in the sample requeues the user and returns the re-run's state. */
  lemma SampleRerun(cfg: Settings)
    requires cfg.variant.MigrateVariant? && cfg.barcodeFieldId == 1 && cfg.secondFieldId == 2 && cfg.capacity == 1
    ensures Step(cfg, SampleAtField(), SampleMember, SecondField) == (SampleRerunState(), false, true)
  {
    var m := SampleMember;
    var a2 := SampleAtField();
    assert FieldValue(2, m.customFields) == Success("Member");
    assert Unauthorized(a2.replies[0]);
    assert a2.replies[1..] == NineOks;
    StepUnauthorized(cfg, a2, m, SecondField);
    assert a2.(replies := a2.replies[1..]).(buffer := a2.buffer + [m]) == SampleQueued();
    SampleRefreshDrains(cfg);
    assert Release(cfg, DoRefresh(cfg, SampleQueued())) == SampleRerunState();
  }

  /**
   * One pass of the `createUsers` loop for a valid client: processed at once
   * when no refresh is under way, otherwise pushed onto the buffer (a push
   * onto a full buffer blocks for ever).
   */
  function Admit(cfg: Settings, s: RunState, m: Member): (r: RunState)
    requires s.halt.Running?
    ensures Ids(r) <= Ids(s) + {m.externalId}
    ensures r.success >= s.success
  {
    if !s.isRefreshing then ProcessUser(cfg, s, m)
    else if |s.buffer| >= cfg.capacity then s.(halt := Deadlocked)
    else
      var r := s.(buffer := s.buffer + [m]);
      assert Ids(r) == Ids(s) + {m.externalId};
      r
  }

  /** The external IDs of the valid clients among the first `n`. */
  function ValidIds(clients: seq<MindBody.Client>, isValid: string -> bool, build: MindBody.Client -> Member, n: nat): set<string>
    requires n <= |clients|
  {
    set i | 0 <= i < n && isValid(clients[i].id) :: build(clients[i]).externalId
  }

  /** The members built from the valid clients among the first `n`, in order. */
  function ValidBuilt(clients: seq<MindBody.Client>, isValid: string -> bool, build: MindBody.Client -> Member, n: nat): (r: seq<Member>)
    requires n <= |clients|
    ensures |r| <= n
  {
    if n == 0 then []
    else ValidBuilt(clients, isValid, build, n - 1) + (if isValid(clients[n - 1].id) then [build(clients[n - 1])] else [])
  }

  /**
   * `createUsers()` over the first `n` clients: clients whose ID `isValid`
   * rejects are skipped; every other client is built and admitted; once the
   * run has halted nothing further happens.
   */
  function CreateUsers(cfg: Settings, s: RunState, clients: seq<MindBody.Client>, isValid: string -> bool, build: MindBody.Client -> Member, n: nat): (r: RunState)
    requires n <= |clients|
    ensures r.success >= s.success
    ensures !s.halt.Running? ==> r == s
  {
    if n == 0 then s
    else
      var p := CreateUsers(cfg, s, clients, isValid, build, n - 1);
      Visit(cfg, p, clients[n - 1], isValid, build)
  }

  /** One iteration of the `createUsers` loop, for client `c`. */
  function Visit(cfg: Settings, p: RunState, c: MindBody.Client, isValid: string -> bool, build: MindBody.Client -> Member): RunState {
    if !p.halt.Running? || !isValid(c.id) then p
    else Admit(cfg, p, build(c))
  }

  /**
   * Invalid clients are never processed and never recorded: the driver's end
   * state mentions no external ID beyond the ones it started with and those
   * of valid clients.
   */
  lemma {:induction false} DriverTouchesOnlyValid(cfg: Settings, s: RunState, clients: seq<MindBody.Client>, isValid: string -> bool, build: MindBody.Client -> Member, n: nat)
    requires n <= |clients|
    ensures Ids(CreateUsers(cfg, s, clients, isValid, build, n)) <= Ids(s) + ValidIds(clients, isValid, build, n)
  {
    if n > 0 {
      DriverTouchesOnlyValid(cfg, s, clients, isValid, build, n - 1);
      assert ValidIds(clients, isValid, build, n - 1) <= ValidIds(clients, isValid, build, n);
    }
  }

  /**
   * A client whose ID is invalid changes nothing: the driver over a list
   * with such a client in it ends where it would have ended without it.
   */
  lemma {:induction false} InvalidClientSkipped(cfg: Settings, s: RunState, clients: seq<MindBody.Client>, isValid: string -> bool, build: MindBody.Client -> Member, i: nat)
    requires i < |clients| && !isValid(clients[i].id)
    ensures CreateUsers(cfg, s, clients, isValid, build, |clients|)
         == CreateUsers(cfg, s, clients[..i] + clients[i + 1..], isValid, build, |clients| - 1)
    decreases |clients|
  {
    var n := |clients|;
    var rest := clients[..i] + clients[i + 1..];
    var whole := CreateUsers(cfg, s, clients, isValid, build, n);
    var p := CreateUsers(cfg, s, clients, isValid, build, n - 1);
    assert whole == Visit(cfg, p, clients[n - 1], isValid, build);
    if i == n - 1 {
      assert rest == clients[..n - 1];
      assert whole == p;
      PrefixAgrees(cfg, s, clients, rest, isValid, build, n - 1);
    } else {
      var shorter := clients[..n - 1];
      InvalidClientSkipped(cfg, s, shorter, isValid, build, i);
      assert shorter[..i] + shorter[i + 1..] == rest[..n - 2];
      PrefixAgrees(cfg, s, clients, shorter, isValid, build, n - 1);
      PrefixAgrees(cfg, s, rest, rest[..n - 2], isValid, build, n - 2);
      assert clients[..n - 1] == shorter[..n - 1];
      assert p == CreateUsers(cfg, s, shorter, isValid, build, n - 1);
      var dropped := shorter[..i] + shorter[i + 1..];
      assert p == CreateUsers(cfg, s, dropped, isValid, build, n - 2);
      assert dropped == rest[..n - 2];
      assert rest[..n - 2][..n - 2] == rest[..n - 2];
      assert p == CreateUsers(cfg, s, rest, isValid, build, n - 2);
      assert rest[n - 2] == clients[n - 1];
      assert CreateUsers(cfg, s, rest, isValid, build, n - 1) == Visit(cfg, p, rest[n - 2], isValid, build);
    }
  }

  /** The driver over the first `n` clients only looks at those clients. */
  lemma {:induction false} PrefixAgrees(cfg: Settings, s: RunState, a: seq<MindBody.Client>, b: seq<MindBody.Client>, isValid: string -> bool, build: MindBody.Client -> Member, n: nat)
    requires n <= |a| && n <= |b| && a[..n] == b[..n]
    ensures CreateUsers(cfg, s, a, isValid, build, n) == CreateUsers(cfg, s, b, isValid, build, n)
  {
    if n > 0 {
      assert a[n - 1] == a[..n][n - 1] == b[..n][n - 1] == b[n - 1];
      assert a[..n - 1] == a[..n][..n - 1] == b[..n][..n - 1] == b[..n - 1];
      PrefixAgrees(cfg, s, a, b, isValid, build, n - 1);
    }
  }

  /**
   * sync after a failed refresh: `isRefreshing` stays set, so every later
   * valid client is pushed onto the buffer and nothing is processed, counted
   * or recorded as failed; the run blocks exactly when a push finds the
   * buffer full.
   */
  lemma {:induction false} SyncStuck(cfg: Settings, s: RunState, clients: seq<MindBody.Client>, isValid: string -> bool, build: MindBody.Client -> Member, n: nat)
    requires IsSync(cfg) && s.halt.Running? && s.isRefreshing && n <= |clients|
    ensures var r := CreateUsers(cfg, s, clients, isValid, build, n);
      && r.success == s.success && r.failed == s.failed && r.replies == s.replies && r.isRefreshing
      && (r.halt.Running? <==> |ValidBuilt(clients, isValid, build, n)| == 0 || |s.buffer| + |ValidBuilt(clients, isValid, build, n)| <= cfg.capacity)
      && (r.halt.Running? ==> r.buffer == s.buffer + ValidBuilt(clients, isValid, build, n))
      && (!r.halt.Running? ==> r.halt == Deadlocked)
  {
    if n > 0 {
      SyncStuck(cfg, s, clients, isValid, build, n - 1);
      var p := CreateUsers(cfg, s, clients, isValid, build, n - 1);
      var before := ValidBuilt(clients, isValid, build, n - 1);
      var r := CreateUsers(cfg, s, clients, isValid, build, n);
      if !p.halt.Running? {
        assert r == p;
      } else if !isValid(clients[n - 1].id) {
        assert r == p;
        assert ValidBuilt(clients, isValid, build, n) == before;
      } else {
        var m := build(clients[n - 1]);
        assert ValidBuilt(clients, isValid, build, n) == before + [m];
        assert r == Admit(cfg, p, m);
        assert p.buffer == s.buffer + before;
      }
    }
  }

  /**
   * migrate never buffers from the driver: starting with no refresh under
   * way and an empty buffer, as long as the run goes on the flag is clear and
   * the buffer empty, so every valid client is processed at once.
   */
  lemma {:induction false} MigrateNeverBuffers(cfg: Settings, s: RunState, clients: seq<MindBody.Client>, isValid: string -> bool, build: MindBody.Client -> Member, n: nat)
    requires IsMigrate(cfg) && s.halt.Running? && !s.isRefreshing && s.buffer == [] && n <= |clients|
    ensures var r := CreateUsers(cfg, s, clients, isValid, build, n);
      r.halt.Running? ==> !r.isRefreshing && r.buffer == []
  {
    if n > 0 {
      MigrateNeverBuffers(cfg, s, clients, isValid, build, n - 1);
    }
  }

  /**
   * migrate's `doRefresh` asks for a token only when the clock is past the
   * expiry; then a failure is fatal; otherwise the buffer is drained with
   * the flag clear.
   */
  lemma MigrateRefreshOnlyWhenExpired(cfg: Settings, s: RunState)
    requires IsMigrate(cfg) && s.halt.Running? && !s.isRefreshing && s.renewals != []
    ensures s.renewals[0].now <= s.expireTime ==>
              DoRefresh(cfg, s) == Drain(cfg, s.(renewals := s.renewals[1..]))
    ensures s.renewals[0].now > s.expireTime && s.renewals[0].result.Failure? ==>
              DoRefresh(cfg, s).halt == Fatal(RefreshFatal(RefreshError(s.renewals[0].result.error)))
    ensures s.renewals[0].now > s.expireTime && s.renewals[0].result.Success? ==>
              DoRefresh(cfg, s) == Drain(cfg, s.(renewals := s.renewals[1..], expireTime := s.renewals[0].result.value))
  {
  }

  /**
   * sync's `doRefresh` always asks for a token, with no expiry check; a
   * failure leaves the flag set and the buffer as it was; a success clears
   * the flag and drains the buffer.
   */
  lemma SyncRefresh(cfg: Settings, s: RunState)
    requires IsSync(cfg) && s.halt.Running? && !s.isRefreshing && s.renewals != []
    ensures s.renewals[0].result.Failure? ==>
              DoRefresh(cfg, s) == s.(isRefreshing := true, renewals := s.renewals[1..])
    ensures s.renewals[0].result.Success? ==>
              DoRefresh(cfg, s) == Drain(cfg, s.(renewals := s.renewals[1..], expireTime := s.renewals[0].result.value))
  {
  }

  /** The first line of the output log. */
  const LogHeader := "---------- OUTPUT LOG ----------\n"

  /** The output-log line for one failed user. */
  function FailureLine(externalId: string, reason: string): string {
    "External ID: " + externalId + " Reason: " + reason + "\n"
  }

  /** `order` lists every key of `keys` exactly once: an order in which a map can be ranged over. */
  predicate Enumerates(order: seq<string>, keys: set<string>) {
    && (forall i, j :: 0 <= i < j < |order| ==> order[i] != order[j])
    && (forall i :: 0 <= i < |order| ==> order[i] in keys)
    && (forall k :: k in keys ==> k in order)
  }

  /** An enumeration is as long as the set it enumerates. */
  lemma {:induction false} EnumerationSize(order: seq<string>, keys: set<string>)
    requires Enumerates(order, keys)
    ensures |order| == |keys|
  {
    if order == [] {
      assert keys == {};
    } else {
      var rest := keys - {order[0]};
      assert Enumerates(order[1..], rest) by {
        forall k ensures k in rest <==> k in order[1..] {
          if k in order[1..] {
            var j :| 0 <= j < |order[1..]| && order[1..][j] == k;
            assert order[j + 1] == k;
          }
          if k in order && k != order[0] {
            var j :| 0 <= j < |order| && order[j] == k;
            assert order[1..][j - 1] == k;
          }
        }
      }
      EnumerationSize(order[1..], rest);
    }
  }

  /** The failure lines, in the order the map is ranged over. */
  function FailureLines(failed: map<string, string>, order: seq<string>): (lines: seq<string>)
    requires forall i :: 0 <= i < |order| ==> order[i] in failed
    ensures |lines| == |order|
    ensures forall i :: 0 <= i < |order| ==> lines[i] == FailureLine(order[i], failed[order[i]])
  {
    if order == [] then []
    else FailureLines(failed, order[..|order| - 1]) + [FailureLine(order[|order| - 1], failed[order[|order| - 1]])]
  }

  /**
   * `printLog()`: the lines of the output log, with the failed map ranged
   * over in `order`. There are three fixed lines (the header, the success
   * count and the number of failed users) and then exactly one line per
   * failed user, whatever the order.
   */
  function Summary(success: nat, failed: map<string, string>, order: seq<string>): (lines: seq<string>)
    requires Enumerates(order, failed.Keys)
    ensures |lines| == 3 + |failed|
    ensures lines[0] == LogHeader
    ensures lines[1] == "Users Created Successfully: " + Itoa(success) + "\n"
    ensures lines[2] == "Users Failed: " + Itoa(|failed|) + "\n"
    ensures forall k :: k in failed ==> FailureLine(k, failed[k]) in lines[3..]
    ensures |order| == |failed| && forall i :: 0 <= i < |order| ==> lines[3 + i] == FailureLine(order[i], failed[order[i]])
  {
    EnumerationSize(order, failed.Keys);
    var tail := FailureLines(failed, order);
    var lines := [LogHeader, "Users Created Successfully: " + Itoa(success) + "\n", "Users Failed: " + Itoa(|failed|) + "\n"] + tail;
    assert lines[3..] == tail;
    assert forall k :: k in failed ==> FailureLine(k, failed[k]) in tail by {
      forall k | k in failed ensures FailureLine(k, failed[k]) in tail {
        var j :| 0 <= j < |order| && order[j] == k;
        assert tail[j] == FailureLine(k, failed[k]);
      }
    }
    lines
  }

  /** The set of log lines does not depend on the order the map is ranged over. */
  lemma SummaryOrderFree(success: nat, failed: map<string, string>, o1: seq<string>, o2: seq<string>)
    requires Enumerates(o1, failed.Keys) && Enumerates(o2, failed.Keys)
    ensures |Summary(success, failed, o1)| == |Summary(success, failed, o2)|
    ensures Summary(success, failed, o1)[..3] == Summary(success, failed, o2)[..3]
    ensures forall line :: line in Summary(success, failed, o1) <==> line in Summary(success, failed, o2)
  {
    var l1 := Summary(success, failed, o1);
    var l2 := Summary(success, failed, o2);
    LinesIncluded(failed, o1, o2, l1, l2);
    LinesIncluded(failed, o2, o1, l2, l1);
  }

  /**
   * Two logs with the same three fixed lines, each listing the failure lines
   * in the order of an enumeration of the failed map, have the same lines.
   */
  lemma LinesIncluded(failed: map<string, string>, o1: seq<string>, o2: seq<string>, l1: seq<string>, l2: seq<string>)
    requires Enumerates(o1, failed.Keys) && Enumerates(o2, failed.Keys)
    requires |l1| == 3 + |o1| && |l2| == 3 + |o2| && l1[..3] == l2[..3]
    requires forall i :: 0 <= i < |o1| ==> l1[3 + i] == FailureLine(o1[i], failed[o1[i]])
    requires forall i :: 0 <= i < |o2| ==> l2[3 + i] == FailureLine(o2[i], failed[o2[i]])
    ensures forall line :: line in l1 ==> line in l2
  {
    forall line | line in l1 ensures line in l2 {
      var i :| 0 <= i < |l1| && l1[i] == line;
      if i >= 3 {
        var k := o1[i - 3];
        var j :| 0 <= j < |o2| && o2[j] == k;
        assert l2[3 + j] == line;
      } else {
        assert l2[..3][i] == line;
      }
    }
  }
}
