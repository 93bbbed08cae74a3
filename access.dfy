/**
 * Brivo access events (models/access.go). When a member badges in,
 * `ProcessRequest` finds the credential of the event, looks up its reference
 * (the MINDBODY barcode ID), and logs a MINDBODY arrival unless the store
 * already holds a timestamp for that ID from the last 30 minutes. The store
 * is written before the arrival is logged; a failed write is ignored and the
 * arrival is still logged.
 *
 * Instants are whole seconds. Formatting an instant with the layout
 * "2006-01-02 15:04:05" and parsing it back are function parameters, as is
 * the civil date of an instant. The remote calls (the credential lookup, the
 * token refreshes, the arrival) and the store's read and write errors are
 * inputs.
 */
module Access {

  import opened Wrappers

  datatype AccessCredential = AccessCredential(id: int, disabled: bool)

  /** An access event: when it occurred, who caused it, and its credentials. */
  datatype Event = Event(
    occurred: int,
    actorId: int,
    actorName: string,
    actionAllowed: bool,
    objectName: string,
    credentials: seq<AccessCredential>)

  const CredentialNotFound := "Access credential not found"

  /** `access.getAccessCredential()`: the first credential, if there is one and its ID is not 0. */
  function GetAccessCredential(e: Event): (r: Result<AccessCredential, string>)
    ensures r.Success? <==> |e.credentials| > 0 && e.credentials[0].id != 0
    ensures r.Success? ==> r.value == e.credentials[0]
    ensures r.Failure? ==> r.error == CredentialNotFound
  {
    if |e.credentials| > 0 && e.credentials[0].id != 0 then Success(e.credentials[0])
    else Failure(CredentialNotFound)
  }

  /** Only the first credential is ever inspected: events that agree on it agree on the result. */
  lemma OnlyFirstCredentialInspected(e1: Event, e2: Event)
    requires |e1.credentials| > 0 <==> |e2.credentials| > 0
    requires |e1.credentials| > 0 ==> e1.credentials[0] == e2.credentials[0]
    ensures GetAccessCredential(e1) == GetAccessCredential(e2)
  {
  }

  /** Thirty minutes, in seconds. */
  const ActiveWindow := 30 * 60

  /** `isActiveTimestamp(timestamp)` at instant `now`: the stored visit is less than 30 minutes old. */
  function IsActiveTimestamp(now: int, timestamp: string, parse: string -> Option<int>): bool {
    match parse(timestamp)
    case None => false
    case Some(lastVisit) => now < lastVisit + ActiveWindow
  }

  /** A civil date, as `Day()`, `Month()` and `Year()` give it. */
  datatype Date = Date(year: int, month: int, day: int)

  /** `isToday(timestamp)` at instant `today`: the parsed instant falls on the same day, month and year. */
  function IsToday(today: int, timestamp: string, parse: string -> Option<int>, civil: int -> Date): (r: bool)
    ensures r <==> parse(timestamp).Some? && civil(parse(timestamp).value) == civil(today)
  {
    match parse(timestamp)
    case None => false
    case Some(date) => civil(date).day == civil(today).day && civil(date).month == civil(today).month && civil(date).year == civil(today).year
  }

  /**
   * The store decision for reference `ref` at `now`: the store after the
   * write, or `None` when the stored timestamp is still active and nothing
   * is written or logged.
   */
  function Admission(data: map<string, string>, ref: string, now: int, format: int -> string, parse: string -> Option<int>): Option<map<string, string>> {
    if ref !in data then Some(data[ref := format(now)])
    else if IsActiveTimestamp(now, data[ref], parse) then None
    else Some(data[ref := format(now)])
  }

  /**
   * An arrival is admitted exactly when no timestamp is stored or the stored
   * one is not active; then `now` is stored under the reference and no other
   * key changes.
   */
  lemma AdmissionSpec(data: map<string, string>, ref: string, now: int, format: int -> string, parse: string -> Option<int>)
    ensures Admission(data, ref, now, format, parse).Some? <==> ref !in data || !IsActiveTimestamp(now, data[ref], parse)
    ensures Admission(data, ref, now, format, parse).Some? ==>
              && ref in Admission(data, ref, now, format, parse).value
              && Admission(data, ref, now, format, parse).value[ref] == format(now)
              && Admission(data, ref, now, format, parse).value.Keys == data.Keys + {ref}
              && forall k :: k in data && k != ref ==> Admission(data, ref, now, format, parse).value[k] == data[k]
  {
  }

  /**
   * No second arrival within 30 minutes: after an admitted arrival at `t1`,
   * a request for the same reference at `t2` with `t1 <= t2 < t1 + 30 min`
   * is not admitted, provided the stored text parses back to `t1`; from
   * `t1 + 30 min` on it is admitted again.
   */
  lemma NoSecondArrivalWithinWindow(
    data: map<string, string>, ref: string, t1: int, t2: int,
    format: int -> string, parse: string -> Option<int>
  )
    requires parse(format(t1)) == Some(t1)
    requires Admission(data, ref, t1, format, parse).Some?
    ensures t1 <= t2 < t1 + ActiveWindow ==> Admission(Admission(data, ref, t1, format, parse).value, ref, t2, format, parse).None?
    ensures t2 >= t1 + ActiveWindow ==> Admission(Admission(data, ref, t1, format, parse).value, ref, t2, format, parse).Some?
  {
    var d1 := Admission(data, ref, t1, format, parse).value;
    assert d1[ref] == format(t1);
  }

  /** A token and the instant it expires. */
  datatype Token = Token(accessToken: string, expireTime: int)

  /** The Brivo and MINDBODY tokens, refreshed in place. */
  class Auth {
    var brivoToken: Token
    var mindbodyToken: Token

    constructor (brivo: Token, mindbody: Token)
      ensures brivoToken == brivo && mindbodyToken == mindbody
    {
      brivoToken := brivo;
      mindbodyToken := mindbody;
    }
  }

  /** The key-value store of last-arrival timestamps, by barcode ID. */
  class Store {
    var data: map<string, string>

    constructor (initial: map<string, string>)
      ensures data == initial
    {
      data := initial;
    }
  }

  /** What the remote services and the store connection answer during one request. */
  datatype Answers = Answers(
    brivoRefresh: Result<Token, string>,
    lookup: int -> Result<string, string>,
    isValidId: string -> bool,
    readError: Option<string>,
    writeError: Option<string>,
    mindbodyRefresh: Result<Token, string>,
    addArrival: string -> Option<string>)

  /** The ways `ProcessRequest` returns. */
  datatype Exit =
    | NoCredential(message: string)
    | BrivoRefreshFailed(error: string)
    | LookupFailed(error: string)
    | InvalidId(ref: string)
    | StoreReadFailed(ref: string, error: string)
    | AlreadyArrived(ref: string)
    | MindbodyRefreshFailed(ref: string, error: string)
    | ArrivalFailed(ref: string, error: string)
    | ArrivalLogged(ref: string)

  /** The exits that come after the store write. */
  predicate AfterStoreWrite(x: Exit) {
    x.MindbodyRefreshFailed? || x.ArrivalFailed? || x.ArrivalLogged?
  }

  /** The request gets past the credential and, when the Brivo token expired before `now`, its refresh. */
  predicate PastBrivo(event: Event, now: int, brivo: Token, answers: Answers) {
    GetAccessCredential(event).Success? && !(now > brivo.expireTime && answers.brivoRefresh.Failure?)
  }

  /** The lookup of the event's credential, once the credential is found. */
  function Lookup(event: Event, answers: Answers): Result<string, string>
    requires GetAccessCredential(event).Success?
  {
    answers.lookup(GetAccessCredential(event).value.id)
  }

  /** The request reaches the store decision: the reference is found and valid, and the store read succeeds. */
  predicate ReachesStore(event: Event, now: int, brivo: Token, answers: Answers) {
    && PastBrivo(event, now, brivo, answers)
    && Lookup(event, answers).Success?
    && answers.isValidId(Lookup(event, answers).value)
    && answers.readError.None?
  }

  /**
   * `access.ProcessRequest(config, auth, pool)` at instant `now`. The
   * credential is unwrapped; the Brivo token is refreshed if it expired
   * before `now`; the credential's reference is looked up and checked; the
   * store is read; an absent or stale timestamp is replaced by `now` (unless
   * the write fails, which is not checked) and an arrival is logged (after
   * refreshing an expired MINDBODY token), while an active one ends the
   * request with nothing written.
   */
  method ProcessRequest(event: Event, now: int, auth: Auth, store: Store, answers: Answers,
                        format: int -> string, parse: string -> Option<int>) returns (exit: Exit)
    modifies auth, store
    ensures exit.NoCredential? <==> GetAccessCredential(event).Failure?
    ensures exit.NoCredential? ==> exit.message == CredentialNotFound && unchanged(auth)
    ensures exit.LookupFailed? <==> PastBrivo(event, now, old(auth.brivoToken), answers) && Lookup(event, answers).Failure?
    ensures exit.InvalidId? <==>
              && PastBrivo(event, now, old(auth.brivoToken), answers) && Lookup(event, answers).Success?
              && !answers.isValidId(Lookup(event, answers).value)
    ensures exit.StoreReadFailed? <==>
              && PastBrivo(event, now, old(auth.brivoToken), answers) && Lookup(event, answers).Success?
              && answers.isValidId(Lookup(event, answers).value) && answers.readError.Some?
    ensures ReachesStore(event, now, old(auth.brivoToken), answers) ==>
              && (exit.AlreadyArrived? || AfterStoreWrite(exit))
              && exit.ref == Lookup(event, answers).value
              && (exit.AlreadyArrived? <==> Admission(old(store.data), exit.ref, now, format, parse).None?)
    ensures exit.MindbodyRefreshFailed? <==>
              AfterStoreWrite(exit) && now > old(auth.mindbodyToken.expireTime) && answers.mindbodyRefresh.Failure?
    ensures !AfterStoreWrite(exit) ==> unchanged(store)
    ensures exit.AlreadyArrived? ==>
              exit.ref in old(store.data) && IsActiveTimestamp(now, old(store.data)[exit.ref], parse)
    ensures AfterStoreWrite(exit) ==>
              && Admission(old(store.data), exit.ref, now, format, parse).Some?
              && (answers.writeError.None? ==> store.data == Admission(old(store.data), exit.ref, now, format, parse).value)
              && (answers.writeError.Some? ==> store.data == old(store.data))
    ensures exit.AlreadyArrived? || AfterStoreWrite(exit) ==>
              && GetAccessCredential(event).Success?
              && answers.lookup(GetAccessCredential(event).value.id) == Success(exit.ref)
              && answers.isValidId(exit.ref) && answers.readError.None?
    ensures exit.ArrivalLogged? <==> AfterStoreWrite(exit) && answers.addArrival(exit.ref).None?
                                     && (now > old(auth.mindbodyToken.expireTime) ==> answers.mindbodyRefresh.Success?)
    ensures now > old(auth.brivoToken.expireTime) && answers.brivoRefresh.Success? && !exit.NoCredential? ==>
              auth.brivoToken == answers.brivoRefresh.value
    ensures now <= old(auth.brivoToken.expireTime) ==> auth.brivoToken == old(auth.brivoToken)
    ensures exit.BrivoRefreshFailed? <==>
              GetAccessCredential(event).Success? && now > old(auth.brivoToken.expireTime) && answers.brivoRefresh.Failure?
    ensures exit.BrivoRefreshFailed? ==> auth.brivoToken == old(auth.brivoToken)
    ensures !AfterStoreWrite(exit) || exit.MindbodyRefreshFailed? ==> auth.mindbodyToken == old(auth.mindbodyToken)
    ensures now <= old(auth.mindbodyToken.expireTime) ==> auth.mindbodyToken == old(auth.mindbodyToken)
    ensures AfterStoreWrite(exit) && now > old(auth.mindbodyToken.expireTime) && answers.mindbodyRefresh.Success? ==>
              auth.mindbodyToken == answers.mindbodyRefresh.value
  {
    var accessCredential := GetAccessCredential(event);
    if accessCredential.Failure? {
      return NoCredential(accessCredential.error);
    }
    if now > auth.brivoToken.expireTime {
      match answers.brivoRefresh {
        case Failure(e) =>
          return BrivoRefreshFailed(e);
        case Success(t) =>
          auth.brivoToken := t;
      }
    }
    var cred := answers.lookup(accessCredential.value.id);
    if cred.Failure? {
      return LookupFailed(cred.error);
    }
    var ref := cred.value;
    if !answers.isValidId(ref) {
      return InvalidId(ref);
    }
    var stamp := format(now);
    if answers.readError.Some? {
      return StoreReadFailed(ref, answers.readError.value);
    }
    if ref !in store.data {
      if answers.writeError.None? {
        store.data := store.data[ref := stamp];
      }
    } else {
      if IsActiveTimestamp(now, store.data[ref], parse) {
        return AlreadyArrived(ref);
      }
      if answers.writeError.None? {
        store.data := store.data[ref := stamp];
      }
    }
    if now > auth.mindbodyToken.expireTime {
      match answers.mindbodyRefresh {
        case Failure(e) =>
          return MindbodyRefreshFailed(ref, e);
        case Success(t) =>
          auth.mindbodyToken := t;
      }
    }
    var arrival := answers.addArrival(ref);
    if arrival.Some? {
      return ArrivalFailed(ref, arrival.value);
    }
    return ArrivalLogged(ref);
  }

  /**
   * A first badge-in with valid tokens, a found and valid reference, no
   * stored timestamp and working services stores `now` and logs the arrival.
   */
  method FirstBadgeLogsArrival(format: int -> string, parse: string -> Option<int>) returns (exit: Exit, stored: map<string, string>)
    ensures exit == ArrivalLogged("ref")
    ensures stored == map["ref" := format(10)]
  {
    var auth := new Auth(Token("b", 1000), Token("m", 1000));
    var store := new Store(map[]);
    var answers := Answers(
      Failure("unused"), (id: int) => Success("ref"), (ref: string) => true, None, None,
      Failure("unused"), (ref: string) => None);
    exit := ProcessRequest(Event(0, 0, "", true, "", [AccessCredential(5, false)]), 10, auth, store, answers, format, parse);
    AdmissionSpec(map[], "ref", 10, format, parse);
    stored := store.data;
  }
}
