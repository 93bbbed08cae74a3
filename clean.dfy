/**
 * Cleaning a Brivo environment (clean/clean.go). `Nuke` lists the users of
 * the member group and all credentials, then visits every user: it fetches
 * the user's custom fields, stashes the barcode ID in a set and deletes the
 * user; then it visits every credential and deletes those whose reference ID
 * is in that set.
 *
 * The source runs one goroutine per user and per credential; the model runs
 * them one at a time, users before credentials. What the remote services
 * answer on each visit, and the clock reading taken there, are inputs.
 */
module Clean {

  import opened Wrappers
  import opened CustomFields
  import Brivo

  /** A listed Brivo credential: its ID and the reference (barcode) ID it carries. */
  datatype ListedCredential = ListedCredential(id: int, referenceId: string)

  /** What one user's goroutine sees: the clock, the token refresh (new expiry), the fields, the delete. */
  datatype UserVisit = UserVisit(now: int, refresh: Result<int, string>, fields: Result<seq<CustomField>, string>, deleteError: Option<string>)

  /** What one credential's goroutine sees. */
  datatype CredentialVisit = CredentialVisit(now: int, refresh: Result<int, string>, deleteError: Option<string>)

  /** The state `Nuke` changes: the barcode set, the token expiry, the delete calls made, and a fatal exit. */
  datatype Ledger = Ledger(
    ids: map<string, bool>,
    expireTime: int,
    deletedUsers: seq<int>,
    deletedCredentials: seq<ListedCredential>,
    fatal: Option<string>)

  const RefreshFailed := "Error refreshing Brivo AUTH token "

  /** Every value in the set is `true`: `update` never stores anything else. */
  predicate AllTrue(ids: map<string, bool>) {
    forall k :: k in ids ==> ids[k]
  }

  /** The token check both goroutines start with: refresh when `now` is after the expiry. */
  function Refreshed(l: Ledger, now: int, refresh: Result<int, string>): Ledger {
    if now <= l.expireTime then l
    else match refresh
      case Failure(e) => l.(fatal := Some(RefreshFailed + e))
      case Success(expiry) => l.(expireTime := expiry)
  }

  /** One user's goroutine: skip on a failed fetch or a missing barcode, else stash the barcode and delete. */
  function UserStep(l: Ledger, u: Brivo.BrivoUser, v: UserVisit, fieldId: int): Ledger {
    if l.fatal.Some? then l
    else
      var l1 := Refreshed(l, v.now, v.refresh);
      if l1.fatal.Some? || v.fields.Failure? then l1
      else match FieldValue(fieldId, v.fields.value)
        case Failure(_) => l1
        case Success(barcode) => l1.(ids := l1.ids[barcode := true], deletedUsers := l1.deletedUsers + [u.id])
  }

  /** One credential's goroutine: delete it when its reference ID was stashed. */
  function CredentialStep(l: Ledger, c: ListedCredential, v: CredentialVisit): Ledger {
    if l.fatal.Some? then l
    else
      var l1 := Refreshed(l, v.now, v.refresh);
      if l1.fatal.Some? then l1
      else if c.referenceId in l1.ids && l1.ids[c.referenceId] then l1.(deletedCredentials := l1.deletedCredentials + [c])
      else l1
  }

  /** The first `n` user goroutines, one after the other. */
  function UsersPass(l: Ledger, users: seq<Brivo.BrivoUser>, visits: seq<UserVisit>, fieldId: int, n: nat): Ledger
    requires n <= |users| == |visits|
  {
    if n == 0 then l else UserStep(UsersPass(l, users, visits, fieldId, n - 1), users[n - 1], visits[n - 1], fieldId)
  }

  /** The first `n` credential goroutines, one after the other. */
  function CredentialsPass(l: Ledger, creds: seq<ListedCredential>, visits: seq<CredentialVisit>, n: nat): Ledger
    requires n <= |creds| == |visits|
  {
    if n == 0 then l else CredentialStep(CredentialsPass(l, creds, visits, n - 1), creds[n - 1], visits[n - 1])
  }

  /** The barcodes of the first `n` users whose fields were fetched and carry the barcode field. */
  function Collected(visits: seq<UserVisit>, fieldId: int, n: nat): set<string>
    requires n <= |visits|
  {
    set i | 0 <= i < n && visits[i].fields.Success? && FieldValue(fieldId, visits[i].fields.value).Success?
      :: FieldValue(fieldId, visits[i].fields.value).value
  }

  /** The first `n` credentials whose reference ID is in `ids`, in order. */
  function Selected(creds: seq<ListedCredential>, ids: map<string, bool>, n: nat): (r: seq<ListedCredential>)
    requires n <= |creds|
    ensures |r| <= n
    ensures forall c :: c in r ==> c.referenceId in ids && ids[c.referenceId]
    ensures forall c :: c in r ==> c in creds[..n]
  {
    if n == 0 then []
    else
      var c := creds[n - 1];
      assert creds[..n] == creds[..n - 1] + [c];
      if c.referenceId in ids && ids[c.referenceId] then Selected(creds, ids, n - 1) + [c] else Selected(creds, ids, n - 1)
  }

  /**
   * The user pass only ever adds `true` entries: the set grows, and while no
   * refresh failed it is exactly the old set plus the collected barcodes.
   */
  lemma {:induction false} UsersPassCollects(l: Ledger, users: seq<Brivo.BrivoUser>, visits: seq<UserVisit>, fieldId: int, n: nat)
    requires n <= |users| == |visits|
    requires l.fatal.None?
    ensures l.ids.Keys <= UsersPass(l, users, visits, fieldId, n).ids.Keys
    ensures AllTrue(l.ids) ==> AllTrue(UsersPass(l, users, visits, fieldId, n).ids)
    ensures UsersPass(l, users, visits, fieldId, n).deletedCredentials == l.deletedCredentials
    ensures UsersPass(l, users, visits, fieldId, n).fatal.None? ==>
              UsersPass(l, users, visits, fieldId, n).ids.Keys == l.ids.Keys + Collected(visits, fieldId, n)
  {
    if n > 0 {
      UsersPassCollects(l, users, visits, fieldId, n - 1);
      var before := UsersPass(l, users, visits, fieldId, n - 1);
      var v := visits[n - 1];
      var after := UsersPass(l, users, visits, fieldId, n);
      assert after == UserStep(before, users[n - 1], v, fieldId);
      if after.fatal.None? {
        assert before.fatal.None?;
        if v.fields.Success? && FieldValue(fieldId, v.fields.value).Success? {
          assert Collected(visits, fieldId, n) == Collected(visits, fieldId, n - 1) + {FieldValue(fieldId, v.fields.value).value};
        } else {
          assert Collected(visits, fieldId, n) == Collected(visits, fieldId, n - 1);
        }
      }
    }
  }

  /**
   * While no refresh failed, the credential pass deletes exactly the
   * credentials whose reference ID is in the set, in listing order, and
   * never changes the set.
   */
  lemma {:induction false} CredentialsPassSelects(l: Ledger, creds: seq<ListedCredential>, visits: seq<CredentialVisit>, n: nat)
    requires n <= |creds| == |visits|
    requires l.fatal.None?
    ensures CredentialsPass(l, creds, visits, n).ids == l.ids
    ensures CredentialsPass(l, creds, visits, n).deletedUsers == l.deletedUsers
    ensures CredentialsPass(l, creds, visits, n).fatal.None? ==>
              CredentialsPass(l, creds, visits, n).deletedCredentials == l.deletedCredentials + Selected(creds, l.ids, n)
  {
    if n > 0 {
      CredentialsPassSelects(l, creds, visits, n - 1);
    }
  }

  /** After a fatal exit nothing more happens. */
  lemma {:induction false} CredentialsPassAfterFatal(l: Ledger, creds: seq<ListedCredential>, visits: seq<CredentialVisit>, n: nat)
    requires n <= |creds| == |visits|
    requires l.fatal.Some?
    ensures CredentialsPass(l, creds, visits, n) == l
  {
    if n > 0 {
      CredentialsPassAfterFatal(l, creds, visits, n - 1);
    }
  }

  /**
   * Whatever the refreshes do, every credential the pass deleted carries a
   * reference ID the set maps to `true`.
   */
  lemma {:induction false} DeletedOnlyIfStashed(l: Ledger, creds: seq<ListedCredential>, visits: seq<CredentialVisit>, n: nat)
    requires n <= |creds| == |visits|
    ensures CredentialsPass(l, creds, visits, n).ids == l.ids
    ensures |CredentialsPass(l, creds, visits, n).deletedCredentials| >= |l.deletedCredentials|
    ensures forall j :: |l.deletedCredentials| <= j < |CredentialsPass(l, creds, visits, n).deletedCredentials| ==>
              var c := CredentialsPass(l, creds, visits, n).deletedCredentials[j];
              c.referenceId in l.ids && l.ids[c.referenceId]
  {
    if n > 0 {
      DeletedOnlyIfStashed(l, creds, visits, n - 1);
    }
  }

  /** The set of barcode IDs with its mutex left out, and the rest of the state `Nuke` changes. */
  class Cleaner {
    var ids: map<string, bool>
    var expireTime: int
    var deletedUsers: seq<int>
    var deletedCredentials: seq<ListedCredential>
    var fatal: Option<string>

    function State(): Ledger
      reads this
    {
      Ledger(ids, expireTime, deletedUsers, deletedCredentials, fatal)
    }

    constructor ()
      ensures State() == Ledger(map[], 0, [], [], None)
    {
      ids := map[];
      expireTime := 0;
      deletedUsers := [];
      deletedCredentials := [];
      fatal := None;
    }

    /** `brivoIDSet.update(userID)`: store `true` under the ID; nothing else changes. */
    method Update(userId: string)
      modifies this
      ensures ids == old(ids)[userId := true]
      ensures ids.Keys == old(ids.Keys) + {userId}
      ensures AllTrue(old(ids)) ==> AllTrue(ids)
      ensures expireTime == old(expireTime) && deletedUsers == old(deletedUsers)
      ensures deletedCredentials == old(deletedCredentials) && fatal == old(fatal)
    {
      ids := ids[userId := true];
    }

    /** The token check at the head of both goroutines. */
    method CheckToken(now: int, refresh: Result<int, string>)
      modifies this
      ensures State() == Refreshed(old(State()), now, refresh)
    {
      if now > expireTime {
        match refresh {
          case Failure(e) =>
            fatal := Some(RefreshFailed + e);
          case Success(expiry) =>
            expireTime := expiry;
        }
      }
    }

    /** The goroutine for user `u`. */
    method VisitUser(u: Brivo.BrivoUser, v: UserVisit, fieldId: int)
      requires fatal.None?
      modifies this
      ensures State() == UserStep(old(State()), u, v, fieldId)
    {
      CheckToken(v.now, v.refresh);
      if fatal.Some? {
        return;
      }
      if v.fields.Failure? {
        return;
      }
      var barcode := GetFieldValue(fieldId, v.fields.value);
      if barcode.Failure? {
        return;
      }
      Update(barcode.value);
      deletedUsers := deletedUsers + [u.id];
    }

    /** The goroutine for credential `c`. */
    method VisitCredential(c: ListedCredential, v: CredentialVisit)
      requires fatal.None?
      modifies this
      ensures State() == CredentialStep(old(State()), c, v)
    {
      CheckToken(v.now, v.refresh);
      if fatal.Some? {
        return;
      }
      if c.referenceId in ids && ids[c.referenceId] {
        deletedCredentials := deletedCredentials + [c];
      }
    }

    /**
     * `Nuke(cfg)`: a failed token fetch or listing is fatal before anything
     * is deleted; otherwise every user is visited, then every credential,
     * stopping at the first failed refresh.
     */
    method Nuke(
      token: Result<int, string>,
      users: Result<seq<Brivo.BrivoUser>, string>,
      creds: Result<seq<ListedCredential>, string>,
      userVisits: seq<UserVisit>,
      credentialVisits: seq<CredentialVisit>,
      fieldId: int
    )
      requires users.Success? ==> |userVisits| == |users.value|
      requires creds.Success? ==> |credentialVisits| == |creds.value|
      modifies this
      ensures token.Failure? ==> fatal == Some("Error generating Brivo access token: " + token.error)
      ensures token.Success? && users.Failure? ==> fatal == Some("Error fetching Brivo users " + users.error)
      ensures token.Success? && users.Success? && creds.Failure? ==> fatal == Some("Error fetching Brivo credentials: " + creds.error)
      ensures token.Failure? || users.Failure? || creds.Failure? ==> deletedUsers == old(deletedUsers) && deletedCredentials == old(deletedCredentials)
      ensures token.Success? && users.Success? && creds.Success? ==>
                var start := Ledger(map[], token.value, old(deletedUsers), old(deletedCredentials), None);
                var afterUsers := UsersPass(start, users.value, userVisits, fieldId, |users.value|);
                State() == CredentialsPass(afterUsers, creds.value, credentialVisits, |creds.value|)
    {
      if token.Failure? {
        fatal := Some("Error generating Brivo access token: " + token.error);
        return;
      }
      expireTime := token.value;
      if users.Failure? {
        fatal := Some("Error fetching Brivo users " + users.error);
        return;
      }
      if creds.Failure? {
        fatal := Some("Error fetching Brivo credentials: " + creds.error);
        return;
      }
      ids := map[];
      fatal := None;
      var us := users.value;
      var cs := creds.value;
      ghost var start := State();
      var i := 0;
      while i < |us|
        invariant 0 <= i <= |us|
        invariant State() == UsersPass(start, us, userVisits, fieldId, i)
      {
        if fatal.None? {
          VisitUser(us[i], userVisits[i], fieldId);
        }
        i := i + 1;
      }
      ghost var afterUsers := State();
      var j := 0;
      while j < |cs|
        invariant 0 <= j <= |cs|
        invariant State() == CredentialsPass(afterUsers, cs, credentialVisits, j)
      {
        if fatal.None? {
          VisitCredential(cs[j], credentialVisits[j]);
        }
        j := j + 1;
      }
    }
  }

  /** The ledger `Nuke` starts its passes from: an empty set, no credential deleted yet, no fatal exit. */
  predicate FreshStart(start: Ledger) {
    start.ids == map[] && start.deletedCredentials == [] && start.fatal.None?
  }

  /**
   * End to end, safety: every credential `Nuke`'s passes delete carries the
   * barcode of a user whose fields were fetched and held the barcode field;
   * if a refresh failed during the user pass, none is deleted.
   */
  lemma NukeDeletesOnlyMemberCredentials(
    start: Ledger, users: seq<Brivo.BrivoUser>, creds: seq<ListedCredential>,
    userVisits: seq<UserVisit>, credentialVisits: seq<CredentialVisit>, fieldId: int, afterUsers: Ledger
  )
    requires FreshStart(start)
    requires |userVisits| == |users| && |credentialVisits| == |creds|
    requires afterUsers == UsersPass(start, users, userVisits, fieldId, |users|)
    ensures
      var end := CredentialsPass(afterUsers, creds, credentialVisits, |creds|);
      && AllTrue(end.ids)
      && (afterUsers.fatal.Some? ==> end.deletedCredentials == [])
      && (forall j :: 0 <= j < |end.deletedCredentials| ==> end.deletedCredentials[j].referenceId in Collected(userVisits, fieldId, |users|))
  {
    assert AllTrue(start.ids);
    UsersPassCollects(start, users, userVisits, fieldId, |users|);
    var end := CredentialsPass(afterUsers, creds, credentialVisits, |creds|);
    DeletedOnlyIfStashed(afterUsers, creds, credentialVisits, |creds|);
    if afterUsers.fatal.None? {
      assert afterUsers.ids.Keys == Collected(userVisits, fieldId, |users|);
    } else {
      CredentialsPassAfterFatal(afterUsers, creds, credentialVisits, |creds|);
    }
  }

  /**
   * End to end, completeness: when no refresh failed, the set holds exactly
   * the collected barcodes and the deleted credentials are exactly those
   * whose reference ID is among them, in listing order.
   */
  lemma NukeDeletesEveryMemberCredential(
    start: Ledger, users: seq<Brivo.BrivoUser>, creds: seq<ListedCredential>,
    userVisits: seq<UserVisit>, credentialVisits: seq<CredentialVisit>, fieldId: int, afterUsers: Ledger
  )
    requires FreshStart(start)
    requires |userVisits| == |users| && |credentialVisits| == |creds|
    requires afterUsers == UsersPass(start, users, userVisits, fieldId, |users|)
    requires CredentialsPass(afterUsers, creds, credentialVisits, |creds|).fatal.None?
    ensures
      var end := CredentialsPass(afterUsers, creds, credentialVisits, |creds|);
      && end.ids.Keys == Collected(userVisits, fieldId, |users|)
      && end.deletedCredentials == Selected(creds, end.ids, |creds|)
  {
    UsersPassCollects(start, users, userVisits, fieldId, |users|);
    if afterUsers.fatal.Some? {
      CredentialsPassAfterFatal(afterUsers, creds, credentialVisits, |creds|);
      assert false;
    }
    CredentialsPassSelects(afterUsers, creds, credentialVisits, |creds|);
    assert [] + Selected(creds, afterUsers.ids, |creds|) == Selected(creds, afterUsers.ids, |creds|);
  }
}
