/**
 * Brivo users (models/brivo.go): the mapping `BuildBrivoUsers` makes of a
 * MINDBODY client, a Brivo user and an "Unknown Format" credential whose
 * encoded value is the hexadecimal of the barcode ID.
 *
 * The remote calls that follow the mapping in `BuildBrivoUsers` (create the
 * credential, create the user, assign the credential, each fatal on error)
 * are not part of this model.
 */
module Brivo {

  import opened Wrappers
  import opened GoStrings
  import MindBody
  import Credentials

  datatype Email = Email(address: string, emailType: string)

  datatype PhoneNumber = PhoneNumber(number: string, numberType: string)

  /** `brivoUser`; its `customFields` stay nil on every path modelled here. */
  datatype BrivoUser = BrivoUser(
    id: int,
    externalId: string,
    firstName: string,
    middleName: string,
    lastName: string,
    suspended: bool,
    emails: seq<Email>,
    phoneNumbers: seq<PhoneNumber>)

  /** The credential format Brivo calls "Unknown Format". */
  const UnknownFormat := 110

  // ---------------------------------------------------------------------------
  // Hexadecimal encoding (`encoding/hex`)
  // ---------------------------------------------------------------------------

  const HexDigits := "0123456789abcdef"

  /** `hex.EncodeToString`: two lower-case digits per byte, high nibble first. */
  function HexEncode(bs: seq<Byte>): (s: string)
    ensures |s| == 2 * |bs|
    ensures forall i :: 0 <= i < |s| ==> s[i] in HexDigits
  {
    if bs == [] then [] else [HexDigits[bs[0] / 16], HexDigits[bs[0] % 16]] + HexEncode(bs[1..])
  }

  /** The value of one hexadecimal digit; `hex.DecodeString` accepts both cases. */
  function HexValue(c: char): (r: Option<nat>)
    ensures r.Some? ==> r.value < 16
  {
    if '0' <= c <= '9' then Some(c as int - '0' as int)
    else if 'a' <= c <= 'f' then Some(c as int - 'a' as int + 10)
    else if 'A' <= c <= 'F' then Some(c as int - 'A' as int + 10)
    else None
  }

  /** `hex.DecodeString`: fails on an odd length or a character that is not a hexadecimal digit. */
  function HexDecode(s: string): Option<seq<Byte>>
    decreases |s|
  {
    if s == [] then Some([])
    else if |s| == 1 then None
    else
      var hi := HexValue(s[0]);
      var lo := HexValue(s[1]);
      var rest := HexDecode(s[2..]);
      if hi.Some? && lo.Some? && rest.Some? then Some([hi.value * 16 + lo.value] + rest.value) else None
  }

  lemma HexDigitValue(d: nat)
    requires d < 16
    ensures HexValue(HexDigits[d]) == Some(d)
  {
  }

  /** Decoding the encoding of any bytes gives the bytes back. */
  lemma {:induction false} HexRoundTrip(bs: seq<Byte>)
    ensures HexDecode(HexEncode(bs)) == Some(bs)
  {
    if bs != [] {
      var b := bs[0];
      var t := HexEncode(bs[1..]);
      assert HexEncode(bs) == [HexDigits[b / 16], HexDigits[b % 16]] + t;
      HexRoundTrip(bs[1..]);
      HexDecodePair(b, t, bs[1..]);
      assert [bs[0]] + bs[1..] == bs;
    }
  }

  /** Decoding the two digits of byte `b` in front of text that decodes to `rest`. */
  lemma HexDecodePair(b: Byte, t: string, rest: seq<Byte>)
    requires HexDecode(t) == Some(rest)
    ensures HexDecode([HexDigits[b / 16], HexDigits[b % 16]] + t) == Some([b] + rest)
  {
    var s := [HexDigits[b / 16], HexDigits[b % 16]] + t;
    HexDigitValue(b / 16);
    HexDigitValue(b % 16);
    assert s[2..] == t;
    assert (b / 16) as int * 16 + (b % 16) as int == b as int;
  }

  // ---------------------------------------------------------------------------
  // Mapping a MINDBODY client
  // ---------------------------------------------------------------------------

  /** The order the phone types are appended in. */
  function PhoneRank(numberType: string): int {
    if numberType == "home" then 0 else if numberType == "mobile" then 1 else 2
  }

  /** `p` is one of the client's non-empty numbers, under the type of the field it came from. */
  predicate IsPhoneOf(c: MindBody.Client, p: PhoneNumber) {
    && p.number != ""
    && (|| (p.numberType == "home" && p.number == c.homePhone)
        || (p.numberType == "mobile" && p.number == c.mobilePhone)
        || (p.numberType == "work" && p.number == c.workPhone))
  }

  /**
   * `user` and `cred` are what `BuildBrivoUsers` makes of client `c`: the
   * barcode ID as external ID, the names, suspension unless the client is both
   * active and in status "Active", the e-mail as a "home" address, each
   * non-empty phone number once, in the order home, mobile, work, and an
   * "Unknown Format" credential whose reference is the barcode ID and whose
   * encoded value is the hexadecimal of the ID's bytes.
   */
  predicate MapsClient(c: MindBody.Client, user: BrivoUser, cred: Credentials.Credential) {
    && user.id == 0
    && user.externalId == c.id
    && user.firstName == c.firstName && user.middleName == c.middleName && user.lastName == c.lastName
    && (user.suspended <==> !c.active || c.status != "Active")
    && user.emails == [Email(c.email, "home")]
    && PhonesOf(c, user.phoneNumbers)
    && cred == Credentials.Credential(Credentials.CredentialFormat(UnknownFormat), c.id, HexEncode(Utf8(c.id)))
  }

  /** The phone list the three optional appends produce. */
  function AppendedPhones(c: MindBody.Client): seq<PhoneNumber> {
    (if c.homePhone != "" then [PhoneNumber(c.homePhone, "home")] else [])
    + (if c.mobilePhone != "" then [PhoneNumber(c.mobilePhone, "mobile")] else [])
    + (if c.workPhone != "" then [PhoneNumber(c.workPhone, "work")] else [])
  }

  /** The phone conditions of `MapsClient`. */
  predicate PhonesOf(c: MindBody.Client, phones: seq<PhoneNumber>) {
    && (forall i :: 0 <= i < |phones| ==> IsPhoneOf(c, phones[i]))
    && (forall i, j :: 0 <= i < j < |phones| ==> PhoneRank(phones[i].numberType) < PhoneRank(phones[j].numberType))
    && (c.homePhone != "" <==> PhoneNumber(c.homePhone, "home") in phones)
    && (c.mobilePhone != "" <==> PhoneNumber(c.mobilePhone, "mobile") in phones)
    && (c.workPhone != "" <==> PhoneNumber(c.workPhone, "work") in phones)
  }

  /** The appends meet the phone conditions, with at most three numbers. */
  lemma PhoneAppends(c: MindBody.Client)
    ensures PhonesOf(c, AppendedPhones(c))
    ensures |AppendedPhones(c)| <= 3
  {
  }

  /** The phone of a given type that `IsPhoneOf` allows. */
  function PhoneOfRank(c: MindBody.Client, rank: int): PhoneNumber {
    if rank == 0 then PhoneNumber(c.homePhone, "home")
    else if rank == 1 then PhoneNumber(c.mobilePhone, "mobile")
    else PhoneNumber(c.workPhone, "work")
  }

  /** The appended phones of the types ranked `k` or later. */
  function PhonesFrom(c: MindBody.Client, k: nat): seq<PhoneNumber>
    decreases 3 - k
  {
    if k >= 3 then []
    else (if PhoneOfRank(c, k).number != "" then [PhoneOfRank(c, k)] else []) + PhonesFrom(c, k + 1)
  }

  /** A client's phone is the one of its type's rank. */
  lemma PhoneHasRank(c: MindBody.Client, p: PhoneNumber)
    requires IsPhoneOf(c, p)
    ensures 0 <= PhoneRank(p.numberType) < 3
    ensures p == PhoneOfRank(c, PhoneRank(p.numberType)) && p.number != ""
  {
  }

  lemma RankOfPhone(c: MindBody.Client, j: int)
    requires 0 <= j < 3
    ensures PhoneRank(PhoneOfRank(c, j).numberType) == j
  {
  }

  /** A phone list holding only the client's numbers of types ranked `k` or later, in rank order, each one present iff non-empty, is `PhonesFrom(c, k)`. */
  lemma {:induction false} PhonesFromDetermined(c: MindBody.Client, phones: seq<PhoneNumber>, k: nat)
    requires forall i :: 0 <= i < |phones| ==> IsPhoneOf(c, phones[i]) && PhoneRank(phones[i].numberType) >= k
    requires forall i, j :: 0 <= i < j < |phones| ==> PhoneRank(phones[i].numberType) < PhoneRank(phones[j].numberType)
    requires forall j :: k <= j < 3 ==> (PhoneOfRank(c, j).number != "" <==> PhoneOfRank(c, j) in phones)
    ensures phones == PhonesFrom(c, k)
    decreases 3 - k
  {
    if k >= 3 {
      if phones != [] {
        PhoneHasRank(c, phones[0]);
        assert false;
      }
    } else if PhoneOfRank(c, k).number != "" {
      PhonesFromHead(c, phones, k);
    } else {
      forall i | 0 <= i < |phones|
        ensures IsPhoneOf(c, phones[i]) && PhoneRank(phones[i].numberType) >= k + 1
      {
        PhoneHasRank(c, phones[i]);
      }
      PhonesFromDetermined(c, phones, k + 1);
    }
  }

  /** The step of `PhonesFromDetermined` where the number of rank `k` is present: it heads the list. */
  lemma {:induction false} PhonesFromHead(c: MindBody.Client, phones: seq<PhoneNumber>, k: nat)
    requires k < 3 && PhoneOfRank(c, k).number != ""
    requires forall i :: 0 <= i < |phones| ==> IsPhoneOf(c, phones[i]) && PhoneRank(phones[i].numberType) >= k
    requires forall i, j :: 0 <= i < j < |phones| ==> PhoneRank(phones[i].numberType) < PhoneRank(phones[j].numberType)
    requires forall j :: k <= j < 3 ==> (PhoneOfRank(c, j).number != "" <==> PhoneOfRank(c, j) in phones)
    ensures phones == PhonesFrom(c, k)
    decreases 3 - k, 0
  {
    assert PhoneOfRank(c, k) in phones;
    var i :| 0 <= i < |phones| && phones[i] == PhoneOfRank(c, k);
    RankOfPhone(c, k);
    assert PhoneRank(phones[0].numberType) >= k;
    assert PhoneRank(phones[i].numberType) == k;
    assert i == 0;
    var tail := phones[1..];
    assert phones == [phones[0]] + tail;
    forall j | k + 1 <= j < 3
      ensures PhoneOfRank(c, j).number != "" <==> PhoneOfRank(c, j) in tail
    {
      RankOfPhone(c, j);
    }
    forall i | 0 <= i < |tail|
      ensures IsPhoneOf(c, tail[i]) && PhoneRank(tail[i].numberType) >= k + 1
    {
      assert tail[i] == phones[i + 1];
      assert PhoneRank(phones[0].numberType) < PhoneRank(phones[i + 1].numberType);
    }
    PhonesFromDetermined(c, tail, k + 1);
  }

  /** The phone conditions leave exactly one list: the one the appends produce. */
  lemma PhonesDetermined(c: MindBody.Client, phones: seq<PhoneNumber>)
    requires PhonesOf(c, phones)
    ensures phones == AppendedPhones(c)
  {
    forall i | 0 <= i < |phones| ensures IsPhoneOf(c, phones[i]) && PhoneRank(phones[i].numberType) >= 0 {
      assert IsPhoneOf(c, phones[i]);
    }
    PhonesFromDetermined(c, phones, 0);
    assert PhonesFrom(c, 3) == [];
    assert AppendedPhones(c) == PhonesFrom(c, 0);
  }

  /** The body of `BuildBrivoUsers`' loop up to the remote calls: the user is built field by field. */
  method BuildBrivoUser(c: MindBody.Client) returns (user: BrivoUser, cred: Credentials.Credential)
    ensures MapsClient(c, user, cred)
    ensures |user.phoneNumbers| <= 3
  {
    user := BrivoUser(0, "", "", "", "", false, [], []);
    user := user.(externalId := c.id);
    user := user.(firstName := c.firstName, middleName := c.middleName, lastName := c.lastName);
    user := user.(suspended := !c.active || c.status != "Active");
    user := user.(emails := user.emails + [Email(c.email, "home")]);
    ghost var home: seq<PhoneNumber> := if c.homePhone != "" then [PhoneNumber(c.homePhone, "home")] else [];
    ghost var mobile: seq<PhoneNumber> := if c.mobilePhone != "" then [PhoneNumber(c.mobilePhone, "mobile")] else [];
    ghost var work: seq<PhoneNumber> := if c.workPhone != "" then [PhoneNumber(c.workPhone, "work")] else [];
    if c.homePhone != "" {
      user := user.(phoneNumbers := user.phoneNumbers + [PhoneNumber(c.homePhone, "home")]);
    }
    assert user.phoneNumbers == home;
    if c.mobilePhone != "" {
      user := user.(phoneNumbers := user.phoneNumbers + [PhoneNumber(c.mobilePhone, "mobile")]);
    }
    assert user.phoneNumbers == home + mobile;
    if c.workPhone != "" {
      user := user.(phoneNumbers := user.phoneNumbers + [PhoneNumber(c.workPhone, "work")]);
    }
    assert user.phoneNumbers == AppendedPhones(c);
    PhoneAppends(c);
    cred := Credentials.Credential(Credentials.CredentialFormat(UnknownFormat), user.externalId, HexEncode(Utf8(user.externalId)));
  }

  /** The encoded credential decodes back to the bytes of the barcode ID. */
  lemma EncodedCredentialDecodes(c: MindBody.Client, user: BrivoUser, cred: Credentials.Credential)
    requires MapsClient(c, user, cred)
    ensures HexDecode(cred.encodedCredential) == Some(Utf8(c.id))
    ensures |cred.encodedCredential| >= 2 * |c.id|
  {
    HexRoundTrip(Utf8(c.id));
  }

  // ---------------------------------------------------------------------------
  // The loop of BuildBrivoUsers
  // ---------------------------------------------------------------------------

  /** How the loop's mapping ends: the index expression panics on an empty client list. */
  datatype Mapping = IndexOutOfRange | Mapped(user: BrivoUser, cred: Credentials.Credential)

  /**
   * The mapping part of `brivo.BuildBrivoUsers(mb, config, auth)`. The loop
   * bound is the constant 1, so only `mb.Clients[0]` is ever mapped, whatever
   * the length of the list, and an empty list is an index out of range.
   */
  method BuildBrivoUsers(clients: seq<MindBody.Client>) returns (r: Mapping)
    ensures r.IndexOutOfRange? <==> clients == []
    ensures r.Mapped? ==> MapsClient(clients[0], r.user, r.cred)
  {
    r := IndexOutOfRange;
    var i := 0;
    while i < 1
      invariant 0 <= i <= 1
      invariant i == 0 ==> r.IndexOutOfRange?
      invariant i == 1 ==> clients != [] && r.Mapped? && MapsClient(clients[0], r.user, r.cred)
    {
      if i >= |clients| {
        return IndexOutOfRange;
      }
      var user, cred := BuildBrivoUser(clients[i]);
      r := Mapped(user, cred);
      i := i + 1;
    }
  }

  /** Two lists with the same first client map to the same user and credential: later clients are never read. */
  lemma OnlyFirstClientMatters(c: MindBody.Client, u1: BrivoUser, k1: Credentials.Credential, u2: BrivoUser, k2: Credentials.Credential)
    requires MapsClient(c, u1, k1) && MapsClient(c, u2, k2)
    ensures u1 == u2 && k1 == k2
  {
    PhonesDetermined(c, u1.phoneNumbers);
    PhonesDetermined(c, u2.phoneNumbers);
  }
}
