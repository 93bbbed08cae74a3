/**
 * Brivo access credentials (models/credential.go). `createCredential` posts a
 * credential and returns the new credential's ID; when Brivo answers 400 with
 * a "Duplicate Credential Found" message it returns, with no error, the ID of
 * the credential's FORMAT (the credential itself is not looked up).
 *
 * The request's outcome is classified by the typed helper `Utils.DoRequest`
 * (the code switches on a `*JSONError`, which only that helper returns).
 * Go's failed type assertions (`r["id"].(float64)`, `Body["message"].(string)`)
 * panic; the model returns `Panicked` for them.
 */
module Credentials {

  import opened Wrappers
  import opened GoStrings
  import Json
  import Utils

  datatype CredentialFormat = CredentialFormat(id: int)

  datatype Credential = Credential(format: CredentialFormat, referenceId: string, encodedCredential: string)

  /** The `(int, error)` pair `createCredential` returns, or the panic it raises. */
  datatype Creation = Created(id: int, err: Option<Utils.Error>) | Panicked(reason: string)

  const DuplicateMarker := "Duplicate Credential Found"

  /**
   * Decoding a body into `var r map[string]interface{}` (nil until decoded).
   * Any JSON value fits an `interface{}` entry, so a failure leaves the map as
   * it was.
   */
  function DecodeInto(parseObject: seq<Byte> -> Result<seq<Json.Member>, string>): (seq<Byte>, Option<seq<Json.Member>>) -> Utils.Decoded<Option<seq<Json.Member>>> {
    (b: seq<Byte>, prev: Option<seq<Json.Member>>) =>
      match parseObject(b)
      case Success(o) => Utils.Decoded(Some(o), None)
      case Failure(e) => Utils.Decoded(prev, Some(e))
  }

  /** The response was a 400 whose string `message` contains the duplicate marker. */
  predicate IsDuplicateAnswer(x: Utils.Exchange, parseObject: seq<Byte> -> Result<seq<Json.Member>, string>) {
    && x.Answered? && x.status == 400 && x.body.Bytes?
    && parseObject(x.body.data).Success?
    && var message := Json.Get(parseObject(x.body.data).value, "message");
       message.Some? && message.value.Str? && Contains(message.value.s, DuplicateMarker)
  }

  /** The response had a non-error status other than 204 and its decoded body has a numeric `id`. */
  predicate IsCreatedAnswer(x: Utils.Exchange, parseObject: seq<Byte> -> Result<seq<Json.Member>, string>) {
    && x.Answered? && x.status < 400 && x.status != 204 && x.body.Bytes?
    && parseObject(x.body.data).Success?
    && var id := Json.Get(parseObject(x.body.data).value, "id");
       id.Some? && id.value.Number?
  }

  /**
   * `cred.createCredential(...)`. `marshalError` and `requestError` are the
   * failures of `json.Marshal` and `http.NewRequest`; `x` is the exchange.
   */
  function CreateCredential(
    cred: Credential,
    marshalError: Option<string>,
    requestError: Option<string>,
    x: Utils.Exchange,
    parseObject: seq<Byte> -> Result<seq<Json.Member>, string>
  ): (r: Creation)
    ensures r.Created? && r.err.Some? ==> r.id == 0
    ensures marshalError.Some? ==> r == Created(0, Some(Utils.Plain(marshalError.value)))
    ensures marshalError.None? && requestError.Some? ==> r == Created(0, Some(Utils.Plain(requestError.value)))
    ensures r.Created? && r.err.None? ==>
              && marshalError.None? && requestError.None?
              && (|| (IsCreatedAnswer(x, parseObject) && Json.Get(parseObject(x.body.data).value, "id") == Some(Json.Number(r.id)))
                  || (IsDuplicateAnswer(x, parseObject) && r.id == cred.format.id))
  {
    if marshalError.Some? then Created(0, Some(Utils.Plain(marshalError.value)))
    else if requestError.Some? then Created(0, Some(Utils.Plain(requestError.value)))
    else
      var out := Utils.DoRequest(x, parseObject, DecodeInto(parseObject), None);
      match out.err
      case None =>
        (match out.output
         case None => Panicked("interface conversion: interface {} is nil, not float64")
         case Some(obj) =>
           match Json.Get(obj, "id")
           case Some(Number(n)) => Created(n, None)
           case _ => Panicked("interface conversion: id is not float64"))
      case Some(e) =>
        if e.JsonError? && e.code == 400 then
          match Json.Get(e.body, "message")
          case Some(Str(m)) =>
            if Contains(m, DuplicateMarker) then Created(cred.format.id, None) else Created(0, Some(e))
          case _ => Panicked("interface conversion: message is not string")
        else Created(0, Some(e))
  }

  /**
   * The duplicate path is taken exactly for a 400 whose message contains the
   * marker, and it reports the format ID with no error.
   */
  lemma DuplicateReturnsFormatId(
    cred: Credential,
    x: Utils.Exchange,
    parseObject: seq<Byte> -> Result<seq<Json.Member>, string>
  )
    requires IsDuplicateAnswer(x, parseObject)
    ensures CreateCredential(cred, None, None, x, parseObject) == Created(cred.format.id, None)
  {
  }

  /**
   * Every other error status, 401 and 409 included, comes back as `(0, err)`
   * with the typed error: the duplicate check needs the code to be 400.
   */
  lemma OtherErrorStatusFails(
    cred: Credential,
    x: Utils.Exchange,
    parseObject: seq<Byte> -> Result<seq<Json.Member>, string>
  )
    requires x.Answered? && x.status >= 400 && x.status != 400 && x.body.Bytes?
    requires parseObject(x.body.data).Success?
    ensures CreateCredential(cred, None, None, x, parseObject)
            == Created(0, Some(Utils.JsonError(x.status, parseObject(x.body.data).value)))
  {
  }

  /** A success answer yields the response's `id` with no error. */
  lemma CreatedReturnsId(
    cred: Credential,
    x: Utils.Exchange,
    parseObject: seq<Byte> -> Result<seq<Json.Member>, string>
  )
    requires IsCreatedAnswer(x, parseObject)
    ensures CreateCredential(cred, None, None, x, parseObject)
            == Created(Json.Get(parseObject(x.body.data).value, "id").value.n, None)
  {
  }
}
