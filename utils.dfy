/**
 * The shared HTTP helper of the root package (utils.go): `DoRequest` sorts a
 * response into a transport error, a typed `JSONError` for error statuses, no
 * error for 204, or a decoded body; `JSONError.Error()` is its text; `Logger`
 * prints only in debug mode.
 *
 * The exchange itself is an input: what the transport returned, and the status
 * and body of the response. JSON decoding is a pair of function parameters:
 * into a generic object (a value or the decoder's error text), and into the
 * caller's `output` (what `output` holds afterwards, and the error if any).
 */
module Utils {

  import opened Wrappers
  import opened GoStrings
  import Json

  /** The errors `DoRequest` can return: the typed `*JSONError`, or any other error by its text. */
  datatype Error =
    | JsonError(code: int, body: seq<Json.Member>)
    | Plain(text: string)

  /** What the body reader produced. */
  datatype Body = Unreadable(readError: string) | Bytes(data: seq<Byte>)

  /** One HTTP exchange: either the client failed, or a response arrived. */
  datatype Exchange =
    | TransportFailed(transportError: string)
    | Answered(status: int, body: Body)

  /** `DoRequest`'s returned error together with the value `output` holds afterwards. */
  datatype Outcome<T> = Outcome(err: Option<Error>, output: T)

  /**
   * What `json.Unmarshal(data, output)` leaves in `output`, and the error it
   * returns. On a type mismatch the decoder keeps going, so `output` can be
   * partly filled even though `err` is set.
   */
  datatype Decoded<T> = Decoded(output: T, err: Option<string>)

  const UnmarshalPrefix := "Error unmarshalling json: "

  const ErrorCodePrefix := "Error code "
  const ErrorCodeSuffix := " and output:\n"

  /** `(*JSONError).Error()`: "Error code <code> and output:\n<%+v of body>\n". */
  function JsonErrorText(code: int, body: seq<Json.Member>): (t: string)
    ensures HasPrefix(t, ErrorCodePrefix) && t[|t| - 1] == '\n'
  {
    ErrorCodePrefix + Itoa(code) + ErrorCodeSuffix + Json.ShowObject(body) + "\n"
  }

  /** The text `err.Error()` gives for any error `DoRequest` returns. */
  function ErrorText(e: Error): string {
    match e
    case JsonError(code, body) => JsonErrorText(code, body)
    case Plain(text) => text
  }

  /** Reads the status code back out of a `JSONError` text. */
  function CodeOfErrorText(t: string): Option<int> {
    if !HasPrefix(t, ErrorCodePrefix) then None
    else match ReadInt(t[|ErrorCodePrefix|..])
      case None => None
      case Some((code, _)) => Some(code)
  }

  /** The text of a `JSONError` names its code: reading it back yields the code. */
  lemma JsonErrorTextNamesCode(code: int, body: seq<Json.Member>)
    ensures CodeOfErrorText(JsonErrorText(code, body)) == Some(code)
  {
    var rest := ErrorCodeSuffix + Json.ShowObject(body) + "\n";
    var t := JsonErrorText(code, body);
    assert t[|ErrorCodePrefix|..] == Itoa(code) + rest;
    ReadIntItoa(code, rest);
  }

  /**
   * `DoRequest(req, output)`: a transport error is returned as it is; an
   * unreadable body gives "Error reading response: ..."; a status of 400 or
   * more gives a `JSONError` carrying the status and the parsed body, unless
   * the body does not parse as an object, in which case the parse error is
   * returned instead; 204 gives no error and leaves `output` alone; any other
   * status decodes the body into `output`, reporting "Error unmarshalling
   * json: ..." if the decoder fails, with whatever it had filled in by then.
   * Every error other than that one leaves `output` untouched.
   */
  function DoRequest<T>(
    x: Exchange,
    parseObject: seq<Byte> -> Result<seq<Json.Member>, string>,
    decode: (seq<Byte>, T) -> Decoded<T>,
    output: T
  ): (r: Outcome<T>)
    ensures x.TransportFailed? ==> r == Outcome(Some(Plain(x.transportError)), output)
    ensures r.err.Some? && !(r.err.value.Plain? && HasPrefix(r.err.value.text, UnmarshalPrefix)) ==> r.output == output
    ensures r.output != output ==>
              x.Answered? && x.status < 400 && x.status != 204 && x.body.Bytes?
              && r.output == decode(x.body.data, output).output
    ensures r.err.Some? && r.err.value.JsonError? ==>
              x.Answered? && x.status >= 400 && r.err.value.code == x.status
              && x.body.Bytes? && parseObject(x.body.data) == Success(r.err.value.body)
    ensures x.Answered? && x.status == 204 && x.body.Bytes? ==> r == Outcome(None, output)
  {
    match x
    case TransportFailed(e) => Outcome(Some(Plain(e)), output)
    case Answered(status, body) =>
      match body
      case Unreadable(e) => Outcome(Some(Plain("Error reading response: " + e)), output)
      case Bytes(data) =>
        if status >= 400 then
          match parseObject(data)
          case Failure(e) => Outcome(Some(Plain(e)), output)
          case Success(obj) => Outcome(Some(JsonError(status, obj)), output)
        else if status == 204 then Outcome(None, output)
        else
          var d := decode(data, output);
          match d.err
          case Some(e) => Outcome(Some(Plain(UnmarshalPrefix + e)), d.output)
          case None => Outcome(None, d.output)
  }

  /**
   * The other answered cases: an unreadable body and an error status whose
   * body does not parse give plain errors; a body that does not decode gives
   * an "Error unmarshalling json: " error along with whatever the decoder
   * filled in; one that decodes is the new `output`.
   */
  lemma AnsweredOutcomes<T>(
    status: int,
    body: Body,
    parseObject: seq<Byte> -> Result<seq<Json.Member>, string>,
    decode: (seq<Byte>, T) -> Decoded<T>,
    output: T
  )
    ensures var r := DoRequest(Answered(status, body), parseObject, decode, output);
      && (body.Unreadable? ==> r.err == Some(Plain("Error reading response: " + body.readError)))
      && (body.Bytes? && status >= 400 && parseObject(body.data).Failure? ==>
            r.err == Some(Plain(parseObject(body.data).error)))
      && (body.Bytes? && status >= 400 && parseObject(body.data).Success? ==>
            r.err == Some(JsonError(status, parseObject(body.data).value)))
      && (body.Bytes? && status < 400 && status != 204 && decode(body.data, output).err.Some? ==>
            && r.err.Some? && r.err.value.Plain? && HasPrefix(r.err.value.text, UnmarshalPrefix)
            && r.output == decode(body.data, output).output)
      && (body.Bytes? && status < 400 && status != 204 && decode(body.data, output).err.None? ==>
            r == Outcome(None, decode(body.data, output).output))
  {
  }

  /** Callers test for an expired token with `err.(*JSONError)` and `Code == 401`. */
  predicate IsUnauthorized(err: Option<Error>) {
    err.Some? && err.value.JsonError? && err.value.code == 401
  }

  /**
   * A 401 is visible to callers exactly when the response had status 401 and a
   * body that parses as a JSON object; with an unparsable body the caller gets
   * the parse error and cannot tell the token expired.
   */
  lemma UnauthorizedVisibleIff<T>(
    x: Exchange,
    parseObject: seq<Byte> -> Result<seq<Json.Member>, string>,
    decode: (seq<Byte>, T) -> Decoded<T>,
    output: T
  )
    ensures IsUnauthorized(DoRequest(x, parseObject, decode, output).err)
            <==> (x.Answered? && x.status == 401 && x.body.Bytes? && parseObject(x.body.data).Success?)
  {
  }

  /** `Logger(message)`: the lines printed, given the process environment. */
  function Logger(env: map<string, string>, message: string): (printed: seq<string>)
    ensures printed != [] <==> "DEBUG" in env && env["DEBUG"] == "true"
    ensures printed != [] ==> printed == [message + "\n"]
  {
    var debug := if "DEBUG" in env then env["DEBUG"] else "";
    if debug == "true" then [message + "\n"] else []
  }
}
