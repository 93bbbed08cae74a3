/**
 * The older HTTP helper (utils/async.go). It classifies responses like
 * `Utils.DoRequest`, but every error is an untyped error known only by its
 * text: an error status is reported as a formatted message that carries the
 * code, never as a value a caller could inspect for the code.
 */
module Async {

  import opened Wrappers
  import opened GoStrings
  import Json
  import Utils

  /** `DoRequest`'s returned error (its text) together with the value `output` holds afterwards. */
  datatype Outcome<T> = Outcome(err: Option<string>, output: T)

  const StatusPrefix := "async.doRequest: Error code "
  const StatusSuffix := " and output: \n "

  /** The message for an error status: "async.doRequest: Error code <code> and output: \n <%+v of body>". */
  function StatusErrorText(code: int, body: seq<Json.Member>): (t: string)
    ensures HasPrefix(t, StatusPrefix)
    ensures Contains(t, Itoa(code))
  {
    var t := StatusPrefix + Itoa(code) + StatusSuffix + Json.ShowObject(body);
    assert t == StatusPrefix + Itoa(code) + (StatusSuffix + Json.ShowObject(body));
    ContainsMiddle(StatusPrefix, Itoa(code), StatusSuffix + Json.ShowObject(body));
    t
  }

  /** Reads the status code back out of an error-status message. */
  function CodeOfStatusText(t: string): Option<int> {
    if !HasPrefix(t, StatusPrefix) then None
    else match ReadInt(t[|StatusPrefix|..])
      case None => None
      case Some((code, _)) => Some(code)
  }

  lemma StatusTextNamesCode(code: int, body: seq<Json.Member>)
    ensures CodeOfStatusText(StatusErrorText(code, body)) == Some(code)
  {
    var rest := StatusSuffix + Json.ShowObject(body);
    assert StatusErrorText(code, body)[|StatusPrefix|..] == Itoa(code) + rest;
    ReadIntItoa(code, rest);
  }

  /**
   * `DoRequest(req, output)`: a transport error, a body read error, a parse
   * error of an error body and a decode error are each returned unchanged;
   * a status of 400 or more with a parsable body gives the formatted message;
   * 204 gives no error and leaves `output` alone; any other status decodes
   * the body into `output`, which a failing decoder may leave partly filled.
   * Every other error leaves `output` untouched.
   */
  function DoRequest<T>(
    x: Utils.Exchange,
    parseObject: seq<Byte> -> Result<seq<Json.Member>, string>,
    decode: (seq<Byte>, T) -> Utils.Decoded<T>,
    output: T
  ): (r: Outcome<T>)
    ensures x.TransportFailed? ==> r == Outcome(Some(x.transportError), output)
    ensures x.Answered? && x.body.Unreadable? ==> r == Outcome(Some(x.body.readError), output)
    ensures r.output != output ==>
              x.Answered? && x.status < 400 && x.status != 204 && x.body.Bytes?
              && r.output == decode(x.body.data, output).output
              && r.err == decode(x.body.data, output).err
    ensures x.Answered? && x.status >= 400 && x.body.Bytes? ==>
              r.err.Some? && (parseObject(x.body.data).Success? ==> Contains(r.err.value, Itoa(x.status)))
    ensures x.Answered? && x.status == 204 && x.body.Bytes? ==> r == Outcome(None, output)
  {
    match x
    case TransportFailed(e) => Outcome(Some(e), output)
    case Answered(status, body) =>
      match body
      case Unreadable(e) => Outcome(Some(e), output)
      case Bytes(data) =>
        if status >= 400 then
          match parseObject(data)
          case Failure(e) => Outcome(Some(e), output)
          case Success(obj) => Outcome(Some(StatusErrorText(status, obj)), output)
        else if status == 204 then Outcome(None, output)
        else
          var d := decode(data, output);
          Outcome(d.err, d.output)
  }
  /**
   * The remaining answered cases: an error status whose body does not parse
   * returns the parse error, and otherwise the decoder's error and whatever
   * it left in `output` are returned as they are.
   */
  lemma AnsweredOutcomes<T>(
    status: int,
    data: seq<Byte>,
    parseObject: seq<Byte> -> Result<seq<Json.Member>, string>,
    decode: (seq<Byte>, T) -> Utils.Decoded<T>,
    output: T
  )
    ensures var r := DoRequest(Utils.Answered(status, Utils.Bytes(data)), parseObject, decode, output);
      && (status >= 400 && parseObject(data).Failure? ==> r.err == Some(parseObject(data).error))
      && (status < 400 && status != 204 ==> r == Outcome(decode(data, output).err, decode(data, output).output))
  {
  }


  /**
   * For every error status with a parsable body, the message is exactly the
   * formatted one, and the status can be read back from it.
   */
  lemma ErrorStatusIsReported<T>(
    status: int,
    data: seq<Byte>,
    parseObject: seq<Byte> -> Result<seq<Json.Member>, string>,
    decode: (seq<Byte>, T) -> Utils.Decoded<T>,
    output: T
  )
    requires status >= 400 && parseObject(data).Success?
    ensures var r := DoRequest(Utils.Answered(status, Utils.Bytes(data)), parseObject, decode, output);
            r.err.Some? && CodeOfStatusText(r.err.value) == Some(status)
  {
    StatusTextNamesCode(status, parseObject(data).value);
  }
}
