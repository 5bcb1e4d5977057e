/**
 * The api client's request helper (api-client/internal/requester/requester.go): building the
 * request payload, reading a `{status, data, err_data}` answer, and turning an error status back
 * into one of the client's error values.
 */
module Requester {
  import opened Wrappers
  import opened Text
  import opened ClientModels
  import HttpServer
  import ServerErrors

  /** The error statuses the client knows, each with the sentinel it stands for. */
  const Sentinels: seq<(String, Error)> := [
    ("BOARD_NOT_FOUND", BoardNotFound), ("MEDIA_NOT_FOUND", MediaNotFound),
    ("MEDIA_IS_REQUIRED", MediaIsRequired), ("MEME_NOT_FOUND", MemeNotFound)]

  const InvalidInputStatus: String := "INVALID_INPUT"

  /** The statuses `ParseError` has a case for; any other status makes it panic. */
  predicate Handled(status: String)
  {
    status == InvalidInputStatus || exists i :: 0 <= i < |Sentinels| && Sentinels[i].0 == status
  }

  /**
   * The `err_data` of an answer as far as decoding it into `ErrInvalidInput` is concerned: a JSON
   * object with its string fields, `null`, or a value of another JSON kind.
   */
  datatype ErrData = Object(fields: map<String, String>) | Null | NotObject(kind: String)

  /** A field of a decoded struct: the object's value under the field's name, or the zero string. */
  function Field(fields: map<String, String>, name: String): (v: String)
    ensures name in fields ==> v == fields[name]
    ensures name !in fields ==> v == []
  {
    if name in fields then fields[name] else []
  }

  /**
   * `remarshalError[ErrInvalidInput]`: the object's "Param" and "Reason" fill the struct, `null`
   * leaves it zero, and any other kind fails to unmarshal.
   */
  function Remarshal(data: ErrData): (e: Error)
    ensures data.Object? ==> e == InvalidInput(Field(data.fields, "Param"), Field(data.fields, "Reason"))
    ensures data.Null? ==> e == InvalidInput([], [])
    ensures data.NotObject? ==> !e.InvalidInput?
  {
    match data
    case Object(fields) => InvalidInput(Field(fields, "Param"), Field(fields, "Reason"))
    case Null => InvalidInput([], [])
    case NotObject(kind) =>
      Other("can't unmarshal res: json: cannot unmarshal " + kind + " into Go value of type models.ErrInvalidInput")
  }

  /** What the server sends for an invalid input comes back as the same value. */
  lemma RemarshalRoundTrip(param: String, reason: String)
    ensures Remarshal(Object(map["Param" := param, "Reason" := reason])) == InvalidInput(param, reason)
    ensures Message(Remarshal(Object(map["Param" := param, "Reason" := reason]))) == "invalid " + param + ": " + reason
  {
  }

  /**
   * `ParseError`: a known not-found status gives its sentinel and INVALID_INPUT decodes the error
   * data; every other status is outside its domain (the Go code panics).
   */
  function ParseError(status: String, data: ErrData): (e: Error)
    requires Handled(status)
    ensures status == InvalidInputStatus ==> e == Remarshal(data)
    ensures forall i :: 0 <= i < |Sentinels| && Sentinels[i].0 == status ==> e == Sentinels[i].1
    ensures data.Object? || data.Null? ==> (e.InvalidInput? <==> status == InvalidInputStatus)
  {
    if status == "BOARD_NOT_FOUND" then BoardNotFound
    else if status == "MEDIA_NOT_FOUND" then MediaNotFound
    else if status == "MEDIA_IS_REQUIRED" then MediaIsRequired
    else if status == "MEME_NOT_FOUND" then MemeNotFound
    else Remarshal(data)
  }

  /** The client error that each of the server's 404 statuses carries the meaning of. */
  function Counterpart(e: ServerErrors.Error): (c: Error)
  {
    match e
    case BoardNotFound => BoardNotFound
    case MediaNotFound => MediaNotFound
    case MemeNotFound => MemeNotFound
    case UserNotFound => UserNotFound
    case MediaIsRequired => MediaIsRequired
    case _ => Other(ServerErrors.Message(e))
  }

  /**
   * Every not-found status the server's error table can send, except USER_NOT_FOUND, is one the
   * client handles, and it comes back as the client's own version of the server's error.
   */
  lemma ServerNotFoundsParse(i: int, data: ErrData)
    requires 0 <= i < |HttpServer.NotFounds| && HttpServer.NotFounds[i].1 != "USER_NOT_FOUND"
    ensures Handled(HttpServer.NotFounds[i].1)
    ensures ParseError(HttpServer.NotFounds[i].1, data) == Counterpart(HttpServer.NotFounds[i].0)
  {
    var status := HttpServer.NotFounds[i].1;
    if i == 0 {
      assert Sentinels[0].0 == status;
    } else if i == 1 {
      assert Sentinels[1].0 == status;
    } else if i == 2 {
      assert Sentinels[3].0 == status;
    } else {
      assert Sentinels[2].0 == status;
    }
  }

  /**
   * Statuses the server does send but the client has no case for: USER_NOT_FOUND from the error
   * table, and UNEXPECTED_ERROR, which the handler wrapper reports for any error without an
   * `ApiError` in its chain.
   */
  lemma UnhandledServerStatuses(text: String)
    ensures HttpServer.ParseError(ServerErrors.UserNotFound).status == "USER_NOT_FOUND"
    ensures HttpServer.FirstApiError(ServerErrors.Plain(text)).None?
    ensures !Handled("USER_NOT_FOUND") && !Handled("UNEXPECTED_ERROR")
  {
    assert ServerErrors.Is(ServerErrors.UserNotFound, HttpServer.NotFounds[3].0);
    assert !ServerErrors.Is(ServerErrors.UserNotFound, HttpServer.NotFounds[0].0);
    assert !ServerErrors.Is(ServerErrors.UserNotFound, HttpServer.NotFounds[1].0);
    assert !ServerErrors.Is(ServerErrors.UserNotFound, HttpServer.NotFounds[2].0);
  }

  /** An out-pointer of the Go code (`*T`): a cell the callee may overwrite. */
  class Ref<T> {
    var value: T

    constructor(v: T)
      ensures value == v
    {
      value := v;
    }
  }

  /**
   * The answer body as read from the connection: unreadable, not valid JSON, or decoded into its
   * status, its data (already decoded into the caller's type, or the reason that failed) and its
   * error data.
   */
  datatype Answer<T> =
    | Unreadable(readError: String)
    | Malformed(syntaxError: String)
    | Decoded(status: String, data: Result<T, String>, errData: ErrData)

  /**
   * `ReadResponse`: a non-OK status stores the parsed error in `apiErr`, leaves `input` alone and
   * returns no error; an OK status decodes the data into `input`; reading or decoding failures are
   * returned and change neither cell.
   */
  method ReadResponse<T>(answer: Answer<T>, input: Ref<T>, apiErr: Ref<Option<Error>>) returns (r: Option<Error>)
    requires answer.Decoded? && answer.status != "OK" ==> Handled(answer.status)
    requires input as object != apiErr as object
    modifies input, apiErr
    ensures answer.Unreadable? ==> r == Some(Other("can't read: " + answer.readError))
    ensures answer.Malformed? ==> r == Some(Other("can't unmarshal response: " + answer.syntaxError))
    ensures !answer.Decoded? ==> unchanged(input) && unchanged(apiErr)
    ensures answer.Decoded? && answer.status != "OK" ==>
      && r.None?
      && apiErr.value == Some(ParseError(answer.status, answer.errData))
      && unchanged(input)
    ensures answer.Decoded? && answer.status == "OK" ==>
      && unchanged(apiErr)
      && (answer.data.Ok? ==> r.None? && input.value == answer.data.value)
      && (answer.data.Err? ==> r == Some(Other("can't unmarshal input: " + answer.data.error)) && unchanged(input))
  {
    match answer
    case Unreadable(readError) =>
      return Some(Other("can't read: " + readError));
    case Malformed(syntaxError) =>
      return Some(Other("can't unmarshal response: " + syntaxError));
    case Decoded(status, data, errData) =>
      if status != "OK" {
        apiErr.value := Some(ParseError(status, errData));
        return None;
      }
      if data.Err? {
        return Some(Other("can't unmarshal input: " + data.error));
      }
      input.value := data.value;
      return None;
  }

  /** A file of a multipart request: its form field and file name. */
  datatype File = File(name: String, data: seq<int>)

  /** A request: a JSON body, or multipart files, or neither. */
  datatype Request<B> = Request(verb: String, url: String, body: Option<B>, files: Option<map<String, File>>)

  /** One form part of a multipart body: the file name it is sent under and the bytes copied into it. */
  datatype Part = Part(fileName: String, content: seq<int>)

  /** What `Do` writes into the request buffer. */
  datatype Payload = Empty | Json(bytes: seq<int>) | Multipart(parts: map<String, Part>)

  /**
   * The payload part of `Do`: a body and files together are refused (the Go code panics); a body
   * is marshalled, failing when marshalling fails; files become one form part per field, named by
   * the file's name and holding the file's bytes.
   */
  function Prepare<B>(r: Request<B>, marshal: B -> Result<seq<int>, String>): (p: Result<Payload, Error>)
    requires r.body.None? || r.files.None?
    ensures r.body.None? && r.files.None? ==> p == Ok(Empty)
    ensures r.body.Some? ==> (p.Ok? <==> marshal(r.body.value).Ok?)
    ensures r.body.Some? && p.Ok? ==> p.value == Json(marshal(r.body.value).value)
    ensures r.files.Some? ==> p.Ok? && p.value.Multipart? && p.value.parts.Keys == r.files.value.Keys
    ensures r.files.Some? ==> forall f :: f in r.files.value ==>
      p.value.parts[f].fileName == r.files.value[f].name && p.value.parts[f].content == r.files.value[f].data
  {
    if r.body.Some? then
      match marshal(r.body.value)
      case Ok(bytes) => Ok(Json(bytes))
      case Err(reason) => Err(Other("can't marshal body: " + reason))
    else if r.files.Some? then
      Ok(Multipart(map f | f in r.files.value :: Part(r.files.value[f].name, r.files.value[f].data)))
    else Ok(Empty)
  }

  /** The Content-Type header `Do` sets: the multipart form type for files, empty otherwise. */
  function ContentType(p: Payload, boundary: String): (ct: String)
    ensures p.Multipart? <==> ct != []
  {
    if p.Multipart? then "multipart/form-data; boundary=" + boundary else ""
  }
}
