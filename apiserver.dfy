/**
 * The generated-interface HTTP server (`internal/apiserver`): request parameter checks and
 * defaults (validations.go), the conversions between storage models and JSON bodies (helper.go),
 * the handlers' own checks (server.go) and the error-to-response table (errors.go).
 */
module ApiServer {
  import opened Wrappers
  import opened Text
  import opened Models
  import opened ServerErrors
  import Api
  import PublicApi

  newtype Byte = b: int | 0 <= b < 256

  /** A decoded JSON value, as found in a `map[string]any` request field. */
  datatype Any = AnyString(str: String) | AnyNumber(num: int) | AnyBool(flag: bool) | AnyNull

  /** `invalidInput(param, message)`: an `*InvalidParamFormatError` for `param`. */
  function InvalidInputFor(param: String, message: String): (e: Error)
    ensures e.InvalidParamFormat? && e.param == param
    ensures AsInvalidParam(e) == Some(e)
  {
    InvalidParamFormat(param, message)
  }

  // ---- helper.go ----

  /** Every value of the map is a JSON string. */
  predicate AllStrings(m: map<String, Any>)
  {
    forall k :: k in m ==> m[k].AnyString?
  }

  /** What `convertMapToString` computes: the strings themselves, or "unexpected type". */
  function StringsOf(m: map<String, Any>): (r: Result<map<String, String>, Error>)
    ensures r.Ok? <==> AllStrings(m)
    ensures r.Ok? ==> r.value.Keys == m.Keys && forall k :: k in m ==> m[k] == AnyString(r.value[k])
    ensures r.Err? ==> r.error == Plain("unexpected type")
  {
    if AllStrings(m) then Ok(map k | k in m :: m[k].str) else Err(Plain("unexpected type"))
  }

  /** What `convertMapToAny` computes: every value as a JSON string. */
  function AnyOf(m: map<String, String>): (r: map<String, Any>)
    ensures r.Keys == m.Keys
    ensures forall k :: k in m ==> r[k] == AnyString(m[k])
  {
    map k | k in m :: AnyString(m[k])
  }

  /** Strings survive the trip through `map[string]any` and back. */
  lemma StringsOfAnyOf(m: map<String, String>)
    ensures StringsOf(AnyOf(m)) == Ok(m)
  {
    assert AllStrings(AnyOf(m));
    var r := StringsOf(AnyOf(m));
    assert r.value.Keys == m.Keys;
    forall k | k in m
      ensures r.value[k] == m[k]
    {
      assert AnyOf(m)[k] == AnyString(r.value[k]);
    }
    assert r.value == m;
  }

  /** A map that converts to strings is the image of those strings. */
  lemma AnyOfStringsOf(m: map<String, Any>)
    requires StringsOf(m).Ok?
    ensures AnyOf(StringsOf(m).value) == m
  {
  }

  /** `convertMapToString`: copies the values, failing at the first one that is not a string. */
  method ConvertMapToString(m: map<String, Any>) returns (r: Result<map<String, String>, Error>)
    ensures r == StringsOf(m)
  {
    var dsc: map<String, String> := map[];
    var todo := m.Keys;
    while todo != {}
      invariant todo <= m.Keys
      invariant dsc.Keys == m.Keys - todo
      invariant forall k :: k in dsc ==> m[k] == AnyString(dsc[k])
      decreases |todo|
    {
      var k :| k in todo;
      if !m[k].AnyString? {
        return Err(Plain("unexpected type"));
      }
      dsc := dsc[k := m[k].str];
      todo := todo - {k};
    }
    assert AllStrings(m);
    assert dsc == StringsOf(m).value;
    r := Ok(dsc);
  }

  /** `convertMapToAny`: copies every string as a JSON value. */
  method ConvertMapToAny(m: map<String, String>) returns (r: map<String, Any>)
    ensures r == AnyOf(m)
  {
    r := map[];
    var todo := m.Keys;
    while todo != {}
      invariant todo <= m.Keys
      invariant r.Keys == m.Keys - todo
      invariant forall k :: k in r ==> r[k] == AnyString(m[k])
      decreases |todo|
    {
      var k :| k in todo;
      r := r[k := AnyString(m[k])];
      todo := todo - {k};
    }
  }

  /** The JSON `Board` of the generated interface. */
  datatype ServerBoard = ServerBoard(id: String, owner: String, name: String)

  /** The JSON `Meme` of the generated interface. */
  datatype ServerMeme = ServerMeme(id: String, boardId: String, filename: String,
                                   description: map<String, Any>, createdAt: Timestamp, updatedAt: Timestamp)

  /** `convertBoardToServer`: a field-by-field copy, which loses nothing. */
  function ConvertBoardToServer(b: Board): (r: ServerBoard)
    ensures Board(r.id, r.owner, r.name) == b
  {
    ServerBoard(b.id, b.owner, b.name)
  }

  /** `convertBoardListToServer`: fills a slice of the same length, position by position. */
  method ConvertBoardListToServer(ms: seq<Board>) returns (r: seq<ServerBoard>)
    ensures |r| == |ms|
    ensures forall i :: 0 <= i < |ms| ==> r[i] == ConvertBoardToServer(ms[i])
  {
    var res := new ServerBoard[|ms|];
    var i := 0;
    while i < |ms|
      invariant 0 <= i <= |ms|
      invariant forall j :: 0 <= j < i ==> res[j] == ConvertBoardToServer(ms[j])
    {
      res[i] := ConvertBoardToServer(ms[i]);
      i := i + 1;
    }
    r := res[..];
  }

  /** `convertMemeToServer`: ids, filename and times verbatim, descriptions as JSON strings. */
  method ConvertMemeToServer(m: Meme) returns (r: ServerMeme)
    ensures r.id == m.id && r.boardId == m.boardId && r.filename == m.filename
    ensures r.createdAt == m.createdAt && r.updatedAt == m.updatedAt
    ensures StringsOf(r.description) == Ok(m.description)
  {
    var dsc := ConvertMapToAny(m.description);
    StringsOfAnyOf(m.description);
    r := ServerMeme(m.id, m.boardId, m.filename, dsc, m.createdAt, m.updatedAt);
  }

  // ---- validations.go ----

  const DefaultPageSize: int := 20
  const DefaultPage: int := 1
  const DefaultSortBy: String := "id"
  const AllowedSortBy: seq<String> := ["id", "createdAt", "updatedAt"]

  /** `fmt.Errorf("sortBy must be one of %v", AllowedSortBy)`. */
  const SortByMessage: String := "sortBy must be one of [id createdAt updatedAt]"

  datatype Paging = Paging(page: int, pageSize: int, sortBy: String)

  function OrElse<T>(o: Option<T>, default: T): T
  {
    if o.Some? then o.value else default
  }

  /** The page, page size and sort order are all usable. */
  predicate ValidPaging(p: Paging)
  {
    1 <= p.page && 1 <= p.pageSize <= 100 && p.sortBy in AllowedSortBy
  }

  /**
   * The paging part of the `GetParams` of ListMemes and SearchByBoardID: defaults for missing
   * values, then the checks in the order page, pageSize, sortBy.
   */
  function PagingParams(page: Option<int>, pageSize: Option<int>, sortBy: Option<String>): (r: Result<Paging, Error>)
    ensures var p := Paging(OrElse(page, DefaultPage), OrElse(pageSize, DefaultPageSize), OrElse(sortBy, DefaultSortBy));
      && (r.Ok? <==> ValidPaging(p))
      && (r.Ok? ==> r.value == p)
      && (p.page < 1 ==> r == Err(InvalidInputFor("page", "must be page>=1")))
      && (1 <= p.page && !(1 <= p.pageSize <= 100) ==> r == Err(InvalidInputFor("pageSize", "must be 1 <= pageSize <= 100")))
      && (1 <= p.page && 1 <= p.pageSize <= 100 && p.sortBy !in AllowedSortBy ==> r == Err(InvalidInputFor("sortBy", SortByMessage)))
  {
    var p := if page.Some? then page.value else DefaultPage;
    if p < 1 then Err(InvalidParamFormat("page", "must be page>=1"))
    else
      var ps := if pageSize.Some? then pageSize.value else DefaultPageSize;
      if ps < 1 || ps > 100 then Err(InvalidParamFormat("pageSize", "must be 1 <= pageSize <= 100"))
      else
        var s := if sortBy.Some? then sortBy.value else DefaultSortBy;
        if s !in AllowedSortBy then Err(InvalidParamFormat("sortBy", SortByMessage))
        else Ok(Paging(p, ps, s))
  }

  /** With no parameters at all, listing uses page 1 of 20, ordered by id. */
  lemma DefaultListing()
    ensures PagingParams(None, None, None) == Ok(Paging(1, 20, "id"))
  {
  }

  /** `ListMemesRequestObject.GetParams`. */
  function ListMemesParams(page: Option<int>, pageSize: Option<int>, sortBy: Option<String>): (r: Result<Paging, Error>)
    ensures r == PagingParams(page, pageSize, sortBy)
    ensures r.Ok? ==> ValidPaging(r.value)
    ensures r.Err? ==> r.error.InvalidParamFormat? && r.error.param in {"page", "pageSize", "sortBy"}
  {
    PagingParams(page, pageSize, sortBy)
  }

  /** `getDescriptionMap`: the search request holds "general" exactly when it was given. */
  function DescriptionMap(general: Option<String>): (m: map<String, String>)
    ensures "general" in m <==> general.Some?
    ensures m.Keys <= {"general"}
    ensures general.Some? ==> m["general"] == general.value
  {
    if general.Some? then map["general" := general.value] else map[]
  }

  datatype SearchParams = SearchParams(board: BoardID, paging: Paging, request: map<String, String>)

  /** `SearchByBoardIDRequestObject.GetParams`: the board id is not checked. */
  function SearchByBoardIDParams(id: BoardID, page: Option<int>, pageSize: Option<int>, sortBy: Option<String>,
                                 general: Option<String>): (r: Result<SearchParams, Error>)
    ensures r.Ok? <==> PagingParams(page, pageSize, sortBy).Ok?
    ensures r.Ok? ==> (r.value.board == id && ValidPaging(r.value.paging)
      && r.value.request == DescriptionMap(general))
    ensures r.Err? ==> r.error == PagingParams(page, pageSize, sortBy).error
  {
    match PagingParams(page, pageSize, sortBy)
    case Err(e) => Err(e)
    case Ok(p) => Ok(SearchParams(id, p, DescriptionMap(general)))
  }

  /** The body of a PostMeme request. */
  datatype PostBody = PostBody(boardId: BoardID, filename: String, description: map<String, Any>)

  /** `PostMemeRequestObject.GetParams`: the board id is not checked. */
  method PostMemeParams(body: Option<PostBody>) returns (r: Result<(BoardID, String, map<String, String>), Error>)
    ensures body.None? ==> r == Err(InvalidInputFor("body", "not empty body is expected"))
    ensures r.Ok? <==> body.Some? && AllStrings(body.value.description)
    ensures body.Some? && !AllStrings(body.value.description)
      ==> r == Err(InvalidInputFor("description", "description must be map[string]string"))
    ensures r.Ok? ==> r.value == (body.value.boardId, body.value.filename, StringsOf(body.value.description).value)
  {
    if body.None? {
      return Err(InvalidParamFormat("body", "not empty body is expected"));
    }
    var dsc := ConvertMapToString(body.value.description);
    if dsc.Err? {
      return Err(InvalidParamFormat("description", "description must be map[string]string"));
    }
    r := Ok((body.value.boardId, body.value.filename, dsc.value));
  }

  /** The body of an UpdateMemeByID request: every field optional. */
  datatype UpdateBody = UpdateBody(boardId: Option<BoardID>, filename: Option<String>,
                                   description: Option<map<String, Any>>)

  datatype UpdateParams = UpdateParams(id: MemeID, description: Option<map<String, String>>,
                                       filename: Option<String>, board: Option<BoardID>)

  /**
   * `UpdateMemeByIDRequestObject.GetParams`: a nil body is refused before the meme is looked up
   * through the public api; a lookup error that is a meme not-found becomes the server's own
   * not-found; the descriptions must all be strings; the new board is not checked.
   */
  method UpdateMemeParams(st: Api.Store, ctx: Ctx, id: MemeID, body: Option<UpdateBody>)
    returns (r: Result<UpdateParams, Error>)
    ensures body.None? ==> r == Err(InvalidInputFor("body", "not empty body is expected"))
    ensures body.Some? && PublicApi.GetMeme(st, ctx, id).Err? ==> r == Err(
      if Is(PublicApi.GetMeme(st, ctx, id).error, MemeNotFound) then ServerMemeNotFound
      else Wrapped("can't get meme", PublicApi.GetMeme(st, ctx, id).error))
    ensures r.Ok? <==> (body.Some? && PublicApi.GetMeme(st, ctx, id).Ok?
      && (body.value.description.Some? ==> AllStrings(body.value.description.value)))
    ensures r.Ok? ==> r.value == UpdateParams(id,
      if body.value.description.Some? then Some(StringsOf(body.value.description.value).value) else None,
      body.value.filename, body.value.boardId)
  {
    if body.None? {
      return Err(InvalidParamFormat("body", "not empty body is expected"));
    }
    var u := body.value;
    var meme := PublicApi.GetMeme(st, ctx, id);
    if meme.Err? {
      if Is(meme.error, MemeNotFound) {
        return Err(ServerMemeNotFound);
      }
      return Err(Wrapped("can't get meme", meme.error));
    }
    var dsc: Option<map<String, String>> := None;
    if u.description.Some? {
      var dscs := ConvertMapToString(u.description.value);
      if dscs.Err? {
        return Err(InvalidParamFormat("description", "description must be map[string]string"));
      }
      dsc := Some(dscs.value);
    }
    r := Ok(UpdateParams(id, dsc, u.filename, u.boardId));
  }

  /** Asking to update a meme that is not stored answers the server's meme not-found. */
  lemma UpdateOfMissingMemeIsNotFound(st: Api.Store, ctx: Ctx, id: MemeID)
    requires !Api.Anonymous(ctx) && !st.offline && id !in st.memes
    ensures Is(PublicApi.GetMeme(st, ctx, id).error, MemeNotFound)
  {
  }

  // ---- server.go ----

  /** A successful ListMemes answer: the page echoed, no items, an unknown total. */
  datatype MemePage = MemePage(items: seq<ServerMeme>, page: int, pageSize: int, total: int)

  /** `ServerImpl.ListMemes`: its own defaults (page 1 of 10) and a single pagination error. */
  function ListMemes(page: Option<int>, pageSize: Option<int>): (r: Result<MemePage, Error>)
    ensures var p := OrElse(page, 1);
      var ps := OrElse(pageSize, 10);
      && (r == Err(InvalidPagination) <==> p < 1 || ps < 1 || ps > 100)
      && (r.Ok? ==> r.value == MemePage([], p, ps, -1))
  {
    var p := if page.Some? then page.value else 1;
    var ps := if pageSize.Some? then pageSize.value else 10;
    if p < 1 || ps < 1 || ps > 100 then Err(InvalidPagination) else Ok(MemePage([], p, ps, -1))
  }

  /** The media response kinds of GetMediaByID, each with the body and its length. */
  datatype MediaKind = Jpeg | Jpg | Png | Mp4 | OctetStream
  datatype MediaResponse = MediaResponse(kind: MediaKind, body: seq<Byte>, contentLength: int)

  /** The outcome of a handler: a response or an error. */
  datatype Handled<T> = Done(response: T) | Failed(error: Error)

  /** The response kind of a sniffed content type. */
  function KindOf(mime: String): (k: MediaKind)
    ensures k == OctetStream <==> mime !in {"image/jpeg", "image/jpg", "image/png", "video/mp4"}
  {
    if mime == "image/jpeg" then Jpeg
    else if mime == "image/jpg" then Jpg
    else if mime == "image/png" then Png
    else if mime == "video/mp4" then Mp4
    else OctetStream
  }

  /**
   * `ServerImpl.GetMediaByID`, given the public api's answer `media` and the content sniffer
   * `detect` (`http.DetectContentType`). The sniffer sees `Body[:512]`: the stored body read by
   * `io.ReadAll` has room for at least 512 zeroed bytes, so a shorter body is sniffed with zeros after it.
   */
  function GetMediaByID(media: Result<seq<Byte>, Error>, detect: seq<Byte> -> String): (r: Handled<MediaResponse>)
    ensures r.Done? <==> media.Ok?
    ensures media.Err? ==> r == Failed(if Is(media.error, MediaNotFound) then ServerMediaNotFound
                                       else Wrapped("can't get media", media.error))
    ensures media.Ok? ==> (
      && r.response.body == media.value && r.response.contentLength == |media.value|
      && r.response.kind == KindOf(detect(SniffBuffer(media.value))))
    ensures media.Ok? && |media.value| >= 512 ==> r.response.kind == KindOf(detect(media.value[..512]))
  {
    match media
    case Err(e) => Failed(if Is(e, MediaNotFound) then ServerMediaNotFound else Wrapped("can't get media", e))
    case Ok(body) => Done(MediaResponse(KindOf(detect(SniffBuffer(body))), body, |body|))
  }

  /** The body of this revision's PostMeme request: the description and the filename may be absent. */
  datatype NewMemeBody = NewMemeBody(boardId: BoardID, description: Option<map<String, Any>>, filename: Option<String>)

  /** The descriptions a PostMeme body gives: none when absent, otherwise its values as strings. */
  function Descriptions(b: NewMemeBody): map<String, String>
    requires b.description.Some? ==> AllStrings(b.description.value)
  {
    if b.description.Some? then StringsOf(b.description.value).value else map[]
  }

  /**
   * `ServerImpl.PostMeme`: a nil body and a non-string description value are refused before the
   * meme (board, descriptions, filename) is handed to `create`, the service's insert.
   */
  method PostMeme(body: Option<NewMemeBody>, create: (BoardID, String, map<String, String>) -> Result<MemeID, Error>)
    returns (r: Result<MemeID, Error>)
    ensures body.None? ==> r == Err(InvalidInputFor("body", "empty body"))
    ensures body.Some? && body.value.description.Some? && !AllStrings(body.value.description.value)
      ==> r == Err(InvalidInputFor("description", "description must be map[string]string"))
    ensures r.Ok? <==> (body.Some? && (body.value.description.Some? ==> AllStrings(body.value.description.value))
      && create(body.value.boardId, OrElse(body.value.filename, ""), Descriptions(body.value)).Ok?)
    ensures r.Ok? ==> r.value == create(body.value.boardId, OrElse(body.value.filename, ""), Descriptions(body.value)).value
    ensures body.Some? && (body.value.description.Some? ==> AllStrings(body.value.description.value))
      && create(body.value.boardId, OrElse(body.value.filename, ""), Descriptions(body.value)).Err?
      ==> r == Err(Wrapped("can't create meme",
                           create(body.value.boardId, OrElse(body.value.filename, ""), Descriptions(body.value)).error))
  {
    if body.None? {
      return Err(InvalidParamFormat("body", "empty body"));
    }
    var dscs: map<String, String> := map[];
    if body.value.description.Some? {
      var conv := ConvertMapToString(body.value.description.value);
      if conv.Err? {
        return Err(InvalidParamFormat("description", "description must be map[string]string"));
      }
      dscs := conv.value;
    }
    var filename := if body.value.filename.Some? then body.value.filename.value else "";
    var id := create(body.value.boardId, filename, dscs);
    if id.Err? {
      return Err(Wrapped("can't create meme", id.error));
    }
    r := Ok(id.value);
  }

  /** Form reading limits of PutMediaByID. */
  const MaxFormSize: int := 18 * 1024 * 1024
  const MaxFileSize: int := 16 * 1024 * 1024
  const AllowedTypes: set<String> := {"image/jpeg", "image/png", "video/mp4"}

  /** The multipart form as read: too large, otherwise failed, or its files by field name. */
  datatype Form = FormTooLarge | FormFailed(error: Error) | Form(files: map<String, seq<seq<Byte>>>)

  /** The 512 bytes a sniffer sees of `content` held in a zeroed 512-byte buffer: its first bytes, then zeros. */
  function SniffBuffer(content: seq<Byte>): (buf: seq<Byte>)
    ensures |buf| == 512
    ensures forall i :: 0 <= i < 512 ==> buf[i] == (if i < |content| then content[i] else 0)
  {
    if |content| >= 512 then content[..512] else content + seq(512 - |content|, _ => 0)
  }

  /**
   * The checks of `ServerImpl.PutMediaByID` before the media is stored: the form, the first "media"
   * file, its size, a readable first block (an empty file fails its read with `io.EOF`) and
   * the sniffed type. On success the file's content is what gets stored.
   */
  function PutMediaCheck(form: Form, detect: seq<Byte> -> String): (r: Result<seq<Byte>, Error>)
    ensures form.FormTooLarge? ==> r == Err(TooLarge)
    ensures form.Form? && ("media" !in form.files || |form.files["media"]| == 0)
      ==> r == Err(InvalidInputFor("form data", "no file provided"))
    ensures r.Ok? <==> (form.Form? && "media" in form.files && |form.files["media"]| > 0
      && 0 < |form.files["media"][0]| <= MaxFileSize
      && detect(SniffBuffer(form.files["media"][0])) in AllowedTypes)
    ensures r.Ok? ==> r.value == form.files["media"][0]
    ensures form.Form? && "media" in form.files && |form.files["media"]| > 0
      && |form.files["media"][0]| > MaxFileSize
      ==> r == Err(InvalidInputFor("form file", "file size exceed maximum size"))
    ensures form.FormFailed? ==> r == Err(Wrapped("can't read form", form.error))
    ensures form.Form? && "media" in form.files && |form.files["media"]| > 0 && |form.files["media"][0]| == 0
      ==> r == Err(Wrapped("can't read buffer prefix", Plain("EOF")))
    ensures form.Form? && "media" in form.files && |form.files["media"]| > 0
      && 0 < |form.files["media"][0]| <= MaxFileSize
      && detect(SniffBuffer(form.files["media"][0])) !in AllowedTypes
      ==> r == Err(UnsupportedMediaType)
  {
    match form
    case FormTooLarge => Err(TooLarge)
    case FormFailed(e) => Err(Wrapped("can't read form", e))
    case Form(files) =>
      if "media" !in files || |files["media"]| == 0 then
        Err(InvalidParamFormat("form data", "no file provided"))
      else
        var file := files["media"][0];
        if |file| > MaxFileSize then Err(InvalidParamFormat("form file", "file size exceed maximum size"))
        else if |file| == 0 then Err(Wrapped("can't read buffer prefix", Plain("EOF")))
        else if detect(SniffBuffer(file)) !in AllowedTypes then Err(UnsupportedMediaType)
        else Ok(file)
  }

  /**
   * `ServerImpl.PutMediaByID`: the checks, then the public api's `SetMedia` (`set`), whose
   * error is wrapped.
   */
  function PutMediaByID(id: MediaID, form: Form, detect: seq<Byte> -> String,
                        setMedia: (MediaID, seq<Byte>) -> Option<Error>): (r: Option<Error>)
    ensures r == None <==> PutMediaCheck(form, detect).Ok? && setMedia(id, PutMediaCheck(form, detect).value).None?
    ensures PutMediaCheck(form, detect).Err? ==> r == Some(PutMediaCheck(form, detect).error)
    ensures PutMediaCheck(form, detect).Ok? && setMedia(id, PutMediaCheck(form, detect).value).Some?
      ==> r == Some(Wrapped("can't set media", setMedia(id, PutMediaCheck(form, detect).value).value))
  {
    match PutMediaCheck(form, detect)
    case Err(e) => Some(e)
    case Ok(data) =>
      match setMedia(id, data)
      case Some(e) => Some(Wrapped("can't set media", e))
      case None => None
  }

  // ---- errors.go ----

  /** What `ErrorHandler` writes: a status code and, unless 500, a JSON `Error` body. */
  datatype Reply = Reply(status: int, body: Option<Error>)

  /** The error is one of the api's not-found errors, at any depth. */
  predicate NotFound(err: Error)
  {
    Is(err, MediaNotFound) || Is(err, MemeNotFound) || Is(err, UserNotFound) || Is(err, BoardNotFound)
  }

  /**
   * `ErrorHandler`: a not-found anywhere in the chain is a 404 whose Id is the error's text; else
   * the first `*InvalidParamFormatError` of the chain is a 400 "INVALID_REQUEST" whose body maps
   * the parameter to its message; anything else is a bare 500.
   */
  function ErrorHandler(err: Error): (r: Reply)
    ensures r.status == 404 <==> NotFound(err)
    ensures NotFound(err) ==> r.body == Some(ServerError(Message(err), [], None))
    ensures r.status == 400 <==> !NotFound(err) && exists k :: 0 <= k < |Chain(err)| && Chain(err)[k].InvalidParamFormat?
    ensures r.status == 400 ==> r.body == Some(ServerError("INVALID_REQUEST", [],
      Some(map[AsInvalidParam(err).value.param := AsInvalidParam(err).value.message])))
    ensures r.status == 500 ==> r.body == None
    ensures r.status in {400, 404, 500}
  {
    if NotFound(err) then Reply(404, Some(ServerError(Message(err), [], None)))
    else
      match AsInvalidParam(err)
      case Some(p) => Reply(400, Some(ServerError("INVALID_REQUEST", [], Some(map[p.param := p.message]))))
      case None => Reply(500, None)
  }

  /**
   * A not-found and an `*InvalidParamFormatError` never share a chain: both end it (every
   * `InvalidParamFormatError` is built around an error made without `%w`). So the order of the two
   * cases in `ErrorHandler` never decides an answer.
   */
  lemma {:induction false} NotFoundExcludesInvalidParam(err: Error)
    requires NotFound(err)
    ensures AsInvalidParam(err).None?
    ensures ErrorHandler(err).status == 404
    decreases err
  {
    if Unwrappable(err) {
      var c := Unwrap(err);
      assert !Matches(err, MediaNotFound) && !Matches(err, MemeNotFound);
      assert !Matches(err, UserNotFound) && !Matches(err, BoardNotFound);
      NotFoundExcludesInvalidParam(c);
    }
  }

  /** A not-found under an ApiError and a wrap is a 404. */
  lemma DeepNotFoundIs404(prefix: String)
    ensures ErrorHandler(Wrapped(prefix, StatusError("MEME_NOT_FOUND", Wrapped("", MemeNotFound)))).status == 404
  {
    var e := Wrapped(prefix, StatusError("MEME_NOT_FOUND", Wrapped("", MemeNotFound)));
    MatchInChainIs(e, MemeNotFound, 3);
    assert NotFound(e);
  }

  /** A wrapped invalid parameter is a 400. */
  lemma WrappedInvalidParamIs400(prefix: String, param: String, message: String)
    ensures ErrorHandler(Wrapped(prefix, InvalidParamFormat(param, message))).status == 400
  {
    var inner := InvalidParamFormat(param, message);
    var p := Wrapped(prefix, inner);
    assert !Is(inner, MediaNotFound) && !Is(inner, MemeNotFound) && !Is(inner, UserNotFound) && !Is(inner, BoardNotFound);
    assert !NotFound(p);
    assert AsInvalidParam(p) == Some(inner);
  }
}
