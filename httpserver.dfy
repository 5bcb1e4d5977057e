/**
 * The hand-written HTTP layer (`internal/httpserver`): the error-to-status table of errors.go and
 * the status reported by the handler wrapper of helpers.go.
 */
module HttpServer {
  import opened Wrappers
  import opened Text
  import opened ServerErrors

  /** `httpError` forwards both its text and its cause to the error it wraps. */
  lemma HttpErrorForwards(code: int, status: String, e: Error)
    ensures Message(HttpError(code, status, e)) == Message(e)
    ensures Unwrappable(HttpError(code, status, e)) && Unwrap(HttpError(code, status, e)) == e
    ensures forall t :: Is(e, t) ==> Is(HttpError(code, status, e), t)
  {
  }

  /** The four not-found errors of the api and the media-required error, in the order they are tested. */
  const NotFounds: seq<(Error, String)> := [
    (BoardNotFound, "BOARD_NOT_FOUND"), (MediaNotFound, "MEDIA_NOT_FOUND"),
    (MemeNotFound, "MEME_NOT_FOUND"), (UserNotFound, "USER_NOT_FOUND"),
    (MediaIsRequired, "MEDIA_IS_REQUIRED")]

  /** The position of the first table entry the error `errors.Is`, as a `switch` tests its cases. */
  function FirstMatch(err: Error, table: seq<(Error, String)>): (r: Option<nat>)
    ensures r.Some? ==> (r.value < |table| && Is(err, table[r.value].0)
      && forall j :: 0 <= j < r.value ==> !Is(err, table[j].0))
    ensures r.None? ==> forall j :: 0 <= j < |table| ==> !Is(err, table[j].0)
  {
    if |table| == 0 then None
    else if Is(err, table[0].0) then Some(0)
    else
      match FirstMatch(err, table[1..])
      case None => None
      case Some(i) => Some(i + 1)
  }

  /**
   * `parseError`: the first of the not-found tests that holds gives 404 and its status; then an
   * `ErrInvalidInput` anywhere in the chain gives 400, replacing the error by that value; anything
   * else is a 500.
   */
  function ParseError(err: Error): (h: Error)
    ensures h.HttpError?
    ensures h.code == 404 <==> exists i :: 0 <= i < |NotFounds| && Is(err, NotFounds[i].0)
    ensures forall i :: (0 <= i < |NotFounds| && Is(err, NotFounds[i].0)
      && (forall j :: 0 <= j < i ==> !Is(err, NotFounds[j].0))
      ==> h == HttpError(404, NotFounds[i].1, err))
    ensures h.code == 400 ==> h.status == "INVALID_INPUT" && h.err.InvalidInput? && h.err in Chain(err)
    ensures h.code == 400 <==> FirstMatch(err, NotFounds).None? && AsInvalidInput(err).Some?
    ensures h.code == 400 ==> h.err == AsInvalidInput(err).value
    ensures h.code == 500 <==> h.status == "UNEXPECTED_ERROR"
    ensures h.code == 500 ==> h.err == err && forall k :: 0 <= k < |Chain(err)| ==> !Chain(err)[k].InvalidInput?
    ensures h.code in {404, 400, 500}
  {
    match FirstMatch(err, NotFounds)
    case Some(i) => HttpError(404, NotFounds[i].1, err)
    case None =>
      match AsInvalidInput(err)
      case Some(ii) => HttpError(400, "INVALID_INPUT", ii)
      case None => HttpError(500, "UNEXPECTED_ERROR", err)
  }

  /** Outside the 400 case the parsed error still answers `errors.Is` as the original did. */
  lemma ParseErrorKeepsIs(err: Error, target: Error)
    requires ParseError(err).code != 400 && Is(err, target)
    ensures Is(ParseError(err), target)
  {
  }

  /** A not-found deep in the chain is found by the first test. */
  lemma NotFoundWins()
    ensures ParseError(Wrapped("x", Wrapped("y", BoardNotFound))).status == "BOARD_NOT_FOUND"
  {
    var e := Wrapped("x", Wrapped("y", BoardNotFound));
    MatchInChainIs(e, BoardNotFound, 2);
    assert FirstMatch(e, NotFounds) == Some(0);
  }

  /** An invalid input under no not-found is reported as a 400 carrying that invalid input. */
  lemma InvalidInputBelowWrap(reason: String)
    ensures ParseError(Wrapped("x", InvalidInput(reason))) == HttpError(400, "INVALID_INPUT", InvalidInput(reason))
  {
    var ii := InvalidInput(reason);
    var e := Wrapped("x", ii);
    assert !Is(ii, BoardNotFound) && !Is(ii, MediaNotFound);
    assert !Is(ii, MemeNotFound) && !Is(ii, UserNotFound);
    assert !Is(ii, MediaIsRequired);
    assert FirstMatch(e, NotFounds) == None;
    assert AsInvalidInput(e) == Some(ii);
  }

  /**
   * What `UnwrapApiError` finds: walking the chain, the first value that has `Unwrap` and is an
   * `ApiError`; the walk gives up at the first value without `Unwrap`.
   */
  function FirstApiError(err: Error): (r: Option<Error>)
    ensures r.Some? ==> r.value in Chain(err) && IsApiError(r.value) && Unwrappable(r.value)
  {
    if !Unwrappable(err) then None
    else if IsApiError(err) then Some(err)
    else FirstApiError(Unwrap(err))
  }

  /** An `ApiError` that can be unwrapped is found exactly when the chain holds one. */
  lemma {:induction false} FirstApiErrorFindsAny(err: Error)
    ensures FirstApiError(err).Some?
      <==> exists k :: 0 <= k < |Chain(err)| && IsApiError(Chain(err)[k]) && Unwrappable(Chain(err)[k])
    decreases err
  {
    var c := Chain(err);
    if Unwrappable(err) {
      var rest := Chain(Unwrap(err));
      assert c == [err] + rest;
      FirstApiErrorFindsAny(Unwrap(err));
      if !IsApiError(err) && exists k :: 0 <= k < |c| && IsApiError(c[k]) && Unwrappable(c[k]) {
        var k :| 0 <= k < |c| && IsApiError(c[k]) && Unwrappable(c[k]);
        assert c[k] == rest[k - 1];
      }
      if FirstApiError(Unwrap(err)).Some? && !IsApiError(err) {
        var k :| 0 <= k < |rest| && IsApiError(rest[k]) && Unwrappable(rest[k]);
        assert c[k + 1] == rest[k];
      }
    } else {
      assert c == [err];
    }
  }

  /** An `ApiError` without `Unwrap` is never found, even first in the chain. */
  lemma BareApiErrorIsMissed(prefix: String, status: String)
    ensures FirstApiError(BareStatusError(status)) == None
    ensures FirstApiError(Wrapped(prefix, BareStatusError(status))) == None
  {
  }

  /** `UnwrapApiError`: the loop that reassigns `err` to its cause until one of the two exits. */
  method UnwrapApiError(err: Error) returns (r: Option<Error>)
    ensures r == FirstApiError(err)
  {
    var e := err;
    while true
      invariant FirstApiError(e) == FirstApiError(err)
      decreases e
    {
      if !Unwrappable(e) {
        return None;
      }
      if IsApiError(e) {
        return Some(e);
      }
      e := Unwrap(e);
    }
  }

  /** The JSON answer of a wrapped handler. */
  datatype Answer<T> = Answer(status: String, data: Option<T>, errData: Option<Error>)

  /** The status an `ApiError` reports. */
  function ApiStatus(e: Error): String
    requires IsApiError(e)
  {
    match e
    case StatusError(s, _) => s
    case BareStatusError(s) => s
  }

  /**
   * `handlerWrapper`: on success status "OK" with the data; on error the status of the first
   * `ApiError` found, or "UNEXPECTED_ERROR", with the error itself as error data.
   */
  method HandlerWrapper<T>(res: Result<T, Error>) returns (a: Answer<T>)
    ensures res.Ok? ==> a == Answer("OK", Some(res.value), None)
    ensures res.Err? ==> a.data.None? && a.errData == Some(res.error)
    ensures res.Err? && FirstApiError(res.error).Some? ==> a.status == ApiStatus(FirstApiError(res.error).value)
    ensures res.Err? && FirstApiError(res.error).None? ==> a.status == "UNEXPECTED_ERROR"
  {
    if res.Err? {
      var status := "UNEXPECTED_ERROR";
      var aerr := UnwrapApiError(res.error);
      if aerr.Some? {
        status := ApiStatus(aerr.value);
      }
      return Answer(status, None, Some(res.error));
    }
    a := Answer("OK", Some(res.value), None);
  }
}
