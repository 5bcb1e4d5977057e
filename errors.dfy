/**
 * The api-server's error values and the parts of Go's `errors` package they are inspected with:
 * `Unwrap` chains, `errors.Is` (equality or the value's own `Is` method, at any depth) and
 * `errors.As` (the first value of a given type along the chain).
 */
module ServerErrors {
  import opened Wrappers
  import opened Text

  datatype Error =
    // `api` sentinels (internal/api/errors.go) and the api's `ErrUnauthorized`
    | UserNotFound | BoardNotFound | MediaNotFound | MemeNotFound | InvalidToken | Forbidden | Unauthorized
    // storage sentinels (internal/models)
    | StoreUserNotFound | StoreBoardNotFound | StoreMediaNotFound | StoreMemeNotFound | StoreLoginExists
    // `api.ErrInvalid{Param, Reason}`: a request names something that does not exist
    | Invalid(param: String, reason: String)
    // httpserver: the media-required sentinel, `ErrInvalidInput{Reason}` and `httpError{RespCode, Status, err}`
    | MediaIsRequired
    | InvalidInput(reason: String)
    | HttpError(code: int, status: String, err: Error)
    // apiserver: `*InvalidParamFormatError{ParamName, Err}`, its own sentinels, and the JSON `Error` body
    | InvalidParamFormat(param: String, message: String)
    | InvalidPagination | TooLarge | UnsupportedMediaType | ServerMemeNotFound | ServerMediaNotFound
    | ServerError(id: String, message: String, body: Option<map<String, String>>)
    // an `api.ApiError` (it reports a status); the first wraps a cause, the second does not
    | StatusError(status: String, cause: Error)
    | BareStatusError(status: String)
    // `fmt.Errorf(prefix + ": %w", cause)` and any other error without a cause
    | Wrapped(prefix: String, cause: Error)
    | Plain(text: String)

  /** The values that have an `Unwrap() error` method. */
  predicate Unwrappable(e: Error)
  {
    e.HttpError? || e.StatusError? || e.Wrapped?
  }

  function Unwrap(e: Error): (c: Error)
    requires Unwrappable(e)
    ensures c < e
  {
    match e
    case HttpError(_, _, inner) => inner
    case StatusError(_, cause) => cause
    case Wrapped(_, cause) => cause
  }

  /** The values that implement `api.ApiError`. */
  predicate IsApiError(e: Error)
  {
    e.StatusError? || e.BareStatusError?
  }

  /** `e`, `Unwrap(e)`, `Unwrap(Unwrap(e))`, ... up to the first value without `Unwrap`. */
  function Chain(e: Error): (c: seq<Error>)
    ensures |c| >= 1 && c[0] == e
    ensures !Unwrappable(c[|c| - 1])
  {
    if Unwrappable(e) then [e] + Chain(Unwrap(e)) else [e]
  }

  /** `ErrInvalidInput.Is` (httpserver/errors.go): the target's Reason is empty or equal. */
  predicate InvalidInputIs(e: Error, target: Error)
    requires e.InvalidInput?
  {
    target.InvalidInput? && (target.reason == [] || target.reason == e.reason)
  }

  /**
   * `Error.Is` (apiserver/errors.go): every non-empty field of the target must match, and a
   * non-nil target body needs an equal body.
   */
  predicate ServerErrorIs(e: Error, target: Error)
    requires e.ServerError?
  {
    target.ServerError?
    && (target.id == [] || target.id == e.id)
    && (target.message == [] || target.message == e.message)
    && (target.body.None? || (e.body.Some? && e.body == target.body))
  }

  /** One step of `errors.Is`: the value equals the target or its own `Is` method accepts it. */
  predicate Matches(e: Error, target: Error)
  {
    e == target
    || (e.InvalidInput? && InvalidInputIs(e, target))
    || (e.ServerError? && ServerErrorIs(e, target))
  }

  /** `errors.Is(e, target)`. */
  predicate Is(e: Error, target: Error)
  {
    Matches(e, target) || (Unwrappable(e) && Is(Unwrap(e), target))
  }

  /** A match anywhere along the chain makes `errors.Is` hold. */
  lemma {:induction false} MatchInChainIs(e: Error, target: Error, k: nat)
    requires k < |Chain(e)| && Matches(Chain(e)[k], target)
    ensures Is(e, target)
    decreases k
  {
    if k > 0 {
      var rest := Chain(Unwrap(e));
      assert Chain(e) == [e] + rest;
      assert Chain(e)[k] == rest[k - 1];
      MatchInChainIs(Unwrap(e), target, k - 1);
    }
  }

  /** When `errors.Is` holds, some value of the chain matches: the answer is the first one. */
  lemma {:induction false} IsMatchInChain(e: Error, target: Error) returns (k: nat)
    requires Is(e, target)
    ensures k < |Chain(e)| && Matches(Chain(e)[k], target)
    ensures forall j :: 0 <= j < k ==> !Matches(Chain(e)[j], target)
  {
    if Matches(e, target) {
      k := 0;
    } else {
      var c, rest := Chain(e), Chain(Unwrap(e));
      assert c == [e] + rest;
      var k' := IsMatchInChain(Unwrap(e), target);
      k := k' + 1;
      assert c[k] == rest[k'];
      forall j | 0 < j < k
        ensures !Matches(c[j], target)
      {
        assert c[j] == rest[j - 1];
      }
    }
  }

  /** Wrapping with `fmt.Errorf("...: %w", e)` keeps every `errors.Is` answer. */
  lemma WrapKeepsIs(prefix: String, e: Error, target: Error)
    ensures Is(Wrapped(prefix, e), target) <== Is(e, target)
    ensures !e.Wrapped? && target != Wrapped(prefix, e) ==> (Is(Wrapped(prefix, e), target) <==> Is(e, target))
  {
  }

  /** `errors.As(e, &x)` for `x` of type `ErrInvalidInput`: the first such value of the chain. */
  function AsInvalidInput(e: Error): (r: Option<Error>)
    ensures r.Some? ==> r.value.InvalidInput? && r.value in Chain(e)
    ensures r.None? ==> forall k :: 0 <= k < |Chain(e)| ==> !Chain(e)[k].InvalidInput?
  {
    if e.InvalidInput? then Some(e)
    else if Unwrappable(e) then AsInvalidInput(Unwrap(e))
    else None
  }

  /** What `errors.As` finds is the first `ErrInvalidInput` of the chain. */
  lemma {:induction false} AsInvalidInputIsFirst(e: Error) returns (k: nat)
    requires AsInvalidInput(e).Some?
    ensures k < |Chain(e)| && Chain(e)[k] == AsInvalidInput(e).value
    ensures forall j :: 0 <= j < k ==> !Chain(e)[j].InvalidInput?
  {
    if e.InvalidInput? {
      k := 0;
    } else {
      var c, rest := Chain(e), Chain(Unwrap(e));
      assert c == [e] + rest;
      var k' := AsInvalidInputIsFirst(Unwrap(e));
      k := k' + 1;
      assert c[k] == rest[k'];
      forall j | 0 < j < k
        ensures !c[j].InvalidInput?
      {
        assert c[j] == rest[j - 1];
      }
    }
  }

  /** `errors.As(e, &p)` for `p` of type `*InvalidParamFormatError`. */
  function AsInvalidParam(e: Error): (r: Option<Error>)
    ensures r.Some? ==> r.value.InvalidParamFormat? && r.value in Chain(e)
    ensures r.None? ==> forall k :: 0 <= k < |Chain(e)| ==> !Chain(e)[k].InvalidParamFormat?
  {
    if e.InvalidParamFormat? then Some(e)
    else if Unwrappable(e) then AsInvalidParam(Unwrap(e))
    else None
  }

  /**
   * `err.Error()`. Wrapping prepends "prefix: ", an `httpError` delegates to the error it wraps
   * and the apiserver `Error` shows its Message. The texts of values declared outside the modelled
   * files (ErrUnauthorized, ErrInvalid, the ApiError implementations, the apiserver sentinels,
   * the media-required sentinel) are stand-ins.
   */
  function Message(e: Error): String
  {
    match e
    case UserNotFound => "USER_NOT_FOUND"
    case BoardNotFound => "BOARD_NOT_FOUND"
    case MediaNotFound => "MEDIA_NOT_FOUND"
    case MemeNotFound => "MEME_NOT_FOUND"
    case InvalidToken => "INVALID_TOKEN"
    case Forbidden => "FORBIDDEN"
    case Unauthorized => "UNAUTHORIZED"
    case StoreUserNotFound => "User not found"
    case StoreBoardNotFound => "Board not found"
    case StoreMediaNotFound => "Media not found"
    case StoreMemeNotFound => "Meme not found"
    case StoreLoginExists => "User with this login already exists"
    case Invalid(param, reason) => "invalid " + param + ": " + reason
    case MediaIsRequired => "MEDIA_IS_REQUIRED"
    case InvalidInput(reason) => "invalid input: " + reason
    case HttpError(_, _, inner) => Message(inner)
    case InvalidParamFormat(param, msg) => "Invalid format for parameter " + param + ": " + msg
    case InvalidPagination => "INVALID_PAGINATION"
    case TooLarge => "TOO_LARGE"
    case UnsupportedMediaType => "UNSUPPORTED_MEDIA_TYPE"
    case ServerMemeNotFound => "MEME_NOT_FOUND"
    case ServerMediaNotFound => "MEDIA_NOT_FOUND"
    case ServerError(_, message, _) => message
    case StatusError(status, _) => status
    case BareStatusError(status) => status
    case Wrapped(prefix, cause) => prefix + ": " + Message(cause)
    case Plain(text) => text
  }

  /** `ErrInvalidInput.Is` is reflexive, and a target with an empty Reason matches every invalid input. */
  lemma InvalidInputIsWildcard(e: Error)
    requires e.InvalidInput?
    ensures InvalidInputIs(e, e) && InvalidInputIs(e, InvalidInput([]))
    ensures forall t: Error :: !t.InvalidInput? ==> !InvalidInputIs(e, t)
  {
  }

  /**
   * `Error.Is` is reflexive, is false for a target of another type, and a target with empty Id,
   * empty Message and nil Body matches every `Error`.
   */
  lemma ServerErrorIsWildcard(e: Error)
    requires e.ServerError?
    ensures ServerErrorIs(e, e)
    ensures ServerErrorIs(e, ServerError([], [], None))
    ensures forall t: Error :: !t.ServerError? ==> !ServerErrorIs(e, t)
  {
  }

  /** Each non-empty field of the target must equal the receiver's: a differing non-empty Id never matches. */
  lemma ServerErrorIsFieldwise(e: Error, t: Error)
    requires e.ServerError? && t.ServerError?
    ensures ServerErrorIs(e, t) ==> (t.id == [] || t.id == e.id) && (t.message == [] || t.message == e.message)
    ensures ServerErrorIs(e, t) && t.body.Some? ==> e.body == t.body
    ensures (t.id == [] || t.id == e.id) && (t.message == [] || t.message == e.message) && t.body.None?
      ==> ServerErrorIs(e, t)
  {
  }
}
