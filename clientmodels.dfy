/**
 * The api client's error values (api-client/pkg/models/errors.go): sentinels with fixed texts and
 * the structured `ErrInvalidInput{Param, Reason}` with its own `Is` method.
 */
module ClientModels {
  import opened Text

  /** A meme as the client receives it. */
  datatype Meme = Meme(id: String, boardID: String, filename: String, descriptions: map<String, String>)

  /** A search hit: a meme and its score. */
  datatype ScoredMeme = ScoredMeme(meme: Meme, score: real)

  datatype Error =
    | BoardNotFound | SubNotFound | MediaNotFound | MediaIsRequired | MemeNotFound | UserNotFound
    | LoginExists | Unauthorized | Forbidden
    | InvalidInput(param: String, reason: String)
    // any other error, such as a decoding failure, by its text
    | Other(text: String)

  /** `Error()`. */
  function Message(e: Error): String
  {
    match e
    case BoardNotFound => "Board not found"
    case SubNotFound => "Sub not found"
    case MediaNotFound => "Media not found"
    case MediaIsRequired => "Media is required"
    case MemeNotFound => "Meme not found"
    case UserNotFound => "User not found"
    case LoginExists => "User with this login already exists"
    case Unauthorized => "Unauthorized"
    case Forbidden => "Forbidden"
    case InvalidInput(param, reason) => "invalid " + param + ": " + reason
    case Other(text) => text
  }

  /** The text of an invalid input starts with "invalid " and ends with the reason, after the parameter. */
  lemma InvalidInputMessage(param: String, reason: String)
    ensures var s := Message(InvalidInput(param, reason));
      && |s| == 10 + |param| + |reason|
      && s[..8] == "invalid " && s[8..8 + |param|] == param
      && s[8 + |param|..10 + |param|] == ": " && s[10 + |param|..] == reason
  {
  }

  /**
   * When parameter names hold no colon, the text of an invalid input determines both fields:
   * the first ": " after "invalid " ends the parameter.
   */
  lemma InvalidInputMessageInjective(p1: String, r1: String, p2: String, r2: String)
    requires ':' !in p1 && ':' !in p2
    requires Message(InvalidInput(p1, r1)) == Message(InvalidInput(p2, r2))
    ensures p1 == p2 && r1 == r2
  {
    InvalidInputMessage(p1, r1);
    InvalidInputMessage(p2, r2);
    if |p1| < |p2| {
      NoColonInParam(p2, r2, 8 + |p1|);
      assert false;
    } else if |p2| < |p1| {
      NoColonInParam(p1, r1, 8 + |p2|);
      assert false;
    }
  }

  /** Inside the parameter of a colon-free invalid input's text there is no colon. */
  lemma NoColonInParam(p: String, r: String, i: int)
    requires ':' !in p && 8 <= i < 8 + |p|
    ensures Message(InvalidInput(p, r))[i] != ':'
  {
    assert Message(InvalidInput(p, r))[i] == p[i - 8];
  }

  /** `ErrInvalidInput.Is`: the target is an invalid input and each of its non-empty fields is equal. */
  predicate InvalidInputIs(e: Error, target: Error)
    requires e.InvalidInput?
  {
    target.InvalidInput?
    && (target.reason == [] || target.reason == e.reason)
    && (target.param == [] || target.param == e.param)
  }

  /** `errors.Is` on an unwrapped client error: equality, or the value's own `Is` method. */
  predicate Is(e: Error, target: Error)
  {
    e == target || (e.InvalidInput? && InvalidInputIs(e, target))
  }

  /**
   * `Is` is reflexive, a target of another type never matches, the all-empty target matches every
   * invalid input, and a non-empty target field must equal the receiver's.
   */
  lemma InvalidInputIsProperties(e: Error, t: Error)
    requires e.InvalidInput?
    ensures InvalidInputIs(e, e)
    ensures InvalidInputIs(e, InvalidInput([], []))
    ensures !t.InvalidInput? ==> !InvalidInputIs(e, t)
    ensures InvalidInputIs(e, t) ==> (t.param == [] || t.param == e.param) && (t.reason == [] || t.reason == e.reason)
    ensures t.InvalidInput? && (t.param == [] || t.param == e.param) && (t.reason == [] || t.reason == e.reason)
      ==> InvalidInputIs(e, t)
  {
  }

  /** The wildcard target lets a caller test for "some invalid input" without knowing its fields. */
  lemma WildcardIsOnlyInvalidInput(e: Error)
    ensures Is(e, InvalidInput([], [])) <==> e.InvalidInput?
  {
  }
}
