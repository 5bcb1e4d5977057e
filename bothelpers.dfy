/**
 * The chat bot's command helpers (tg-client/internal/statemachine/helpers.go): unwrapping an
 * error for display, the choice between showing an error and reporting it as unexpected, the
 * board switch that rolls back on failure, login, and the numbered list of boards. Calls to the
 * api and to Telegram are parameters that may fail.
 */
module BotHelpers {
  import opened Wrappers
  import opened Text
  import opened BotErrors
  import ClientModels

  /** The per-user record the bot keeps: the active board and the api token. */
  datatype Info = Info(activeBoard: String, token: String)

  /** The user record as the handlers see it, through a pointer they may write. */
  class UserInfo {
    var activeBoard: String
    var token: String

    function Value(): Info
      reads this
    {
      Info(activeBoard, token)
    }

    constructor(i: Info)
      ensures Value() == i
    {
      activeBoard := i.activeBoard;
      token := i.token;
    }
  }

  /** The part of the api client whose state the helpers change: its token. */
  class ApiClient {
    var token: String

    constructor(t: String)
      ensures token == t
    {
      token := t;
    }
  }

  /** `unwrap`: follow `Unwrap` until a value without it. */
  method Unwrap(err: BotError) returns (r: BotError)
    ensures r == Innermost(err)
    ensures r in Chain(err) && !r.Wrapped?
  {
    r := err;
    while r.Wrapped?
      invariant Innermost(r) == Innermost(err)
      decreases r
    {
      r := r.cause;
    }
  }

  /** The errors `sendError` shows to the user, each tested with `errors.Is`. */
  const ExpectedTargets: seq<BotError> := [
    Client(ClientModels.BoardNotFound), Client(ClientModels.Forbidden), Client(ClientModels.LoginExists),
    Client(ClientModels.MediaIsRequired), Client(ClientModels.MediaNotFound), Client(ClientModels.MemeNotFound),
    Client(ClientModels.SubNotFound), Client(ClientModels.Unauthorized), Client(ClientModels.UserNotFound),
    BadCommandUsage, Client(ClientModels.InvalidInput([], []))]

  predicate Expected(err: BotError)
  {
    exists i :: 0 <= i < |ExpectedTargets| && Is(err, ExpectedTargets[i])
  }

  /** What `sendError` writes to the chat: the text of an error value, or an unexpected-error line. */
  datatype Notice = Shown(err: BotError) | Unexpected(text: String)

  /**
   * What `sendError` writes: an expected error is shown as its innermost value (without the
   * wrappers' prefixes); anything else is reported by the request id only.
   */
  function NoticeOf(err: BotError, requestID: String): (n: Notice)
  {
    if Expected(err) then Shown(Innermost(err)) else Unexpected("unexpected error: " + requestID)
  }

  /** `sendError`: classify, and unwrap an expected error for display. */
  method SendError(err: BotError, requestID: String) returns (n: Notice)
    ensures n == NoticeOf(err, requestID)
  {
    if Expected(err) {
      var inner := Unwrap(err);
      n := Shown(inner);
    } else {
      n := Unexpected("unexpected error: " + requestID);
    }
  }

  /**
   * What is shown for an expected error is itself one of the expected errors: a client sentinel,
   * an invalid input, or the bad-usage error, never a wrapper's text.
   */
  lemma ShownErrorIsExpected(err: BotError, requestID: String)
    requires Expected(err)
    ensures NoticeOf(err, requestID) == Shown(Innermost(err))
    ensures exists i :: 0 <= i < |ExpectedTargets| && Matches(Innermost(err), ExpectedTargets[i])
    ensures Innermost(err).Client? || Innermost(err) == BadCommandUsage
  {
    var i :| 0 <= i < |ExpectedTargets| && Is(err, ExpectedTargets[i]);
    MatchIsInnermost(err, ExpectedTargets[i]);
  }

  /** A client error under two wrappers is shown bare, whichever of the client's values it is. */
  lemma {:induction false} WrappedClientErrorIsShown(outer: String, inner: String, e: ClientModels.Error)
    requires !e.Other?
    ensures Expected(Wrapped(outer, Wrapped(inner, Client(e))))
    ensures Innermost(Wrapped(outer, Wrapped(inner, Client(e)))) == Client(e)
  {
    var i := TargetIndex(e);
    assert Matches(Client(e), ExpectedTargets[i]);
    assert Is(Wrapped(outer, Wrapped(inner, Client(e))), ExpectedTargets[i]);
  }

  /** Where a client value's own target sits among the expected errors. */
  function TargetIndex(e: ClientModels.Error): (i: nat)
    requires !e.Other?
    ensures i < |ExpectedTargets|
    ensures ExpectedTargets[i] == (if e.InvalidInput? then Client(ClientModels.InvalidInput([], [])) else Client(e))
  {
    match e
    case BoardNotFound => 0
    case Forbidden => 1
    case LoginExists => 2
    case MediaIsRequired => 3
    case MediaNotFound => 4
    case MemeNotFound => 5
    case SubNotFound => 6
    case Unauthorized => 7
    case UserNotFound => 8
    case InvalidInput(_, _) => 10
  }

  /** An error the client made up from a text (a transport or decoding failure) is never shown. */
  lemma OtherClientErrorIsUnexpected(outer: String, text: String)
    ensures !Expected(Wrapped(outer, Client(ClientModels.Other(text))))
  {
    var err := Wrapped(outer, Client(ClientModels.Other(text)));
    forall i | 0 <= i < |ExpectedTargets|
      ensures !Is(err, ExpectedTargets[i])
    {
      assert !Matches(Client(ClientModels.Other(text)), ExpectedTargets[i]);
    }
  }

  /** `doGetBoard`: read the active board and tell the chat its name and id. */
  function DoGetBoard(active: String, getBoard: String -> Result<(String, String), BotError>,
                      send: String -> Option<BotError>): (err: Option<BotError>)
    ensures getBoard(active).Err? ==> err == Some(Wrapped("can't get board by id", getBoard(active).error))
    ensures getBoard(active).Ok? ==>
      var b := getBoard(active).value;
      var text := "Active board is " + b.0 + " (<code>" + b.1 + "</code>)";
      err == if send(text).Some? then Some(Wrapped("can't send message", send(text).value)) else None
  {
    match getBoard(active)
    case Err(e) => Some(Wrapped("can't get board by id", e))
    case Ok(b) =>
      match send("Active board is " + b.0 + " (<code>" + b.1 + "</code>)")
      case Some(e) => Some(Wrapped("can't send message", e))
      case None => None
  }

  /**
   * `doSetBoard`: the new board becomes active for the check; when the check fails the previous
   * board is restored, so the user's record never points at a board the check rejected.
   */
  method DoSetBoard(info: UserInfo, id: String, getBoard: String -> Result<(String, String), BotError>,
                    send: String -> Option<BotError>) returns (err: Option<BotError>)
    modifies info
    ensures DoGetBoard(id, getBoard, send).None? ==> err.None? && info.Value() == old(info.Value()).(activeBoard := id)
    ensures DoGetBoard(id, getBoard, send).Some? ==>
      && err == Some(Wrapped("can't doGetBoard", DoGetBoard(id, getBoard, send).value))
      && info.Value() == old(info.Value())
  {
    var prev := info.activeBoard;
    info.activeBoard := id;
    var e := DoGetBoard(info.activeBoard, getBoard, send);
    if e.Some? {
      info.activeBoard := prev;
      return Some(Wrapped("can't doGetBoard", e.value));
    }
    return None;
  }

  /**
   * `doLogin`: a successful login stores the token in the user's record and in the client before
   * `whoami` runs with it; a failed login changes neither.
   */
  method DoLogin(info: UserInfo, client: ApiClient, login: String, password: String,
                 authLogin: (String, String) -> Result<String, BotError>,
                 whoami: String -> Option<BotError>) returns (err: Option<BotError>)
    modifies info, client
    ensures authLogin(login, password).Err? ==>
      && err == Some(Wrapped("can't login", authLogin(login, password).error))
      && info.Value() == old(info.Value()) && client.token == old(client.token)
    ensures authLogin(login, password).Ok? ==>
      var token := authLogin(login, password).value;
      && info.Value() == old(info.Value()).(token := token) && client.token == token
      && err == if whoami(token).Some? then Some(Wrapped("can't do whoami", whoami(token).value)) else None
  {
    var r := authLogin(login, password);
    if r.Err? {
      return Some(Wrapped("can't login", r.error));
    }
    info.token := r.value;
    client.token := r.value;
    var e := whoami(client.token);
    if e.Some? {
      return Some(Wrapped("can't do whoami", e.value));
    }
    return None;
  }

  /** A board as listed: its name and id. */
  datatype BoardRef = BoardRef(name: String, id: String)

  /** The line `doListBoards` writes for the board numbered `n`. */
  function BoardLine(n: int, b: BoardRef): String
  {
    Itoa(n) + ". " + b.name + " (<code>" + b.id + "</code>)\n"
  }

  /** The lines of the boards numbered from `first` on, in list order. */
  function Listing(boards: seq<BoardRef>, first: int): String
  {
    if |boards| == 0 then [] else BoardLine(first, boards[0]) + Listing(boards[1..], first + 1)
  }

  /** Adding a board at the end adds its line, numbered after the others. */
  lemma {:induction false} ListingSnoc(boards: seq<BoardRef>, b: BoardRef, first: int)
    ensures Listing(boards + [b], first) == Listing(boards, first) + BoardLine(first + |boards|, b)
  {
    if |boards| == 0 {
      assert Listing([b], first) == BoardLine(first, b) + Listing([], first + 1);
    } else {
      assert (boards + [b])[0] == boards[0];
      assert (boards + [b])[1..] == boards[1..] + [b];
      ListingSnoc(boards[1..], b, first + 1);
    }
  }

  /** In the listing, the board at position `i` is on the line numbered `i + 1`, after the lines of the boards before it. */
  lemma {:induction false} ListingNumbers(boards: seq<BoardRef>, i: int)
    requires 0 <= i < |boards|
    ensures Listing(boards, 1) == Listing(boards[..i], 1) + BoardLine(i + 1, boards[i]) + Listing(boards[i + 1..], i + 2)
  {
    ListingSplit(boards[..i], boards[i..], 1);
    assert boards[..i] + boards[i..] == boards;
    assert boards[i..][0] == boards[i] && boards[i..][1..] == boards[i + 1..];
  }

  /** The listing of a concatenation is the concatenation of the listings, the second numbered on. */
  lemma {:induction false} ListingSplit(a: seq<BoardRef>, b: seq<BoardRef>, first: int)
    ensures Listing(a + b, first) == Listing(a, first) + Listing(b, first + |a|)
  {
    if |a| == 0 {
      assert a + b == b;
    } else {
      assert (a + b)[0] == a[0];
      assert (a + b)[1..] == a[1..] + b;
      ListingSplit(a[1..], b, first + 1);
    }
  }

  /** The message text of `doListBoards`, built line by line. */
  method ListingText(boards: seq<BoardRef>) returns (msg: String)
    ensures msg == Listing(boards, 1)
  {
    msg := [];
    for i := 0 to |boards|
      invariant msg == Listing(boards[..i], 1)
    {
      ListingSnoc(boards[..i], boards[i], 1);
      assert boards[..i + 1] == boards[..i] + [boards[i]];
      msg := msg + BoardLine(i + 1, boards[i]);
    }
    assert boards[..|boards|] == boards;
  }

  /** `doListBoards`: the first hundred boards sorted by id, sent as one numbered message. */
  method DoListBoards(listBoards: (int, int, String) -> Result<seq<BoardRef>, BotError>,
                      send: String -> Option<BotError>) returns (err: Option<BotError>, sent: Option<String>)
    ensures listBoards(0, 100, "id").Err? ==>
      err == Some(Wrapped("can't list boards", listBoards(0, 100, "id").error)) && sent.None?
    ensures listBoards(0, 100, "id").Ok? ==>
      && sent == Some(Listing(listBoards(0, 100, "id").value, 1))
      && err == if send(sent.value).Some? then Some(Wrapped("can't send message", send(sent.value).value)) else None
  {
    var r := listBoards(0, 100, "id");
    if r.Err? {
      return Some(Wrapped("can't list boards", r.error)), None;
    }
    var msg := ListingText(r.value);
    sent := Some(msg);
    var e := send(msg);
    if e.Some? {
      return Some(Wrapped("can't send message", e.value)), sent;
    }
    return None, sent;
  }
}
