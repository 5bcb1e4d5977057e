/**
 * The chat bot's update loop body (tg-client/internal/statemachine/statemachine.go): one record
 * per user, created on first sight; one state per chat, replaced only when processing succeeds;
 * and inline queries answered after the chat's state has run.
 */
module StateMachine {
  import opened Wrappers
  import opened Text
  import opened BotErrors
  import opened Telegram
  import opened BotHelpers
  import opened MediaView
  import CentralState
  import Inline
  import ClientModels

  /** The record a user gets the first time the bot sees them. */
  const DefaultInfo := Info("default", "")

  /** The record a user has while an update of theirs is processed. */
  function InfoOf(userinfo: map<String, Info>, key: String): (i: Info)
    ensures key in userinfo ==> i == userinfo[key]
    ensures key !in userinfo ==> i == DefaultInfo
  {
    if key in userinfo then userinfo[key] else DefaultInfo
  }

  class Statemachine {
    var states: map<int, State>
    var userinfo: map<String, Info>

    /**
     * The media view chat `c` is in, if any: the one object processing an update in that chat may
     * change besides the tables. Every other chat's view is left as it was.
     */
    function ChatView(c: int): set<object>
      reads this
    {
      if c in states && states[c].MediaView? then {states[c].view} else {}
    }

    constructor()
      ensures states == map[] && userinfo == map[]
    {
      states := map[];
      userinfo := map[];
    }

    /**
     * `processUpdate`: an update without a sender changes nothing. Otherwise the sender's record is
     * created if missing and written back on every path. A chat without a state starts in the
     * central state; the state processes the update; on an error the chat keeps the state it had
     * and the error is reported, and nothing else runs; on success the chat moves to the state
     * returned, and an inline query is answered.
     */
    method ProcessUpdate(u: Update, requestID: String,
                         prepare: ClientModels.ScoredMeme -> Result<MediaGroupEntry, BotError>,
                         search: (int, int, String) -> Result<seq<ClientModels.ScoredMeme>, BotError>,
                         cached: String -> Result<CachedMedia, BotError>)
      returns (notice: Option<Notice>, answer: Option<Option<Inline.InlineAnswer>>)
      modifies this, if u.chat.Some? then ChatView(u.chat.value) else {}
      ensures u.sender.None? ==> states == old(states) && userinfo == old(userinfo) && notice.None? && answer.None?
      ensures u.sender.Some? ==>
        var key := Itoa(u.sender.value);
        userinfo == old(userinfo)[key := InfoOf(old(userinfo), key)]
      ensures u.sender.Some? && u.chat.None? ==> states == old(states) && notice.None?
      ensures u.sender.Some? && u.chat.Some? ==> ChatHandled(u.chat.value, old(states), states, u, requestID, prepare, notice)
      ensures forall d | d in old(states) && (u.chat.None? || d != u.chat.value) ::
        && d in states && states[d] == old(states)[d]
        && (states[d].MediaView? && (u.chat.None? || states[d].view !in old(ChatView(u.chat.value))) ==> unchanged(states[d].view))
      ensures answer.Some? ==> notice.None? && u.inlineQuery.Some? && answer.value == Inline.AnswerOf(u.inlineQuery.value, search, cached)
      ensures u.sender.Some? && notice.None? && u.inlineQuery.Some? ==> answer.Some?
    {
      if u.sender.None? {
        return None, None;
      }
      var key := Itoa(u.sender.value);
      if key !in userinfo {
        userinfo := userinfo[key := DefaultInfo];
      }
      var info := new UserInfo(userinfo[key]);
      notice, answer := None, None;
      if u.chat.Some? {
        notice := ProcessChat(u.chat.value, u, requestID, prepare);
        if notice.Some? {
          userinfo := userinfo[key := info.Value()];
          return;
        }
      }
      if u.inlineQuery.Some? {
        var a := Inline.ProcessInline(u.inlineQuery.value, search, cached);
        answer := Some(a);
      }
      userinfo := userinfo[key := info.Value()];
    }

    /**
     * The chat part of `processUpdate`, as `ChatHandled` states it: the chat's state, created central
     * when missing, processes the update and is replaced only on success.
     */
    method ProcessChat(c: int, u: Update, requestID: String,
                       prepare: ClientModels.ScoredMeme -> Result<MediaGroupEntry, BotError>)
      returns (notice: Option<Notice>)
      modifies this, ChatView(c)
      ensures userinfo == old(userinfo)
      ensures ChatHandled(c, old(states), states, u, requestID, prepare, notice)
      ensures forall d | d in old(states) && d != c ::
        && d in states && states[d] == old(states)[d]
        && (states[d].MediaView? && states[d].view !in old(ChatView(c)) ==> unchanged(states[d].view))
    {
      if c !in states {
        states := states[c := Central];
      }
      var st := states[c];
      assert st.MediaView? ==> st.view in old(ChatView(c));
      var next, err := Dispatch(st, u, prepare);
      if err.Some? {
        var n := SendError(err.value, requestID);
        return Some(n);
      }
      states := states[c := next];
      return None;
    }
  }

  /**
   * The outcome of an update in chat `c`, from its table of states `before` to `after`: a central
   * chat stays central with no error; a chat in a media view takes the view's step, keeps its state
   * and reports the error when the step fails, and moves on as the step says otherwise.
   */
  twostate predicate ChatHandled(c: int, before: map<int, State>, new after: map<int, State>, u: Update,
                                 requestID: String, prepare: ClientModels.ScoredMeme -> Result<MediaGroupEntry, BotError>,
                                 new notice: Option<Notice>)
    reads if c in before && before[c].MediaView? then {before[c].view} else {}
  {
    var st := if c in before then before[c] else Central;
    && (st.Central? ==> after == before[c := Central] && notice.None?)
    && (st.MediaView? ==>
          var s := ViewStep(old(st.view.page), old(st.view.skip), u, st.view.getMedias, prepare);
          && st.view.page == s.page && st.view.skip == s.skip
          && (s.err.Some? ==> after == before && notice == Some(NoticeOf(s.err.value, requestID)))
          && (s.err.None? ==> after == before[c := if s.next == Stay then st else Central] && notice.None?))
  }

  /** The `Process` of whichever state the chat is in. */
  method Dispatch(st: State, u: Update, prepare: ClientModels.ScoredMeme -> Result<MediaGroupEntry, BotError>)
    returns (next: State, err: Option<BotError>)
    modifies if st.MediaView? then {st.view} else {}
    ensures st.Central? ==> next == Central && err.None?
    ensures st.MediaView? ==>
      var s := ViewStep(old(st.view.page), old(st.view.skip), u, st.view.getMedias, prepare);
      && st.view.page == s.page && st.view.skip == s.skip && err == s.err
      && next == (if s.next == Stay then st else Central)
  {
    match st
    case Central =>
      var r := CentralState.Process(u);
      next, err := r.0, r.1;
    case MediaView(v) =>
      var said, group;
      next, err, said, group := v.Process(u, prepare);
  }
}
