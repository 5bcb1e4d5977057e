/**
 * The central state of the chat bot (tg-client/internal/statemachine/central_state.go): it sorts a
 * message into a search request, a new photo or a new video by the media it carries, and always
 * stays central.
 */
module CentralState {
  import opened Wrappers
  import opened Telegram
  import opened BotErrors
  import MediaView

  /** No media besides a photo: no video, audio, document or voice. */
  predicate NoOtherMedia(m: Message)
  {
    m.video.None? && m.audio.None? && m.document.None? && m.voice.None?
  }

  /** `isSearchRequest`: a message with text and no media at all. */
  predicate IsSearchRequest(u: Update)
  {
    u.message.Some? && |u.message.value.photo| == 0 && NoOtherMedia(u.message.value) && u.message.value.text != []
  }

  /** `isInlineSearchRequest`: never, whatever the update. */
  predicate IsInlineSearchRequest(u: Update)
  {
    false
  }

  /** `isAddPhoto`: a message with a photo and no other media, whatever its text. */
  predicate IsAddPhoto(u: Update)
  {
    u.message.Some? && |u.message.value.photo| > 0 && NoOtherMedia(u.message.value)
  }

  /** `isAddVideo`: a message with a video and no photo, audio, document or voice. */
  predicate IsAddVideo(u: Update)
  {
    && u.message.Some? && |u.message.value.photo| == 0 && u.message.value.video.Some?
    && u.message.value.audio.None? && u.message.value.document.None? && u.message.value.voice.None?
  }

  /**
   * At most one of the tests holds, so the order of the cases in `Process` does not matter; none
   * holds without a message, and the inline test never holds.
   */
  lemma ClassesExclusive(u: Update)
    ensures !(IsSearchRequest(u) && IsAddPhoto(u))
    ensures !(IsSearchRequest(u) && IsAddVideo(u))
    ensures !(IsAddPhoto(u) && IsAddVideo(u))
    ensures !IsInlineSearchRequest(u)
    ensures u.message.None? ==> !IsSearchRequest(u) && !IsAddPhoto(u) && !IsAddVideo(u)
  {
  }

  /** A message with media the bot does not take (audio, a document, a voice note) is none of the classes. */
  lemma UnsupportedMediaIsIgnored(u: Update)
    requires u.message.Some?
    requires u.message.value.audio.Some? || u.message.value.document.Some? || u.message.value.voice.Some?
    ensures !IsSearchRequest(u) && !IsAddPhoto(u) && !IsAddVideo(u)
  {
  }

  /** The handler `Process` runs. */
  datatype Action = Search | InlineSearch | AddPhoto | AddVideo | Nothing

  /**
   * `CentralState.Process`: run the handler of the first class that holds; the chat stays in the
   * central state and no error is returned.
   */
  function Process(u: Update): (r: (MediaView.State, Option<BotError>, Action))
    ensures r.0 == MediaView.Central && r.1.None?
    ensures r.2 == Search <==> IsSearchRequest(u)
    ensures r.2 == AddPhoto <==> IsAddPhoto(u)
    ensures r.2 == AddVideo <==> IsAddVideo(u)
    ensures r.2 != InlineSearch
  {
    var action :=
      if IsSearchRequest(u) then Search
      else if IsInlineSearchRequest(u) then InlineSearch
      else if IsAddPhoto(u) then AddPhoto
      else if IsAddVideo(u) then AddVideo
      else Nothing;
    (MediaView.Central, None, action)
  }
}
