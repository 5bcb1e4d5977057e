/**
 * The bot's wrapper around the Telegram API (tg-client/internal/telegram/telegram.go): the
 * file-id cache of uploaded media, the media group built from file names, and the choice of the
 * file to download from a message. Calls to Telegram are parameters that may fail.
 */
module Telegram {
  import opened Wrappers
  import opened Text
  import opened BotErrors

  /** The parts of a Telegram message the bot looks at; each media field is a file id. */
  datatype Message = Message(
    text: String,
    photo: seq<String>,   // the sizes of a photo, smallest first
    video: Option<String>,
    document: Option<String>,
    audio: Option<String>,
    voice: Option<String>)

  /** An inline query: its id, the text typed after the bot's name, and the offset of the page asked for. */
  datatype InlineQuery = InlineQuery(id: String, query: String, offset: String)

  /** An update from Telegram: a message, an inline query, the sending user and the chat, each optional. */
  datatype Update = Update(message: Option<Message>, inlineQuery: Option<InlineQuery>,
                           sender: Option<int>, chat: Option<int>)

  /** A media file already known to Telegram, by its file id and its type ("video" or "photo"). */
  datatype CachedMedia = CachedMedia(id: String, mediaType: String)

  /** `path.Ext`: the suffix from the last '.' of the last path element, or "" without one. */
  function Ext(name: String): (e: String)
    ensures e == [] || (e[0] == '.' && |e| <= |name| && name[|name| - |e|..] == e)
    ensures '/' !in e && (e != [] ==> '.' !in e[1..])
    decreases |name|
  {
    if |name| == 0 || name[|name| - 1] == '/' then []
    else if name[|name| - 1] == '.' then ['.']
    else
      var rest := Ext(name[..|name| - 1]);
      if rest == [] then [] else rest + [name[|name| - 1]]
  }

  const PhotoExts: set<String> := {".png", ".jpg", ".jpeg"}

  /**
   * The cache entry an upload produces: a video for ".mp4", the last (largest) size of the photo
   * for ".png", ".jpg" and ".jpeg"; any other extension is an error and nothing is sent.
   */
  function Upload(ext: String, body: seq<int>,
                  sendVideo: seq<int> -> Result<String, String>,
                  sendPhoto: seq<int> -> Result<seq<String>, String>): (r: Result<CachedMedia, BotError>)
    requires sendPhoto(body).Ok? ==> |sendPhoto(body).value| > 0
    ensures ext == ".mp4" ==> (r.Ok? <==> sendVideo(body).Ok?)
    ensures ext == ".mp4" && r.Ok? ==> r.value == CachedMedia(sendVideo(body).value, "video")
    ensures ext in PhotoExts ==> (r.Ok? <==> sendPhoto(body).Ok?)
    ensures ext in PhotoExts && r.Ok? ==> r.value == CachedMedia(sendPhoto(body).value[|sendPhoto(body).value| - 1], "photo")
    ensures ext != ".mp4" && ext !in PhotoExts ==> r == Err(Opaque("unexpected file format " + ext))
    ensures r.Ok? ==> r.value.mediaType in {"video", "photo"}
  {
    if ext == ".mp4" then
      match sendVideo(body)
      case Err(reason) => Err(Wrapped("can't send message", Opaque(reason)))
      case Ok(id) => Ok(CachedMedia(id, "video"))
    else if ext in PhotoExts then
      match sendPhoto(body)
      case Err(reason) => Err(Wrapped("can't send message", Opaque(reason)))
      case Ok(sizes) => Ok(CachedMedia(sizes[|sizes| - 1], "photo"))
    else Err(Opaque("unexpected file format " + ext))
  }

  /** The kind of message an upload sends for an extension, if any. */
  function UploadKind(ext: String): (k: Option<String>)
    ensures k.Some? <==> ext == ".mp4" || ext in PhotoExts
  {
    if ext == ".mp4" then Some("video") else if ext in PhotoExts then Some("photo") else None
  }

  /** The bot, with its in-memory cache from media keys to uploaded files. */
  class Bot {
    var cache: map<String, CachedMedia>

    /** Every cached entry is a video or a photo. */
    predicate Valid()
      reads this
    {
      forall k :: k in cache ==> cache[k].mediaType in {"video", "photo"}
    }

    constructor()
      ensures cache == map[] && Valid()
    {
      cache := map[];
    }

    /**
     * `GetFileID`: a cached key answers from the cache with no upload; otherwise the body is
     * uploaded by extension and the entry is cached only when the upload succeeds.
     */
    method GetFileID(key: String, ext: String, body: seq<int>,
                     sendVideo: seq<int> -> Result<String, String>,
                     sendPhoto: seq<int> -> Result<seq<String>, String>)
      returns (res: Result<CachedMedia, BotError>, sent: Option<String>)
      requires Valid()
      requires sendPhoto(body).Ok? ==> |sendPhoto(body).value| > 0
      modifies this
      ensures Valid()
      ensures key in old(cache) ==> res == Ok(old(cache)[key]) && sent.None? && cache == old(cache)
      ensures key !in old(cache) ==>
        && res == Upload(ext, body, sendVideo, sendPhoto)
        && sent == UploadKind(ext)
        && cache == (if res.Ok? then old(cache)[key := res.value] else old(cache))
    {
      if key in cache {
        return Ok(cache[key]), None;
      }
      sent := UploadKind(ext);
      if ext == ".mp4" {
        var r := sendVideo(body);
        if r.Err? {
          return Err(Wrapped("can't send message", Opaque(r.error))), sent;
        }
        cache := cache[key := CachedMedia(r.value, "video")];
        return Ok(cache[key]), sent;
      } else if ext in PhotoExts {
        var r := sendPhoto(body);
        if r.Err? {
          return Err(Wrapped("can't send message", Opaque(r.error))), sent;
        }
        cache := cache[key := CachedMedia(r.value[|r.value| - 1], "photo")];
        return Ok(cache[key]), sent;
      } else {
        return Err(Opaque("unexpected file format " + ext)), sent;
      }
    }
  }

  /** A media file to send in a group. */
  datatype MediaGroupEntry = MediaGroupEntry(id: String, filename: String, caption: String, body: seq<int>)

  /** An element of a Telegram media group. */
  datatype InputMedia = InputPhoto(name: String, caption: String, bytes: seq<int>)
                      | InputVideo(name: String, caption: String, bytes: seq<int>)

  /** How one entry of `SendMediaGroup` is sent: ".jpg" and ".png" as photos, ".mp4" as a video. */
  function GroupItem(m: MediaGroupEntry): (r: Option<InputMedia>)
    ensures r.Some? <==> Ext(m.filename) in {".jpg", ".png", ".mp4"}
    ensures r.Some? ==> r.value.name == m.filename && r.value.caption == m.caption && r.value.bytes == m.body
    ensures r.Some? ==> (r.value.InputVideo? <==> Ext(m.filename) == ".mp4")
  {
    var ext := Ext(m.filename);
    if ext == ".jpg" || ext == ".png" then Some(InputPhoto(m.filename, m.caption, m.body))
    else if ext == ".mp4" then Some(InputVideo(m.filename, m.caption, m.body))
    else None
  }

  /** The media group of a list of entries: the sendable ones, in input order. */
  function Group(medias: seq<MediaGroupEntry>): (g: seq<InputMedia>)
    ensures |g| <= |medias|
  {
    if |medias| == 0 then []
    else
      var rest := Group(medias[1..]);
      match GroupItem(medias[0])
      case Some(item) => [item] + rest
      case None => rest
  }

  /** How many entries cannot be sent, each reported to the chat as an unexpected file format. */
  function Unsendable(medias: seq<MediaGroupEntry>): nat
  {
    if |medias| == 0 then 0
    else (if GroupItem(medias[0]).None? then 1 else 0) + Unsendable(medias[1..])
  }

  /** Every entry is either in the group or reported: none is lost and none is sent twice. */
  lemma {:induction false} GroupAccountsForAll(medias: seq<MediaGroupEntry>)
    ensures |Group(medias)| + Unsendable(medias) == |medias|
  {
    if |medias| > 0 {
      GroupAccountsForAll(medias[1..]);
    }
  }

  /** The group of a concatenation is the concatenation of the groups: input order is kept. */
  lemma {:induction false} GroupAppend(a: seq<MediaGroupEntry>, b: seq<MediaGroupEntry>)
    ensures Group(a + b) == Group(a) + Group(b)
    ensures Unsendable(a + b) == Unsendable(a) + Unsendable(b)
  {
    if |a| > 0 {
      assert (a + b)[0] == a[0];
      assert (a + b)[1..] == a[1..] + b;
      GroupAppend(a[1..], b);
    } else {
      assert a + b == b;
    }
  }

  /** One more entry adds its item to the group, or one to the count of reported entries. */
  lemma GroupSnoc(a: seq<MediaGroupEntry>, x: MediaGroupEntry)
    ensures Group(a + [x]) == Group(a) + (if GroupItem(x).Some? then [GroupItem(x).value] else [])
    ensures Unsendable(a + [x]) == Unsendable(a) + (if GroupItem(x).None? then 1 else 0)
  {
    GroupAppend(a, [x]);
    assert [x][1..] == [];
  }

  /** A file name ending in an extension without '.' or '/' after its dot has that extension. */
  lemma {:induction false} ExtOfSuffix(stem: String, ext: String)
    requires |ext| >= 1 && ext[0] == '.' && '.' !in ext[1..] && '/' !in ext
    ensures Ext(stem + ext) == ext
    decreases |ext|
  {
    var s := stem + ext;
    if |ext| == 1 {
      assert s[|s| - 1] == '.';
    } else {
      var init := ext[..|ext| - 1];
      assert s[..|s| - 1] == stem + init;
      assert init[1..] == ext[1..|ext| - 1];
      ExtOfSuffix(stem, init);
      assert s[|s| - 1] == ext[|ext| - 1] && ext[|ext| - 1] in ext[1..];
      assert ext == init + [ext[|ext| - 1]];
    }
  }

  /** A ".jpeg" file, which `GetFileID` uploads as a photo, is left out of a media group. */
  lemma JpegIsNotSent(stem: String, caption: String, body: seq<int>)
    ensures ".jpeg" in PhotoExts
    ensures Group([MediaGroupEntry("id", stem + ".jpeg", caption, body)]) == []
  {
    ExtOfSuffix(stem, ".jpeg");
  }

  /**
   * `SendMediaGroup`: each entry in turn is added to the group or reported to the chat; the
   * group is sent as one message.
   */
  method SendMediaGroup(medias: seq<MediaGroupEntry>) returns (group: seq<InputMedia>, reported: nat)
    ensures group == Group(medias) && reported == Unsendable(medias)
  {
    group := [];
    reported := 0;
    for i := 0 to |medias|
      invariant group == Group(medias[..i]) && reported == Unsendable(medias[..i])
    {
      var x := medias[i];
      assert medias[..i + 1] == medias[..i] + [x];
      GroupSnoc(medias[..i], x);
      var item := GroupItem(x);
      if item.Some? {
        group := group + [item.value];
      } else {
        reported := reported + 1;
      }
    }
    assert medias[..|medias|] == medias;
  }

  /** The file a message carries, in the order photo (its last size), video, document, audio, voice. */
  function SourceFileID(m: Message): (id: Option<String>)
    ensures |m.photo| > 0 ==> id == Some(m.photo[|m.photo| - 1])
    ensures |m.photo| == 0 && m.video.Some? ==> id == m.video
    ensures |m.photo| == 0 && m.video.None? && m.document.Some? ==> id == m.document
    ensures |m.photo| == 0 && m.video.None? && m.document.None? && m.audio.Some? ==> id == m.audio
    ensures |m.photo| == 0 && m.video.None? && m.document.None? && m.audio.None? ==> id == m.voice
  {
    if |m.photo| > 0 then Some(m.photo[|m.photo| - 1])
    else if m.video.Some? then m.video
    else if m.document.Some? then m.document
    else if m.audio.Some? then m.audio
    else m.voice
  }

  /** A message has a file to download exactly when it has some media. */
  lemma SourceFileIDPresent(m: Message)
    ensures SourceFileID(m).Some?
      <==> |m.photo| > 0 || m.video.Some? || m.document.Some? || m.audio.Some? || m.voice.Some?
  {
  }

  /** A path with its trailing slashes removed. */
  function TrimSlashes(p: String): (t: String)
    ensures |t| <= |p| && p[..|t|] == t && (t == [] || t[|t| - 1] != '/')
  {
    if |p| > 0 && p[|p| - 1] == '/' then TrimSlashes(p[..|p| - 1]) else p
  }

  /** `path.Base`: the last element of a slash-separated path. */
  function Base(p: String): (b: String)
    ensures b != [] && (b == "/" || '/' !in b)
  {
    if p == [] then "."
    else
      var t := TrimSlashes(p);
      if t == [] then "/"
      else
        var parts := Split(t, '/');
        if parts[|parts| - 1] == [] then "." else parts[|parts| - 1]
  }

  /**
   * `GetFileBytes`: the file name and the bytes of the message's file, read from the URL Telegram
   * gives for it; a message without media is an error.
   */
  function GetFileBytes(m: Message, fileURL: String -> Result<String, String>,
                        download: String -> Result<seq<int>, String>): (r: Result<(String, seq<int>), BotError>)
    ensures SourceFileID(m).None? ==> r == Err(Opaque("message does not contain a supported file type"))
    ensures r.Ok? ==> (
      && SourceFileID(m).Some?
      && fileURL(SourceFileID(m).value).Ok?
      && var url := fileURL(SourceFileID(m).value).value;
      download(url).Ok? && r.value == (Base(url), download(url).value))
    ensures SourceFileID(m).Some? && fileURL(SourceFileID(m).value).Err?
      ==> r == Err(Opaque(fileURL(SourceFileID(m).value).error))
    ensures SourceFileID(m).Some? && fileURL(SourceFileID(m).value).Ok?
      ==> var url := fileURL(SourceFileID(m).value).value;
      && (download(url).Err? ==> r == Err(Opaque(download(url).error)))
      && (download(url).Ok? ==> r == Ok((Base(url), download(url).value)))
  {
    match SourceFileID(m)
    case None => Err(Opaque("message does not contain a supported file type"))
    case Some(id) =>
      match fileURL(id)
      case Err(reason) => Err(Opaque(reason))
      case Ok(url) =>
        match download(url)
        case Err(reason) => Err(Opaque(reason))
        case Ok(bytes) => Ok((Base(url), bytes))
  }
}
