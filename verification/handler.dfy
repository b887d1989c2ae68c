/**
 * The request handler `catch_all` and the track selection `get_song_info`:
 * which of 400, 401, the offline badge, a 302 to the track, or the full badge
 * a request gets, and with which parameters. Query strings arrive as a map;
 * the streaming service's answers, the cover fetch, the colour extraction and
 * the random choices arrive as parameters.
 */
module Handler {
  import opened Wrappers
  import opened Text
  import opened Colour
  import opened Presentation
  import opened TokenCache

  /** The request's options, after the query string was read. */
  datatype Request = Request(
    uid: Option<string>,
    coverImage: bool,
    redirect: bool,
    theme: string,
    barColor: string,
    backgroundColor: string,
    barColorCover: bool,
    showOffline: bool,
    interchange: bool)

  /** `request.args.get(key, default=…)`. */
  function Arg(args: map<string, string>, key: string, default: string): string
  {
    if key in args then args[key] else default
  }

  /** Read the query string; a flag is on only when its text is exactly `true`. */
  function ParseRequest(args: map<string, string>): (req: Request)
    ensures req.uid.Some? <==> "uid" in args
    ensures req.uid.Some? ==> req.uid.value == args["uid"]
    ensures req.coverImage <==> "cover_image" !in args || args["cover_image"] == "true"
    ensures req.redirect <==> "redirect" in args && args["redirect"] == "true"
    ensures req.barColorCover <==> "bar_color_cover" in args && args["bar_color_cover"] == "true"
    ensures req.showOffline <==> "show_offline" in args && args["show_offline"] == "true"
    ensures req.interchange <==> "interchange" in args && args["interchange"] == "true"
    ensures "theme" !in args ==> req.theme == "default"
    ensures "bar_color" !in args ==> req.barColor == "53b14f"
    ensures "background_color" !in args ==> req.backgroundColor == "121212"
    ensures "theme" in args ==> req.theme == args["theme"]
    ensures "bar_color" in args ==> req.barColor == args["bar_color"]
    ensures "background_color" in args ==> req.backgroundColor == args["background_color"]
  {
    Request(
      if "uid" in args then Some(args["uid"]) else None,
      Arg(args, "cover_image", "true") == "true",
      Arg(args, "redirect", "false") == "true",
      Arg(args, "theme", "default"),
      Arg(args, "bar_color", "53b14f"),
      Arg(args, "background_color", "121212"),
      Arg(args, "bar_color_cover", "false") == "true",
      Arg(args, "show_offline", "false") == "true",
      Arg(args, "interchange", "false") == "true")
  }

  /** `not uid`: the parameter is absent or empty. */
  function MissingUid(uid: Option<string>): (missing: bool)
    ensures missing <==> uid.None? || |uid.value| == 0
  {
    uid.None? || uid.value == ""
  }

  /** A track or episode as the streaming service describes it (only the fields the handler reads). */
  datatype Item = Item(
    artists: seq<string>,           // names of `item["artists"]`, in order
    name: string,
    uri: string,
    playingType: Option<string>,    // `currently_playing_type`
    albumImages: seq<string>,       // URLs of `item["album"]["images"]`
    images: seq<string>)            // URLs of `item["images"]`

  /** The answer to the "now playing" query. */
  datatype NowPlayingReply =
    | FetchFailed                 // the query raised
    | NoData                      // an empty answer
    | Data(item: Option<Item>)    // an answer, whose `item` may be null

  /** `get_song_info`'s outcome: `InvalidTokenError`, or the pair `(item, is_now_playing)`. */
  datatype SongResult = InvalidToken | Song(item: Option<Item>, isNowPlaying: bool)

  /**
   * `get_song_info`, given the access token `get_access_token` produced. `recent` is the
   * recently-played list and `pick` the index `random.randint(0, len - 1)` drew.
   */
  function GetSongInfo(access: Option<string>, reply: NowPlayingReply, showOffline: bool,
                       recent: seq<Item>, pick: nat): (r: SongResult)
    requires |recent| > 0 ==> pick < |recent|
    ensures r.InvalidToken? <==> access.None?
    ensures r.Song? ==> (r.isNowPlaying <==> reply.Data?)
    ensures r.Song? && r.isNowPlaying ==> r.item == reply.item
    // A track that is not playing now comes from the recently-played list, at the drawn index.
    ensures r.Song? && !r.isNowPlaying && r.item.Some? ==>
      reply.NoData? && !showOffline && pick < |recent| && r.item.value == recent[pick]
    ensures access.Some? && reply.NoData? && !showOffline && |recent| > 0 ==> r == Song(Some(recent[pick]), false)
    // A failed query, the offline view, or an empty history: nothing to show.
    ensures access.Some? && (reply.FetchFailed? || (reply.NoData? && (showOffline || |recent| == 0))) ==>
      r == Song(None, false)
  {
    if access.None? then InvalidToken
    else match reply
      case FetchFailed => Song(None, false)
      case Data(item) => Song(item, true)
      case NoData =>
        if showOffline then Song(None, false)
        else if |recent| == 0 then Song(None, false)
        else Song(Some(recent[pick]), false)
  }

  /** Every recently played track can be the one shown: some draw selects it. */
  lemma EveryRecentTrackSelectable(access: string, showOffline: bool, recent: seq<Item>, k: nat)
    requires !showOffline && k < |recent|
    ensures exists pick: nat ::
      (pick < |recent| && GetSongInfo(Some(access), NoData, showOffline, recent, pick) == Song(Some(recent[k]), false))
  {
    assert GetSongInfo(Some(access), NoData, showOffline, recent, k) == Song(Some(recent[k]), false);
  }

  /** The second-largest artwork: the album's for a track, the item's own otherwise. */
  function CoverUrl(item: Item): (url: Option<string>)
    ensures item.playingType.GetOr("track") == "track" ==>
      (url.Some? <==> |item.albumImages| >= 2) && (url.Some? ==> url.value == item.albumImages[1])
    ensures item.playingType.GetOr("track") != "track" ==>
      (url.Some? <==> |item.images| >= 2) && (url.Some? ==> url.value == item.images[1])
  {
    var variants := if item.playingType.GetOr("track") == "track" then item.albumImages else item.images;
    if |variants| >= 2 then Some(variants[1]) else None
  }

  /** Exceptions that escape `catch_all` (the framework answers them with a server error). */
  datatype Fault =
    | TokenFault(crash: Crash)   // raised inside `get_access_token`
    | NoCoverVariant             // fewer than two artwork variants
    | NoArtist                   // an empty artist list

  /** The kinds of response `catch_all` produces. */
  datatype Response =
    | BadRequest
    | Unauthorized
    | Svg(params: SvgParams)
    | Redirect(uri: string)
    | ServerError(fault: Fault)

  const OfflineArtist: string := "Offline"
  const OfflineSong: string := "Currently not playing on Spotify"

  /** The badge shown when there is nothing to show: fixed text, no cover, the requested colours. */
  function OfflineSvg(req: Request, isNowPlaying: bool, anims: seq<int>): (p: SvgParams)
    requires |anims| >= MaxBars && DurationsInRange(anims)
    ensures p.artistName == OfflineArtist && p.songName == OfflineSong
    ensures !p.coverImage && p.img == []
    ensures p.barColor == req.barColor && p.backgroundColor == req.backgroundColor
    ensures !isNowPlaying ==> p.contentBar == ""
    // The cover is forced off, so the layout is the theme's no-cover one.
    ensures p.template == "spotify." + req.theme + ".html.j2"
    ensures Layout(p.height, p.numBar) == ThemeLayout(req.theme, false)
    ensures p.titleText == (if isNowPlaying then "Now playing" else if req.showOffline then "Not playing" else "Recently played")
    ensures isNowPlaying ==> p.contentBar == BarMarkup(p.numBar)
    ensures p.cssBar.None? <==> !isNowPlaying && req.showOffline
    ensures p.cssBar.Some? ==> p.cssBar.value == CssBar(p.numBar, anims)
  {
    MakeSvg(OfflineArtist, OfflineSong, [], isNowPlaying, false, req.theme, req.barColor,
            req.showOffline, req.backgroundColor, anims)
  }

  /**
   * The full badge for a resolved item: fetch the cover when asked, take the bar colour
   * from it when asked, escape `&` in the names and swap them when asked.
   */
  function FullSvg(req: Request, item: Item, isNowPlaying: bool, fetch: string -> seq<Byte>,
                   extract: seq<Byte> -> seq<Rgb>, anims: seq<int>): (r: Response)
    requires |anims| >= MaxBars && DurationsInRange(anims)
    ensures r.Svg? || r.ServerError?
    ensures r.ServerError? <==> (req.coverImage && CoverUrl(item).None?) || |item.artists| == 0
    ensures r.Svg? ==>
      var img := if req.coverImage then fetch(CoverUrl(item).value) else [];
      var artist := EscapeAmp(item.artists[0]);
      var song := EscapeAmp(item.name);
      && r.params.img == img
      && r.params.coverImage == req.coverImage
      && r.params.barColor == (if req.barColorCover && |img| > 0
                               then BarColorFromCover(extract(img), req.theme, req.barColor)
                               else req.barColor)
      && r.params.artistName == (if req.interchange then song else artist)
      && r.params.songName == (if req.interchange then artist else song)
      && r.params.titleText == (if isNowPlaying then "Now playing" else if req.showOffline then "Not playing" else "Recently played")
    // Everything else is what `make_svg` builds from the request's theme, colours and flags.
    ensures r.Svg? ==> r.params.backgroundColor == req.backgroundColor
    ensures r.Svg? ==> r.params == MakeSvg(r.params.artistName, r.params.songName, r.params.img, isNowPlaying,
                                           req.coverImage, req.theme, r.params.barColor, req.showOffline,
                                           req.backgroundColor, anims)
  {
    if req.coverImage && CoverUrl(item).None? then ServerError(NoCoverVariant)
    else
      var img := if req.coverImage then fetch(CoverUrl(item).value) else [];
      var barColor := if req.barColorCover && |img| > 0
                      then BarColorFromCover(extract(img), req.theme, req.barColor)
                      else req.barColor;
      if |item.artists| == 0 then ServerError(NoArtist)
      else
        var artist := EscapeAmp(item.artists[0]);
        var song := EscapeAmp(item.name);
        var (shownArtist, shownSong) := if req.interchange then (song, artist) else (artist, song);
        Svg(MakeSvg(shownArtist, shownSong, img, isNowPlaying, req.coverImage, req.theme, barColor,
                    req.showOffline, req.backgroundColor, anims))
  }

  /** The badge falls back to the offline view: offline requested and nothing playing, or no item. */
  function ShowsOffline(song: SongResult, showOffline: bool): (offline: bool)
    requires song.Song?
    ensures !offline ==> song.item.Some? && (song.isNowPlaying || !showOffline)
    ensures song.item.None? ==> offline
    ensures song.item.Some? && (song.isNowPlaying || !showOffline) ==> !offline
  {
    (showOffline && !song.isNowPlaying) || song.item.None?
  }

  /**
   * `catch_all` after the `uid` check, given what `get_access_token` produced: 401 on a
   * missing token, the offline badge (even when a redirect is asked for), then the
   * redirect to the track, then the full badge.
   */
  function Respond(req: Request, access: TokenResult, reply: NowPlayingReply, recent: seq<Item>, pick: nat,
                   fetch: string -> seq<Byte>, extract: seq<Byte> -> seq<Rgb>, anims: seq<int>): (r: Response)
    requires |recent| > 0 ==> pick < |recent|
    requires |anims| >= MaxBars && DurationsInRange(anims)
    ensures r != BadRequest
    ensures access.Crashed? ==> r == ServerError(TokenFault(access.crash))
    ensures r == Unauthorized <==> access == Token(None)
    ensures access.Token? && access.access.Some? ==>
      var song := GetSongInfo(access.access, reply, req.showOffline, recent, pick);
      && (ShowsOffline(song, req.showOffline) ==> r == Svg(OfflineSvg(req, song.isNowPlaying, anims)))
      && (!ShowsOffline(song, req.showOffline) && req.redirect ==> r == Redirect(song.item.value.uri))
      && (!ShowsOffline(song, req.showOffline) && !req.redirect ==>
            r == FullSvg(req, song.item.value, song.isNowPlaying, fetch, extract, anims))
    ensures r.Redirect? ==> req.redirect && exists item :: item in recent + (if reply.Data? && reply.item.Some? then [reply.item.value] else []) && r.uri == item.uri
  {
    match access
    case Crashed(crash) => ServerError(TokenFault(crash))
    case Token(token) =>
      var song := GetSongInfo(token, reply, req.showOffline, recent, pick);
      if song.InvalidToken? then Unauthorized
      else if ShowsOffline(song, req.showOffline) then Svg(OfflineSvg(req, song.isNowPlaying, anims))
      else if req.redirect then Redirect(song.item.value.uri)
      else FullSvg(req, song.item.value, song.isNowPlaying, fetch, extract, anims)
  }

  /**
   * When the now-playing answer carries no item, the offline badge is drawn with the
   * "Now playing" title and a full set of bars.
   */
  lemma OfflineBadgeWithBars(req: Request, access: string, item: Option<Item>, recent: seq<Item>, pick: nat,
                             fetch: string -> seq<Byte>, extract: seq<Byte> -> seq<Rgb>, anims: seq<int>)
    requires |recent| > 0 ==> pick < |recent|
    requires |anims| >= MaxBars && DurationsInRange(anims)
    requires item.None?
    ensures var r := Respond(req, Token(Some(access)), Data(item), recent, pick, fetch, extract, anims);
      r.Svg? && r.params.artistName == OfflineArtist && r.params.titleText == "Now playing" &&
      |r.params.contentBar| > 0
  {
    LayoutTable(req.theme, false);
  }

  /**
   * `catch_all`: 400 before any token lookup when `uid` is missing; otherwise the token
   * lookup (which may change the cache and the store) and then `Respond`.
   */
  method CatchAll(tm: TokenManager, args: map<string, string>, t1: int, t2: int, t3: int,
                  refresh: RefreshOutcome, reply: NowPlayingReply, recent: seq<Item>, pick: nat,
                  fetch: string -> seq<Byte>, extract: seq<Byte> -> seq<Rgb>, anims: seq<int>)
    returns (resp: Response, ghost access: Option<TokenResult>)
    requires t1 <= t2 <= t3
    requires |recent| > 0 ==> pick < |recent|
    requires |anims| >= MaxBars && DurationsInRange(anims)
    modifies tm`cache, tm`store, tm`trace
    ensures MissingUid(ParseRequest(args).uid) ==>
      resp == BadRequest && access.None? &&
      tm.cache == old(tm.cache) && tm.store == old(tm.store) && tm.trace == old(tm.trace)
    ensures !MissingUid(ParseRequest(args).uid) ==>
      access.Some? && resp == Respond(ParseRequest(args), access.value, reply, recent, pick, fetch, extract, anims)
    // Otherwise the token lookup for that uid ran, with its result, cache, store and trace.
    ensures !MissingUid(ParseRequest(args).uid) ==>
      access.Some? &&
      TokenStep(old(tm.cache), old(tm.store), old(tm.trace), ParseRequest(args).uid.value, t1, t2, t3, refresh,
                access.value, tm.cache, tm.store, tm.trace)
    ensures old(Coherent(tm.cache, tm.store)) ==> Coherent(tm.cache, tm.store)
  {
    var req := ParseRequest(args);
    if MissingUid(req.uid) {
      return BadRequest, None;
    }
    var token := tm.GetAccessToken(req.uid.value, t1, t2, t3, refresh);
    access := Some(token);
    resp := Respond(req, token, reply, recent, pick, fetch, extract, anims);
  }
}
