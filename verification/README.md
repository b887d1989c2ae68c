# Spotify profile badge: token cache and request decisions, modelled in Dafny

The badge service answers one HTTP endpoint with an SVG showing what a user is
playing (or played recently) on a music-streaming service. Everything it decides
lives in `api/view.py`:

- **Token cache and refresh** (`TokenCache`): the process-wide `CACHE_TOKEN_INFO`
  dictionary in front of the persisted `users` documents, and `get_access_token`,
  which serves a fresh cached token, loads a document on a miss, refreshes a stale
  token through the streaming service, and deletes everything on `invalid_grant`.
  It is a class `TokenManager` with the maps `cache` and `store` and an effect
  `trace` (store reads, updates, deletes, refresh calls, cache writes and deletes).
  The three clock readings of `get_access_token` are the parameters `t1 <= t2 <= t3`,
  and the refresh answer is a parameter (`Revoked` or `Granted(token, expiresIn)`).
- **Text and colour** (`Text`, `Colour`): decimal numbers in the bar CSS, the
  `&` → `&amp;` substitution, the brightness test `isLightOrDark` (exact, with
  reals in place of the float square root), `%02x%02x%02x` colours and the loop
  that picks the bar colour from the cover's extracted colours.
- **Presentation** (`Presentation`): the `generate_css_bar` loop, the bar markup,
  the theme layout table and the parameter record `make_svg` gives the template.
- **Request handling** (`Handler`): query-string parsing, `get_song_info`'s choice
  of track, and `catch_all`'s outcome: 400, 401, the offline badge, a 302 redirect
  to the track, or the full badge.

Randomness (`random.randint`), the network (the now-playing and recently-played
answers, the cover bytes, the token endpoint) and the colour extraction are
inputs: `pick`, `anims`, `reply`, `recent`, `fetch`, `extract`, `refresh`.

## Behaviour worth knowing

These follow from the code as written, and the model keeps them.

- A cached record that is fresh at the first clock reading (`api/view.py:134`) and
  stale at the second (`api/view.py:165`) goes down the refresh path although it
  came from the cache. If the record came from an earlier refresh, it has no
  refresh token, and `token_info["refresh_token"]` raises (`Crashed(MissingRefreshToken)`).
  Otherwise the refresh call is made. A granted refresh then fails at `doc_ref.update`
  (`api/view.py:190`), because `doc_ref` is only bound on the store-load path
  (`api/view.py:155`), so the result is `Crashed(UnboundDocRef)` and nothing is stored
  or cached. A revoked refresh rebinds `doc_ref` (`api/view.py:178`) and deletes as usual.
- A failed now-playing query makes `get_song_info` return `(None, False)`
  (`api/view.py:205-209`), so the offline badge is drawn; the recently-played list
  is not consulted in that case.
- A now-playing answer whose `item` is null gives `(None, True)` (`api/view.py:211-213`).
  The offline badge is then drawn with the title "Now playing" and a full set of bars,
  because `make_svg` is called with `is_now_playing` true (`api/view.py:252-267`;
  `Handler.OfflineBadgeWithBars`).

## Model

| member | source | states |
|---|---|---|
| `TokenCache.CachedToken` | api/view.py:130-138 | absent exactly when the uid has no entry, the entry has no expiry, or now >= expiry; otherwise the cached record itself; being a function it cannot change the cache |
| `TokenCache.TokenManager.constructor` | api/view.py:26-27 | the process starts with an empty cache in front of the persisted documents, and the two agree |
| `TokenCache.TokenManager.DeleteCacheTokenInfo` | api/view.py:141-144 | the uid's entry is gone, every other entry is kept, and a delete is recorded only when there was an entry |
| `TokenCache.RefreshedFields` | api/view.py:185-189 | the record written after a refresh holds the new access token and no refresh token, and is unexpired exactly before the refresh time plus `expires_in` |
| `TokenCache.ApplyUpdate` | api/view.py:186-190 | `doc_ref.update` replaces the access token and expiry and keeps the stored refresh token |
| `TokenCache.TokenStepKeepsCoherent` | api/view.py:147-196 | every path of `get_access_token` (`TokenStep`: fresh hit, miss without document, load, revoked or granted refresh, stale-hit crashes) leaves each cached record agreeing with the stored document on access token and expiry (and on refresh token when the cached record has one), and cached only where a document exists |
| `TokenCache.TokenManager.GetAccessToken` | api/view.py:147-196 | its new cache, store, trace and result satisfy `TokenStep` against the old state: a fresh cache hit returns its token with no store read, refresh call or cache write; a miss with no document returns None after one store read and leaves the cache alone; a loaded document is cached as loaded; invalid_grant deletes the uid's document and cache entry, returns None and keeps all other uids; a granted refresh stores exactly {access_token, expired_ts = t3 + expires_in} (refresh token kept in the store), then caches that same two-field record, and returns the new token; the stale-cache-hit paths crash as described above; cache/store coherence is preserved |
| `TokenCache.RevokedThenNoData` | api/view.py:176-183 | a stale document with a refresh token, refreshed with invalid_grant, then asked for again: both calls yield None, the document and cache entry are gone, and the trace grows by exactly store read, cache write of the document, refresh call, store delete, cache delete, store read |
| `TokenCache.RefreshThenQuietHit` | api/view.py:185-196 | a stale document refreshed with a grant, then asked for again before the new expiry: both calls return the new token, and the trace grows by exactly store read, cache write of the document, refresh call, store update with the two refreshed fields, cache write of those fields, and nothing for the second call |
| `Text.Decimal` | api/view.py:38-40 | numbers are written as a non-empty run of digits without leading zeros |
| `Text.DecimalRoundTrip` | api/view.py:38-40 | the digits written for n denote n |
| `Text.DecimalInjective` | api/view.py:38-40 | distinct numbers are written differently |
| `Text.EscapeAmp` | api/view.py:292-293 | escaping never shortens a name and leaves a name without `&` unchanged |
| `Text.EscapeRoundTrip` | api/view.py:292-293 | the original name is recovered from the escaped one, so nothing but `&` is rewritten |
| `Text.EscapedAmpersandsAreEntities` | api/view.py:292-293 | every `&` in an escaped name starts `&amp;` |
| `Text.EscapeLength` | api/view.py:292-293 | the escaped name is four characters longer per `&` |
| `Colour.LightOrDark` | api/view.py:60-66 | light always for a negative threshold; otherwise light exactly when 299r²+587g²+114b² > 1000·threshold², i.e. the brightness square root exceeds the threshold |
| `Colour.LightAtCoverThreshold` | api/view.py:60-66 | at threshold 80, light iff 299r²+587g²+114b² > 6 400 000 |
| `Colour.LightAtDefaultThreshold` | api/view.py:60-66 | at the default threshold 127.5, light iff 299r²+587g²+114b² > 16 256 250 |
| `Colour.WhiteIsLightBlackIsDark` | api/view.py:60-66 | (255,255,255) is light and (0,0,0) is dark at threshold 80 |
| `Colour.GreyIsLightIffAboveThreshold` | api/view.py:60-66 | a grey (v,v,v) is light iff v exceeds the threshold, for every threshold (a negative one makes every colour light) |
| `Colour.BrighterStaysLight` | api/view.py:60-66 | raising channels never turns a light colour dark |
| `Colour.HexColor` | api/view.py:289 | a colour is written as six lowercase hexadecimal digits |
| `Colour.HexColorRoundTrip` | api/view.py:289 | the six digits read back as the same colour |
| `Colour.Skipped` | api/view.py:287 | a colour is skipped exactly on theme default when it is dark at threshold 80 (299r²+587g²+114b² ≤ 6 400 000) |
| `Colour.BarColorFromCover` | api/view.py:285-290 | the requested colour when every extracted colour is skipped; otherwise the hex of the first colour not skipped |
| `Colour.FirstKept` | api/view.py:285-290 | the index of the first colour not skipped (dark at 80 on theme default), with every earlier one skipped; none only when all are skipped |
| `Colour.OtherThemesTakeFirstColour` | api/view.py:287-290 | off the default theme the first extracted colour is always taken |
| `Colour.PickBarColor` | api/view.py:285-290 | the loop returns the requested colour when every colour is skipped (or there are none), and otherwise the hex of the first colour not skipped |
| `Presentation.BarRules` | api/view.py:32-43 | exactly n rules, numbered 1..n in order, rule i at left offset 1 + 4(i-1), each duration the drawn one and within [350,500] |
| `Presentation.RuleText` | api/view.py:38-40 | one rule is `.bar:nth-child(`, the bar number, `)  { left: `, the offset, `px; animation-duration: `, the duration, `ms; }`: its length is fixed, and the bar number, left offset and duration digits each sit between those literals at fixed positions |
| `Presentation.GenerateCssBar` | api/view.py:32-43 | the loop's string is the rendering of those n rules in order |
| `Presentation.BarMarkup` | api/view.py:102 | the markup for n bars has n times the length of one bar div and starts with one when n > 0 |
| `Presentation.BarMarkupIsDivs` | api/view.py:102 | for every i < n, the i-th slice of one bar div's length is exactly that div: the markup is n divs back to back |
| `Presentation.ThemeLayout` | api/view.py:80-98 | every theme gets between 1 and 100 bars: exactly 100 for natemoo-re and novatorem, 75 for every other theme |
| `Presentation.LayoutTable` | api/view.py:80-98 | compact 400/100 by cover with 75 bars; natemoo-re 84 with 100; novatorem 100 with 100; any other theme 445/145 by cover with 75 |
| `Presentation.MakeSvg` | api/view.py:69-125 | layout from the table; now playing: "Now playing" and exactly num_bar bars; else offline requested: "Not playing", no bars, no CSS; else "Recently played", no bars but the CSS; names, image and colours passed through |
| `Handler.ParseRequest` | api/view.py:230-238 | flags are on only when their text is exactly `true` (cover_image also when absent); theme, bar_color and background_color are the supplied values when present and the defaults `default`, `53b14f`, `121212` when absent |
| `Handler.MissingUid` | api/view.py:241 | the uid counts as missing exactly when it is absent or empty |
| `Handler.GetSongInfo` | api/view.py:199-224 | invalid token iff no access token; now playing iff the query answered, with its item; otherwise the item is the recently-played entry at the drawn index; a failed query, the offline view or an empty history give no item |
| `Handler.EveryRecentTrackSelectable` | api/view.py:217-222 | every recently-played entry is chosen by some draw |
| `Handler.ShowsOffline` | api/view.py:252 | the badge is drawn normally exactly when there is an item and either something is playing or the offline view was not requested; without an item it is always the offline badge |
| `Handler.CoverUrl` | api/view.py:270-278 | for a track (or when the type is absent) the second album image, otherwise the second image of the item; none when that list has fewer than two entries |
| `Handler.OfflineSvg` | api/view.py:252-268 | artist "Offline", the fixed song text, no cover image, the requested colours; the requested theme's template with its no-cover layout (the cover is forced off); titled "Now playing", "Not playing" or "Recently played" by is_now_playing and show_offline; the theme's bar markup when now playing and no bars otherwise; the bar CSS except when not playing with the offline view requested |
| `Handler.FullSvg` | api/view.py:270-310 | server error exactly when a requested cover lacks a second variant or there is no artist; otherwise the fetched cover, the bar colour from the cover when asked and a cover was fetched, names with `&` escaped and swapped under interchange; the template, layout, bar markup, CSS and background colour are what `make_svg` builds from the request's theme, cover flag, offline flag and background colour |
| `Handler.Respond` | api/view.py:244-296 | a token crash is a server error; 401 iff the token is None; the offline badge when offline is requested and nothing plays, or there is no item, even with redirect set; otherwise a 302 to the item's uri when redirect is set, else the full badge; a redirect always targets a track that was offered |
| `Handler.OfflineBadgeWithBars` | api/view.py:252-268 | a now-playing answer without an item yields the offline badge titled "Now playing" with bars |
| `Handler.CatchAll` | api/view.py:229-310 | a missing or empty uid gives 400 before any token lookup, with cache, store and trace unchanged; otherwise one token lookup whose effects satisfy `TokenStep` exactly as for `get_access_token`, then Respond on its result; cache/store coherence is preserved |

## Left out

- Flask routing, `Response`/`redirect` construction and `render_template` with the theme files: the model stops at the outcome kind and the parameter record. In particular an unknown theme gets the fallback layout here, while rendering would look for a `spotify.<theme>.html.j2` template that may not exist.
- The document store, `spotify.refresh_token`, `get_now_playing` and `get_recently_play` are not part of this model; they are a map and input values. Exceptions they raise (other than the caught now-playing failure, `FetchFailed`), and refresh answers other than `invalid_grant` or a token, are not modelled.
- `load_image` (network fetch with `lru_cache`) is the input function `fetch`; the memoisation of `generate_css_bar` is not modelled (each call draws from `anims`).
- `to_img_b64`/`load_image_b64` (base64 of RFC 4648, section 4) are not modelled: the parameter record keeps the cover bytes; base64 of no bytes is the empty string, so "no image" is still the empty value.
- PIL `Image.open` and `colorgram.extract` are the input function `extract`.
- `Colour.LightOrDark` uses exact real arithmetic; float rounding of `math.sqrt` could differ only at the exact equality boundary.
- `random.randint` is injected (`pick`, `anims`); nothing about uniformity is claimed.
- `print` logging, the request `path`, and the unguarded concurrent refresh of one uid.
- `TokenRecord` keeps only the three token fields of a stored document; other fields are not modelled.
- The streaming service's answers are assumed to carry every key the handler reads (`item`, `items`, `track`, `uri`, `album`, `images`, `url`, `name`); a missing key, which raises `KeyError` in `api/view.py` (lines 212, 218, 221, 273, 278, 292-293), is not modelled. Only the two short-list cases are: a cover list without a second entry (`NoCoverVariant`) and an empty artist list (`NoArtist`).
- Failures of the store itself (a failing delete or update) are not modelled.
