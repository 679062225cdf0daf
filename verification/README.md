# Ye-Dufu media cache and playback controller, modelled in Dafny

Ye-Dufu is an iOS app that plays six recorded lectures on the poet Du Fu.
This project models the two small state machines under its UI. It also
models the constant table that feeds them and two pure helpers of the
player screen.

- **The media cache** (`CacheManager`, module `Cache`). It keeps one flat
  directory, `Documents/Media`, with one file per remote URL. Each file is
  named by the URL's last path component.
  - `getLocalURL` reports a hit only when that file exists.
  - `cache` starts a download unless the file is already there.
  - The download's completion handler re-creates the directory and removes
    whatever is at the destination. It then moves the downloaded file in.
    Any error in these steps is swallowed.
  - The directory is a `CacheDir` value: an "exists" flag, a map from file
    name to bytes, and a plain file that may stand at the directory's path.
  - A last path component of "" or "/" appended to the cache directory
    names the directory itself, and ".." names the documents directory. For
    such a URL the lookup reports whatever is at that path. A download for ""
    or "/" removes the whole cache directory and puts the downloaded file in
    its place.
  - A "." stays in the local path as `Media/.`. The lookup finds it while the
    directory exists, but removing it or moving onto it is refused, so a
    download for it never lands.
  - A `FsFaults` value says which `FileManager` calls fail.
  - The completion handler is an event method. The pure function `Finish`
    specifies it.
- **The playback controller** (`AudioPlayerModel`, module `Player`). It holds
  the current chapter, whether it is playing, the position, the duration, an
  optional player and the now-playing information the system shows.
  - `play` resumes when the same title is loaded and a player exists.
  - Otherwise it loads the chapter from the cached file, or from the remote
    URL, and only then asks the cache to download it.
  - `togglePlayPause` and `seek` do nothing without a player.
  - `Play` takes the cache manager as a parameter; in the app it is the
    shared singleton.
- **The catalogue** (module `Catalog`). It holds the six chapters and their
  audio URLs. Lemmas show that their titles are pairwise distinct and that no
  two of them share a cache file.
- **The player screen's pure pieces** (module `PlayerControl`). These are the
  `m:ss` time label and the targets of the 15-second seek buttons.
- **URLs** (module `UrlPaths`). A URL is kept as its origin and its
  percent-encoded path.
  Foundation's `lastPathComponent` is defined on the path: trailing slashes
  are ignored, an empty path gives "", a path of only slashes gives "/", and
  otherwise the result is the text after the last '/'.

`AudioPlayerModel.swift` and `DownloadManagerViewController.swift` call the
cache with an `AudioResource`. `CacheManager.swift` only takes a URL, and an
`AudioResource` is a wrapper around its `url`, so the model passes the URL.

Times are whole seconds throughout.

## Model

| member | source | states |
|---|---|---|
| UrlPaths.LastPathComponent | Ye-Dufu/Packages/HData/Sources/HData/CacheManager.swift:23 | An empty path gives "". A path of only slashes gives "/". Otherwise the name is non-empty and holds no '/' of the encoded path. |
| UrlPaths.LastPathComponentEndsPath | Ye-Dufu/Packages/HData/Sources/HData/CacheManager.swift:23 | Once trailing slashes are dropped, the name is a suffix of the path, preceded by a '/' unless it is the whole path. With the row above, this determines the name. |
| UrlPaths.TrailingSlashKeepsFileName | Ye-Dufu/Packages/HData/Sources/HData/CacheManager.swift:23 | A trailing slash does not change the name: "/a/b/" and "/a/b" both give "b". |
| UrlPaths.FileNameOfJoin | Ye-Dufu/Packages/HData/Sources/HData/CacheManager.swift:23-24 | A URL whose path is `dir/name`, with no '/' in `name`, is cached under `name`. |
| UrlPaths.DistinctUrlsShareFileName | Ye-Dufu/Packages/HData/Sources/HData/CacheManager.swift:33-34 | Two different URLs (`/v1/x.mp3` and `/v2/x.mp3`) get the same file name "x.mp3", so they alias one cache slot. |
| Cache.CacheManager.LocalPath | Ye-Dufu/Packages/HData/Sources/HData/CacheManager.swift:23-24 | For an ordinary file name or ".", the local path is the cache directory with the name as one more component. For "" and "/" it is the cache directory itself, and for ".." it is the documents directory. |
| Cache.CacheManager.constructor | Ye-Dufu/Packages/HData/Sources/HData/CacheManager.swift:9-14 | The cache directory is `Documents/Media`. The directory is created if nothing is at its path. Files already on disk are kept. |
| Cache.CacheManager.CreateCacheDirectory | Ye-Dufu/Packages/HData/Sources/HData/CacheManager.swift:16-20 | Afterwards the state is `CreateIfMissing` of the old one, and an existing directory stays. |
| Cache.CacheManager.GetLocalURL | Ye-Dufu/Packages/HData/Sources/HData/CacheManager.swift:22-30 | It returns the local path exactly when something exists there: a cached file for a file name, the directory (or a file in its place) for "" and "/", the directory only for ".", and always for "..". Otherwise it returns nothing. It changes no state. |
| Cache.CacheManager.Cache | Ye-Dufu/Packages/HData/Sources/HData/CacheManager.swift:32-38 | No download starts exactly when something exists at the local path, as `GetLocalURL` sees it, so never for "..". Otherwise it starts a download of that URL whose destination is the URL's last path component. |
| Cache.CacheManager.OnDownloadFinished | Ye-Dufu/Packages/HData/Sources/HData/CacheManager.swift:40-60 | The new state is `Finish` of the old one, and the state stays consistent. |
| Cache.CreateIfMissing | Ye-Dufu/Packages/HData/Sources/HData/CacheManager.swift:16-20 | The directory exists afterwards exactly when it existed before, or nothing stood at its path and creation did not fail. Files and any file at the path are kept, and consistency is preserved. |
| Cache.CreateIsIdempotent | Ye-Dufu/Packages/HData/Sources/HData/CacheManager.swift:16-20 | Creating twice equals creating once, and an existing directory is never touched. |
| Cache.Finish | Ye-Dufu/Packages/HData/Sources/HData/CacheManager.swift:40-60 | A completion with an error or without a temp file changes nothing. Every completion keeps the state consistent: a missing directory holds no files, and a file can stand at its path only while it is missing. A removal at a final "." or ".." always throws. |
| Cache.CacheTwice | Ye-Dufu/Packages/HData/Sources/HData/CacheManager.swift:32-61 | Two requests for an uncached URL before any completion both start the same download, because only the file is checked. |
| Cache.SuccessfulDownloadStores | Ye-Dufu/Packages/HData/Sources/HData/CacheManager.swift:46-55 | For a file name, with nothing blocking the directory's path: if creating, removing and moving all succeed, the directory exists and the destination holds the downloaded bytes. Any earlier file there is replaced and every other file is untouched. |
| Cache.BlockedDirectoryStoresNothing | Ye-Dufu/Packages/HData/Sources/HData/CacheManager.swift:46-58 | While a plain file stands at the directory's path, no completion for a file name changes anything. |
| Cache.DownloadOntoDirectoryReplacesIt | Ye-Dufu/Packages/HData/Sources/HData/CacheManager.swift:46-55 | A successful completion whose name is "" or "/" removes the cache directory with every cached file and leaves the download in its place. Afterwards no file name is found, and creating the directory does nothing. |
| Cache.DotDownloadOnlyCreates | Ye-Dufu/Packages/HData/Sources/HData/CacheManager.swift:46-58 | A completion for "." with a temp file and no error only re-creates a missing directory. The removal of `Media/.` throws, or when nothing resolves there the move onto it fails, so no file is stored and nothing is removed. |
| Cache.ParentDownloadOnlyCreates | Ye-Dufu/Packages/HData/Sources/HData/CacheManager.swift:46-58 | A completion for ".." with a temp file and no error only re-creates a missing directory. The removal of `Media/..` throws, so no file is stored and nothing is removed. |
| Cache.FailedRemovalKeepsOldFile | Ye-Dufu/Packages/HData/Sources/HData/CacheManager.swift:51-58 | If removing the existing destination throws, no move happens. Every cached file and any file at the directory's path stay as they were, and if the directory existed nothing changes at all. |
| Cache.FailedMoveEmptiesSlot | Ye-Dufu/Packages/HData/Sources/HData/CacheManager.swift:51-58 | If the removal succeeds but the move throws, nothing exists at the destination afterwards. This holds for every name whose removal can succeed, so not for "." or "..". |
| Cache.FinishIsLocal | Ye-Dufu/Packages/HData/Sources/HData/CacheManager.swift:40-60 | Under every outcome a completion for a file name never removes an existing directory. Every other file name keeps both its presence and its content. |
| Cache.LastWriterWins | Ye-Dufu/Packages/HData/Sources/HData/CacheManager.swift:50-55 | For a file name, with nothing blocking the directory's path: after two successful completions, the file holds the second download's bytes. |
| Cache.SharedFileNameAliases | Ye-Dufu/Packages/HData/Sources/HData/CacheManager.swift:22-34 | With nothing blocking the directory's path, a successful download for one URL makes the lookup hit for every URL with the same last path component. |
| Catalog.AllInOrder | Ye-Dufu/Packages/HMedia/Sources/HMedia/HMedia.swift:17-25 | `Chapter.all` holds six chapters, in the order one, two, three, four, six, nine. Each chapter's resource is the constant of the same name. |
| Catalog.TitlesDistinct | Ye-Dufu/Packages/HMedia/Sources/HMedia/HMedia.swift:18-23 | The six titles are pairwise distinct. |
| Catalog.ShippedFileNames | Ye-Dufu/Packages/HMedia/Sources/HMedia/HMedia.swift:29-34 | The six resources are cached under "1-.mp3", "2-.mp3", "3-.mp3", "4-.mp3", "6-.mp3" and "9-.mp3", in chapter order. |
| Catalog.ShippedNamesAreFiles | Ye-Dufu/Packages/HMedia/Sources/HMedia/HMedia.swift:29-34 | Each shipped resource is cached as a file inside the cache directory, never under a name that denotes a directory. |
| Catalog.ShippedPairQualifies | Ye-Dufu/Packages/HMedia/Sources/HMedia/HMedia.swift:18-34 | Any two different shipped chapters have distinct titles, and each is cached as a file inside the cache directory. These are the conditions `Player.ReplayUsesCachedFile` needs. |
| Catalog.CacheSlotsDistinct | Ye-Dufu/Packages/HMedia/Sources/HMedia/HMedia.swift:25-34 | No two shipped chapters share a cache file. |
| Player.NowPlayingOf | Ye-Dufu/Packages/HMedia/Sources/HMedia/AudioPlayerModel.swift:132-144 | With no chapter the info is cleared. Otherwise it carries the chapter's title, the position and the duration, and its rate is 1 exactly when playing and 0 exactly when not. |
| Player.AudioPlayerModel.constructor | Ye-Dufu/Packages/HMedia/Sources/HMedia/AudioPlayerModel.swift:12-23 | It starts with no chapter, no player, not playing, and time and duration 0. |
| Player.AudioPlayerModel.UpdateNowPlayingInfo | Ye-Dufu/Packages/HMedia/Sources/HMedia/AudioPlayerModel.swift:132-145 | Afterwards the now-playing info agrees with `NowPlayingOf` of the current fields. |
| Player.AudioPlayerModel.Play | Ye-Dufu/Packages/HMedia/Sources/HMedia/AudioPlayerModel.swift:26-78 | If the same title is loaded and a player exists, it only sets playing: no chapter, player, source or now-playing change, and no cache request. Otherwise the chapter becomes current and a player exists and plays. The source is the local path when something exists there, and the remote URL otherwise. A download is requested exactly on a miss. The position and duration are kept and the now-playing info is refreshed. |
| Player.AudioPlayerModel.TogglePlayPause | Ye-Dufu/Packages/HMedia/Sources/HMedia/AudioPlayerModel.swift:80-90 | Without a player nothing changes. With one, playing is negated, the now-playing info is refreshed and nothing else changes. |
| Player.ToggleTwice | Ye-Dufu/Packages/HMedia/Sources/HMedia/AudioPlayerModel.swift:80-90 | Two toggles restore every field, the now-playing info included, when that info was up to date. |
| Player.AudioPlayerModel.Seek | Ye-Dufu/Packages/HMedia/Sources/HMedia/AudioPlayerModel.swift:92-95 | A seek is issued exactly when a player exists, and it targets the requested time. |
| Player.AudioPlayerModel.OnSeekCompleted | Ye-Dufu/Packages/HMedia/Sources/HMedia/AudioPlayerModel.swift:95-99 | When the seek completes, the position equals the requested time and the now-playing info is refreshed. Nothing else changes. |
| Player.AudioPlayerModel.OnTimeObserved | Ye-Dufu/Packages/HMedia/Sources/HMedia/AudioPlayerModel.swift:69-75 | A periodic time report sets the position and refreshes the now-playing info. Nothing else changes. |
| Player.AudioPlayerModel.OnDurationLoaded | Ye-Dufu/Packages/HMedia/Sources/HMedia/AudioPlayerModel.swift:61-66 | A loaded duration is stored and the now-playing info is refreshed. Nothing else changes. |
| Player.StreamThenStore | Ye-Dufu/Packages/HMedia/Sources/HMedia/AudioPlayerModel.swift:34-46 | Playing a chapter that is not on disk streams it from its URL and requests its download. After a fault-free completion its file exists. |
| Player.ReplayUsesCachedFile | Ye-Dufu/Packages/HMedia/Sources/HMedia/AudioPlayerModel.swift:34-46 | For two chapters with distinct titles, the first cached as a file and not yet on disk: it is first streamed and its download requested. Once that download lands, playing the other chapter and then this one again uses the local file and requests nothing. |
| PlayerControl.Quot | Ye-Dufu/Ye-Dufu/PlayerControlViewController.swift:155-156 | Swift's `/` on `Int`: the quotient is rounded toward zero, so quotient times divisor lies within one divisor of the dividend on the dividend's own side of zero. |
| PlayerControl.Rem | Ye-Dufu/Ye-Dufu/PlayerControlViewController.swift:155-156 | Swift's `%` on `Int`: quotient times divisor plus remainder gives back the dividend. The remainder lies in 0..59 for a non-negative time, and in -59..0 for a negative one. |
| PlayerControl.Digits | Ye-Dufu/Ye-Dufu/PlayerControlViewController.swift:157 | `%d` of a natural number is at least one decimal digit, with no leading zero. |
| PlayerControl.DigitsReadBack | Ye-Dufu/Ye-Dufu/PlayerControlViewController.swift:157 | Reading the printed digits back gives the number. |
| PlayerControl.FormatInt | Ye-Dufu/Ye-Dufu/PlayerControlViewController.swift:157 | `%d`: a non-negative number prints as digits that read back to it, with no leading zero. A negative one prints as "-" and then the digits of its magnitude. |
| PlayerControl.FormatPadded2 | Ye-Dufu/Ye-Dufu/PlayerControlViewController.swift:157 | `%02d`: a value in 0..99 prints as exactly two digits that read back to it. Any other value prints as `%d` would. |
| PlayerControl.FormatTime | Ye-Dufu/Ye-Dufu/PlayerControlViewController.swift:154-158 | For t ≥ 0, the label is the minutes in digits without a leading zero (unless 0), ":", then exactly two digits of seconds. The seconds are below 60 and minutes*60 + seconds = t. |
| PlayerControl.FormatTimeZero | Ye-Dufu/Ye-Dufu/PlayerControlViewController.swift:60-64 | `formatTime(0)` is "0:00", the labels' initial text. |
| PlayerControl.FormatTimeNegative | Ye-Dufu/Ye-Dufu/PlayerControlViewController.swift:155-157 | Swift's truncating division gives -75 s as "-1:-15". |
| PlayerControl.SeekBackTarget | Ye-Dufu/Ye-Dufu/PlayerControlViewController.swift:169 | The target is never below 0. It is the larger of 0 and current-15, so it equals current-15 when current ≥ 15. |
| PlayerControl.SeekForwardTargetAsWritten | Ye-Dufu/Ye-Dufu/PlayerControlViewController.swift:175 | The target is never above the duration. It is the smaller of the duration and current+15, so it equals current+15 when that fits. |
| PlayerControl.SeekForwardCanRewind | Ye-Dufu/Ye-Dufu/PlayerControlViewController.swift:175 | With the duration still 0 (not loaded), a forward seek from 30 s targets 0: a rewind. |
| PlayerControl.SeekForwardTarget | Ye-Dufu/Ye-Dufu/PlayerControlViewController.swift:175 | The corrected target moves forward by at most 15 s and never backwards. It stays within the duration whenever the position does, and there it agrees with the code as written. |

## Left out

- The download registry, progress reporting, the invalidation token, `removeCache`, `isDownloaded` and `getFileSize` are left out. `DownloadManagerViewController.swift` calls them, but `CacheManager.swift` does not define them. The model follows `CacheManager.swift`, so nothing deduplicates downloads in flight (see `Cache.CacheTwice`).
- `FileManager` and `URLSession` are not modelled as real I/O. A failing `FileManager` call is an `FsFaults` flag, and a finished transfer is a `Completion` event. A move also fails when the directory is missing.
- The temporary download directory is not part of the state. `URLSession` deletes the temp file once the handler returns, so the event carries the file's content. The model has no state in which a moved temp file could linger.
- The `[weak self]` capture that is `nil` is not modelled: the cache manager is a process-wide singleton that is never released.
- Threads, `Task` and `@MainActor` hops are not modelled: every method and event runs to completion, one at a time.
  - `play` requests caching inside a `Task`, so in the app the file could land between the lookup and the request. In the model the request runs at once.
- Logging through `print` and `HLog` is left out; it carries no state.
- The internals of `AVPlayer` and MediaPlayer are left out: playback itself, the time observer's registration and removal, the audio session and the remote command centre. A player is the source it was created with. The remote play and pause commands only call `togglePlayPause`.
- Player.AudioPlayerModel.OnDurationLoaded: the duration is whole seconds, not the `Double` from `CMTimeGetSeconds`. A load that throws does not call the handler at all.
- PlayerControl.FormatTime: the time is whole seconds. The `Int(time)` conversion of a fractional `Double`, and its trap on NaN or infinity, are not modelled.
- UrlPaths.LastPathComponent: the path is its percent-encoded text, and escapes are not decoded. Foundation decodes them, so "%2F" in the last segment gives a name that holds '/', which then names a nested location; that case is not modelled.
- Cache.CacheManager.LocalPath: locations are lists of components resolved as the file system resolves them. "" and "/" give the cache directory, and ".." gives the documents directory. "." is kept as a component of its own, `Media/.`. The unresolved text `appendingPathComponent` returns for "" and ".." is not represented.
- Cache.CacheManager.OnDownloadFinished: removing `Media/.` or `Media/..` is modelled as throwing before it touches anything. Whether `FileManager`'s recursive removal deletes a directory's contents before its final `rmdir` fails is not represented. `cache` never starts a ".." download anyway, because the documents directory always exists.
- Player.AudioPlayerModel.Play: strings, titles included, are compared code point by code point, not by Swift's canonical equivalence. Two spellings of one title in different Unicode normal forms would resume in the app but reload in the model. The shipped titles differ in every normal form.
- Cache.FailedMoveEmptiesSlot: this no longer covers ".", whose removal never succeeds; `Cache.DotDownloadOnlyCreates` states what happens then.
- The rest of the view controllers (layout, observation re-subscription, slider fractions, volume) is left out: it is UI glue.
- `Scripts/build_ipa.swift`, `Logger.swift`, `HPersistence.swift` and the package manifests are not part of this model. They are build, logging and preference plumbing.

## Findings

| source | as written | input that shows it | evidently intended | confidence | as-written member | corrected member |
|---|---|---|---|---|---|---|
| Ye-Dufu/Ye-Dufu/PlayerControlViewController.swift:175 | `min(player.duration, player.currentTime + 15)` | duration 0 (not yet loaded, or its load failed), current 30 s: target 0 | a forward seek never moves backwards | medium; not executed | PlayerControl.SeekForwardTargetAsWritten (with PlayerControl.SeekForwardCanRewind) | PlayerControl.SeekForwardTarget |
