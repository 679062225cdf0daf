/**
 * HMedia's `AudioPlayerModel`: which chapter is loaded, whether it plays,
 * the playback position, and what the system's now-playing centre shows.
 *
 * The `AVPlayer` is reduced to the media source it was created with; the
 * now-playing centre's dictionary is the `nowPlaying` field. Times are whole
 * seconds. Callbacks that the source schedules on the main actor (a finished
 * seek, a periodic time update, a loaded duration) are event methods.
 */
module Player {
  import opened Wrappers
  import opened UrlPaths
  import opened Catalog
  import Cache

  /** What an `AVPlayerItem` is created from: a cached file or the remote URL. */
  datatype MediaSource = LocalFile(path: Path) | RemoteUrl(url: Url)

  /** A live `AVPlayer`, known by the source it plays. */
  datatype AvPlayer = AvPlayer(source: MediaSource)

  /** The entries `updateNowPlayingInfo` puts into the now-playing dictionary. */
  datatype NowPlayingInfo = NowPlayingInfo(title: string, elapsed: int, duration: int, rate: real)

  /** What `updateNowPlayingInfo` publishes for a given player state. */
  function NowPlayingOf(chapter: Option<Chapter>, time: int, duration: int, playing: bool): (r: Option<NowPlayingInfo>)
    ensures r.None? <==> chapter.None?
    ensures r.Some? ==> r.value.title == chapter.value.title
    ensures r.Some? ==> r.value.elapsed == time && r.value.duration == duration
    ensures r.Some? ==> (r.value.rate == 1.0 <==> playing) && (r.value.rate == 0.0 <==> !playing)
  {
    match chapter
    case None => None
    case Some(c) => Some(NowPlayingInfo(c.title, time, duration, if playing then 1.0 else 0.0))
  }

  class AudioPlayerModel {
    var currentChapter: Option<Chapter>
    var isPlaying: bool
    var currentTime: int
    var duration: int
    var player: Option<AvPlayer>
    /** `MPNowPlayingInfoCenter.default().nowPlayingInfo`. */
    var nowPlaying: Option<NowPlayingInfo>

    /** A player exists exactly when a chapter is loaded. */
    ghost predicate Valid()
      reads this
    {
      currentChapter.Some? <==> player.Some?
    }

    /** The now-playing dictionary agrees with the model's fields. */
    ghost predicate NowPlayingInSync()
      reads this
    {
      nowPlaying == NowPlayingOf(currentChapter, currentTime, duration, isPlaying)
    }

    /** `play` would only resume: the same title is loaded and a player exists. */
    ghost predicate Resumes(chapter: Chapter)
      reads this
    {
      currentChapter.Some? && currentChapter.value.title == chapter.title && player.Some?
    }

    constructor ()
      ensures Valid() && NowPlayingInSync()
      ensures currentChapter == None && !isPlaying && currentTime == 0 && duration == 0
      ensures player == None
    {
      currentChapter, isPlaying, currentTime, duration := None, false, 0, 0;
      player, nowPlaying := None, None;
    }

    method UpdateNowPlayingInfo()
      modifies this`nowPlaying
      ensures NowPlayingInSync()
    {
      match currentChapter {
        case None =>
          nowPlaying := None;
        case Some(chapter) =>
          nowPlaying := Some(NowPlayingInfo(chapter.title, currentTime, duration,
                                            if isPlaying then 1.0 else 0.0));
      }
    }

    /**
     * `play(chapter:)`. The same title with a live player just resumes.
     * Otherwise the chapter is loaded from its cached file when there is one,
     * else from its remote URL, in which case caching is requested; the
     * started download, if any, is returned.
     */
    method Play(chapter: Chapter, cache: Cache.CacheManager) returns (request: Option<Cache.DownloadTask>)
      requires Valid() && cache.Valid()
      modifies this
      ensures Valid()
      ensures old(Resumes(chapter)) ==>
        && isPlaying && request.None?
        && currentChapter == old(currentChapter) && player == old(player)
        && currentTime == old(currentTime) && duration == old(duration)
        && nowPlaying == old(nowPlaying)
      ensures !old(Resumes(chapter)) ==>
        var url := chapter.audioResource.url;
        var hit := Cache.FileExists(cache.Disk(), LastPathComponent(url));
        && currentChapter == Some(chapter) && isPlaying
        && player == Some(AvPlayer(if hit then LocalFile(cache.LocalPath(url)) else RemoteUrl(url)))
        && (request.Some? <==> !hit)
        && (request.Some? ==> request.value == Cache.DownloadTask(url, LastPathComponent(url)))
        && currentTime == old(currentTime) && duration == old(duration)
        && NowPlayingInSync()
    {
      if currentChapter.Some? && currentChapter.value.title == chapter.title && player.Some? {
        isPlaying := true;
        return None;
      }
      currentChapter := Some(chapter);
      var source: MediaSource;
      var localURL := cache.GetLocalURL(chapter.audioResource.url);
      if localURL.Some? {
        source := LocalFile(localURL.value);
        request := None;
      } else {
        source := RemoteUrl(chapter.audioResource.url);
        request := cache.Cache(chapter.audioResource.url);
      }
      player := Some(AvPlayer(source));
      isPlaying := true;
      UpdateNowPlayingInfo();
    }

    /** `togglePlayPause`: without a player nothing happens; with one, playing flips. */
    method TogglePlayPause()
      requires Valid()
      modifies this
      ensures Valid()
      ensures old(player).None? ==> unchanged(this)
      ensures old(player).Some? ==>
        && isPlaying == !old(isPlaying) && NowPlayingInSync()
        && currentChapter == old(currentChapter) && player == old(player)
        && currentTime == old(currentTime) && duration == old(duration)
    {
      if player.None? {
        return;
      }
      isPlaying := !isPlaying;
      UpdateNowPlayingInfo();
    }

    /**
     * `seek(to:)`: without a player nothing happens; with one, the player is
     * asked to seek, and the time to record once it completes is returned.
     */
    method Seek(time: int) returns (pending: Option<int>)
      ensures pending.Some? <==> player.Some?
      ensures pending.Some? ==> pending.value == time
    {
      if player.None? {
        return None;
      }
      return Some(time);
    }

    /** The seek's completion handler: the position becomes the requested time. */
    method OnSeekCompleted(time: int)
      requires Valid()
      modifies this
      ensures Valid() && NowPlayingInSync()
      ensures currentTime == time
      ensures currentChapter == old(currentChapter) && isPlaying == old(isPlaying)
      ensures player == old(player) && duration == old(duration)
    {
      currentTime := time;
      UpdateNowPlayingInfo();
    }

    /** The periodic time observer reports the player's position. */
    method OnTimeObserved(time: int)
      requires Valid()
      modifies this
      ensures Valid() && NowPlayingInSync()
      ensures currentTime == time
      ensures currentChapter == old(currentChapter) && isPlaying == old(isPlaying)
      ensures player == old(player) && duration == old(duration)
    {
      currentTime := time;
      UpdateNowPlayingInfo();
    }

    /** The item's duration finished loading. */
    method OnDurationLoaded(seconds: int)
      requires Valid()
      modifies this
      ensures Valid() && NowPlayingInSync()
      ensures duration == seconds
      ensures currentChapter == old(currentChapter) && isPlaying == old(isPlaying)
      ensures player == old(player) && currentTime == old(currentTime)
    {
      duration := seconds;
      UpdateNowPlayingInfo();
    }
  }

  /** Two toggles in a row restore the state they started from. */
  method ToggleTwice(m: AudioPlayerModel)
    requires m.Valid() && m.NowPlayingInSync()
    modifies m
    ensures m.Valid()
    ensures m.isPlaying == old(m.isPlaying) && m.nowPlaying == old(m.nowPlaying)
    ensures m.currentChapter == old(m.currentChapter) && m.player == old(m.player)
    ensures m.currentTime == old(m.currentTime) && m.duration == old(m.duration)
  {
    m.TogglePlayPause();
    m.TogglePlayPause();
  }

  /**
   * Playing a chapter that is not cached streams it from its URL and
   * requests its download; once that download finishes without faults, the
   * file is on disk.
   */
  method StreamThenStore(m: AudioPlayerModel, cache: Cache.CacheManager, chapter: Chapter, c: Cache.Completion)
      returns (first: Option<Cache.DownloadTask>)
    requires m.Valid() && cache.Valid()
    requires Cache.IsEntryName(LastPathComponent(chapter.audioResource.url))
    requires !m.Resumes(chapter)
    requires !Cache.FileExists(cache.Disk(), LastPathComponent(chapter.audioResource.url))
    requires cache.fileAtDirPath.None?
    requires c.tempFile.Some? && c.error.None?
    modifies m, cache
    ensures m.Valid() && cache.Valid()
    ensures first == Some(Cache.DownloadTask(chapter.audioResource.url, LastPathComponent(chapter.audioResource.url)))
    ensures m.currentChapter == Some(chapter) && m.player == Some(AvPlayer(RemoteUrl(chapter.audioResource.url)))
    ensures Cache.FileExists(cache.Disk(), LastPathComponent(chapter.audioResource.url))
  {
    var name := LastPathComponent(chapter.audioResource.url);
    var noFaults := Cache.FsFaults(false, false, false);
    first := m.Play(chapter, cache);
    cache.OnDownloadFinished(first.value, c, noFaults);
    Cache.SuccessfulDownloadStores(old(cache.Disk()), name, c, noFaults);
  }

  /**
   * Once a streamed chapter's download is stored, playing another chapter
   * and then this one again picks the cached file and requests nothing.
   * Every pair of different shipped chapters qualifies
   * (`Catalog.ShippedPairQualifies`).
   */
  method ReplayUsesCachedFile(m: AudioPlayerModel, cache: Cache.CacheManager, chapter: Chapter, other: Chapter,
                              c: Cache.Completion)
      returns (first: Option<Cache.DownloadTask>, again: Option<Cache.DownloadTask>)
    requires m.Valid() && cache.Valid()
    requires chapter.title != other.title
    requires Cache.IsEntryName(LastPathComponent(chapter.audioResource.url))
    requires m.currentChapter == None
    requires !Cache.FileExists(cache.Disk(), LastPathComponent(chapter.audioResource.url))
    requires cache.fileAtDirPath.None?
    requires c.tempFile.Some? && c.error.None?
    modifies m, cache
    ensures cache.Valid()
    ensures first == Some(Cache.DownloadTask(chapter.audioResource.url, LastPathComponent(chapter.audioResource.url)))
    ensures again.None? && m.currentChapter == Some(chapter) && m.isPlaying
    ensures m.player == Some(AvPlayer(LocalFile(cache.LocalPath(chapter.audioResource.url))))
  {
    first := StreamThenStore(m, cache, chapter, c);
    var _ := m.Play(other, cache);
    again := m.Play(chapter, cache);
  }
}
