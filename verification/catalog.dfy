/**
 * HMedia's constant table: the six shipped chapters and the audio files
 * they play.
 */
module Catalog {
  import opened UrlPaths
  import opened AudioResources
  import Cache

  datatype Chapter = Chapter(title: string, audioResource: AudioResource)

  const MediaOrigin := "https://github.com"
  const MediaDir := "/huahuahu/poemMedia/releases/download/media-v1"

  const ResourceOne := AudioResource(Url(MediaOrigin, "/huahuahu/poemMedia/releases/download/media-v1/1-.mp3"))
  const ResourceTwo := AudioResource(Url(MediaOrigin, "/huahuahu/poemMedia/releases/download/media-v1/2-.mp3"))
  const ResourceThree := AudioResource(Url(MediaOrigin, "/huahuahu/poemMedia/releases/download/media-v1/3-.mp3"))
  const ResourceFour := AudioResource(Url(MediaOrigin, "/huahuahu/poemMedia/releases/download/media-v1/4-.mp3"))
  const ResourceSix := AudioResource(Url(MediaOrigin, "/huahuahu/poemMedia/releases/download/media-v1/6-.mp3"))
  const ResourceNine := AudioResource(Url(MediaOrigin, "/huahuahu/poemMedia/releases/download/media-v1/9-.mp3"))

  const One := Chapter("早期生活及诗作", ResourceOne)
  const Two := Chapter("在长安求仕时期生活及诗作", ResourceTwo)
  const Three := Chapter("安史之乱将起时的一篇名作", ResourceThree)
  const Four := Chapter("身陷长安时的作品", ResourceFour)
  const Six := Chapter("长安收复后官拾遗时的作品", ResourceSix)
  const Nine := Chapter("杜甫的一组名诗", ResourceNine)

  /** `Chapter.all`, in display order. */
  const All: seq<Chapter> := [One, Two, Three, Four, Six, Nine]

  /** The file names the six resources are cached under, in the order of `All`. */
  const CacheFileNames: seq<string> := ["1-.mp3", "2-.mp3", "3-.mp3", "4-.mp3", "6-.mp3", "9-.mp3"]

  /** `Chapter.all` holds six chapters, one, two, three, four, six and nine, each with the resource of its own name. */
  lemma AllInOrder()
    ensures |All| == 6
    ensures All[0] == One && All[1] == Two && All[2] == Three
    ensures All[3] == Four && All[4] == Six && All[5] == Nine
    ensures All[0].audioResource == ResourceOne && All[1].audioResource == ResourceTwo
    ensures All[2].audioResource == ResourceThree && All[3].audioResource == ResourceFour
    ensures All[4].audioResource == ResourceSix && All[5].audioResource == ResourceNine
  {
  }

  /** No two shipped chapters have the same title, so `play` never mistakes one for another. */
  lemma TitlesDistinct()
    ensures forall i, j :: 0 <= i < j < |All| ==> All[i].title != All[j].title
  {
  }

  /** Each shipped resource is cached under the last segment of its URL, "1-.mp3" to "9-.mp3". */
  lemma {:induction false} ShippedFileNames()
    ensures |CacheFileNames| == |All|
    ensures forall i :: 0 <= i < |All| ==> LastPathComponent(All[i].audioResource.url) == CacheFileNames[i]
  {
    var names := CacheFileNames;
    forall i | 0 <= i < |All|
      ensures LastPathComponent(All[i].audioResource.url) == names[i]
    {
      assert '/' !in names[i];
      assert All[i].audioResource.url == Url(MediaOrigin, MediaDir + "/" + names[i]);
      FileNameOfJoin(MediaOrigin, MediaDir, names[i]);
    }
  }

  /** Every shipped resource is cached as a file inside the cache directory, not as the directory itself. */
  lemma ShippedNamesAreFiles()
    ensures forall i :: 0 <= i < |All| ==> Cache.IsEntryName(LastPathComponent(All[i].audioResource.url))
  {
    ShippedFileNames();
    CacheFileNamesAreEntries();
  }

  lemma CacheFileNamesAreEntries()
    ensures forall i :: 0 <= i < |CacheFileNames| ==> Cache.IsEntryName(CacheFileNames[i])
  {
    forall i | 0 <= i < |CacheFileNames|
      ensures Cache.IsEntryName(CacheFileNames[i])
    {
      assert |CacheFileNames[i]| == 6;
    }
  }

  /**
   * Any two different shipped chapters have distinct titles, and each is
   * cached as a file inside the cache directory.
   */
  lemma ShippedPairQualifies(i: nat, j: nat)
    requires i < |All| && j < |All| && i != j
    ensures All[i].title != All[j].title
    ensures Cache.IsEntryName(LastPathComponent(All[i].audioResource.url))
  {
    TitlesDistinct();
    ShippedNamesAreFiles();
  }

  /** The six cache file names differ pairwise. */
  lemma FileNamesDistinct()
    ensures forall i, j :: 0 <= i < j < |CacheFileNames| ==> CacheFileNames[i] != CacheFileNames[j]
  {
  }

  /** No two shipped chapters share a cache slot. */
  lemma CacheSlotsDistinct()
    ensures forall i, j :: 0 <= i < j < |All| ==>
      LastPathComponent(All[i].audioResource.url) != LastPathComponent(All[j].audioResource.url)
  {
    ShippedFileNames();
    FileNamesDistinct();
  }
}
