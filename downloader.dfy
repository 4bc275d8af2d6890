/** The `VideoDownloader` component's state and its three event handlers. The component keeps
    four state slots (`url`, `videoId`, `isLoading`, `videoInfo`); each handler is one atomic
    transition over them. Rendering, toasts and opening a browser window are not modelled: the
    download handler returns the address it would open. */
module Downloader {
  import opened Wrappers
  import JsText
  import VideoId

  /** The preview record the component stores after a load. */
  datatype VideoInfo = VideoInfo(title: string, thumbnail: string)

  /** The fixed title shown for every loaded video. */
  const PlaceholderTitle: string := "Vídeo do YouTube"

  const ThumbnailPrefix: string := "https://img.youtube.com/vi/"
  const ThumbnailSuffix: string := "/maxresdefault.jpg"
  const DownloadPrefix: string := "https://www.y2mate.com/youtube/"

  /** The thumbnail address built from the template for `id`. */
  function ThumbnailUrl(id: string): string
  {
    ThumbnailPrefix + id + ThumbnailSuffix
  }

  /** The download-service address built from the template for `id`. */
  function DownloadUrl(id: string): string
  {
    DownloadPrefix + id
  }

  /** The preview record stored for `id`. */
  function InfoFor(id: string): VideoInfo
  {
    VideoInfo(PlaceholderTitle, ThumbnailUrl(id))
  }

  /** JavaScript falsiness of a `string | null` slot: `null` and `""` are falsy. This is the
      same `ToBoolean` as `JsValue.Truthy`, restricted to the slot's type. */
  predicate Falsy(s: Option<string>)
  {
    s.None? || s.value == ""
  }

  class VideoDownloader {
    var url: string
    var videoId: Option<string>
    var isLoading: bool
    var videoInfo: Option<VideoInfo>

    /** A video is shown exactly when an ID is stored; the ID is one `extractVideoId` can
        return, and the preview record is the one built from it. */
    ghost predicate Valid()
      reads this
    {
      (videoId.Some? <==> videoInfo.Some?) &&
      (videoId.Some? ==> VideoId.IsVideoId(videoId.value) && videoInfo.value == InfoFor(videoId.value))
    }

    /** The initial state of the four `useState` slots. */
    constructor ()
      ensures Valid()
      ensures url == "" && videoId == None && !isLoading && videoInfo == None
    {
      url := "";
      videoId := None;
      isLoading := false;
      videoInfo := None;
    }

    /** `handleUrlChange`: store the edited text; a blank edit also clears the loaded video. */
    method HandleUrlChange(newUrl: string)
      requires Valid()
      modifies this
      ensures Valid()
      ensures url == newUrl && isLoading == old(isLoading)
      ensures JsText.Trim(newUrl) == "" ==> videoId == None && videoInfo == None
      ensures JsText.Trim(newUrl) != "" ==> videoId == old(videoId) && videoInfo == old(videoInfo)
    {
      url := newUrl;
      if JsText.Trim(newUrl) == "" {
        videoId := None;
        videoInfo := None;
      }
    }

    /** `handleLoadVideo`, taken as one step: a blank `url` changes nothing; otherwise the
        extracted ID, if any, is stored with its preview, and loading ends. */
    method HandleLoadVideo()
      requires Valid()
      modifies this
      ensures Valid()
      ensures url == old(url)
      ensures JsText.Trim(url) == "" ==>
        videoId == old(videoId) && videoInfo == old(videoInfo) && isLoading == old(isLoading)
      ensures JsText.Trim(url) != "" && VideoId.ExtractVideoId(url).None? ==>
        videoId == old(videoId) && videoInfo == old(videoInfo) && !isLoading
      ensures JsText.Trim(url) != "" && VideoId.ExtractVideoId(url).Some? ==>
        videoId == VideoId.ExtractVideoId(url) && !isLoading &&
        videoInfo == Some(InfoFor(videoId.value))
    {
      var link := url;
      if JsText.Trim(link) == "" {
        return;
      }
      isLoading := true;
      var id := VideoId.ExtractVideoId(link);
      Settle(id);
    }

    /** The end of a non-blank load: store a truthy extracted ID with its preview, or keep the
        state when there is none, and end loading. */
    method Settle(id: Option<string>)
      requires Valid()
      requires id.Some? ==> VideoId.IsVideoId(id.value)
      modifies this
      ensures Valid() && url == old(url) && !isLoading
      ensures id.None? ==> videoId == old(videoId) && videoInfo == old(videoInfo)
      ensures id.Some? ==> videoId == id && videoInfo == Some(InfoFor(id.value))
    {
      if Falsy(id) {
        isLoading := false;
        return;
      }
      videoId := id;
      videoInfo := Some(InfoFor(id.value));
      isLoading := false;
    }

    /** `handleDownload`: the address the download service is opened at, or `None` when no
        video is loaded. */
    method HandleDownload() returns (target: Option<string>)
      ensures target.Some? <==> !Falsy(videoId)
      ensures target.Some? ==> target.value == DownloadUrl(videoId.value)
      ensures Valid() ==> (target.Some? <==> videoId.Some?)
    {
      if Falsy(videoId) {
        return None;
      }
      target := Some(DownloadUrl(videoId.value));
    }
  }

  /** A session: paste a recognised link, load it, download it, then blank the field. */
  method Session(link: string, id: string, blank: string)
    requires !JsText.IsBlank(link) && VideoId.ExtractVideoId(link) == Some(id)
    requires JsText.IsBlank(blank)
  {
    var d := new VideoDownloader();
    d.HandleUrlChange(link);
    d.HandleLoadVideo();
    assert d.videoId == Some(id) && !d.isLoading;
    assert d.videoInfo == Some(InfoFor(id));
    var target := d.HandleDownload();
    assert target == Some(DownloadUrl(id));
    d.HandleUrlChange(blank);
    assert d.videoId == None && d.videoInfo == None;
    target := d.HandleDownload();
    assert target == None;
  }
}
