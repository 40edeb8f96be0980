/** The dashboard shell: the video-ID field, the fetch of the video record
    with its loading and error states, the error toast, and the four tabs
    that show the record once it is loaded. */
module App {
  import opened Common
  import opened Api

  /** The four tab ids: 'details', 'edit', 'comments', 'notes'. */
  datatype Tab = DetailsTab | EditTab | CommentsTab | NotesTab

  /** The toast text set when fetching the video fails. */
  const FetchVideoError: string := "Failed to fetch video details. Check the ID and try again."

  class Shell {
    var videoId: string
    var video: Option<Video>
    var activeTab: Tab
    var loading: bool
    var error: Option<string>
    /** The API calls the shell has made, oldest first. */
    var sent: seq<Request>

    /** The initial state: empty ID field, no video, the Details tab
        selected, not loading, no error. */
    constructor ()
      ensures videoId == "" && video == None && activeTab == DetailsTab
      ensures !loading && error == None && sent == []
      ensures LoadDisabled() && VisibleTab() == None
    {
      videoId, video, activeTab := "", None, DetailsTab;
      loading, error := false, None;
      sent := [];
    }

    /** Typing in the ID field. */
    method EditVideoId(s: string)
      modifies this`videoId
      ensures videoId == s
    {
      videoId := s;
    }

    /** The Load button is disabled while a fetch is in flight or while the
        ID field is blank. */
    predicate LoadDisabled()
      reads this
    {
      loading || IsBlank(videoId)
    }

    /** The tab whose view is rendered, if any: the tab bar and the views
        appear only once a video is loaded and no fetch is in flight. */
    function VisibleTab(): Option<Tab>
      reads this
    {
      if !loading && video.Some? then Some(activeTab) else None
    }

    /** `fetchVideo`, up to the await. A blank ID stops it with no call and no
        change. Otherwise the loading state starts, any previous error is
        cleared and the ID is requested as typed. It does not look at
        `loading`: a second fetch can start while one is in flight. */
    method FetchVideo() returns (issued: bool)
      modifies this`loading, this`error, this`sent
      ensures issued == !IsBlank(videoId)
      ensures !issued ==> loading == old(loading) && error == old(error) && sent == old(sent)
      ensures issued ==> loading && error == None && VisibleTab() == None
      ensures issued ==> sent == old(sent) + [GetVideoDetails(videoId)]
    {
      TrimEmptyIffBlank(videoId);
      if Trim(videoId) == [] {
        return false;
      }
      loading := true;
      error := None;
      sent := sent + [GetVideoDetails(videoId)];
      issued := true;
    }

    /** `fetchVideo`, after the await. Success replaces the video record;
        failure sets the fixed error text and keeps the previous record.
        Loading ends either way, so after a success the active tab's view is
        shown. */
    method CompleteFetchVideo(outcome: Outcome<Video>)
      modifies this`loading, this`error, this`video
      ensures !loading
      ensures outcome.Success? ==> video == Some(outcome.data) && error == old(error)
      ensures outcome.Success? ==> VisibleTab() == Some(activeTab)
      ensures outcome.Failure? ==> video == old(video) && error == Some(FetchVideoError)
    {
      if outcome.Success? {
        video := Some(outcome.data);
      } else {
        error := Some(FetchVideoError);
      }
      loading := false;
    }

    /** A key press in the ID field: Enter runs `fetchVideo` directly,
        whether or not a fetch is in flight; other keys do nothing. */
    method KeyDown(isEnter: bool) returns (issued: bool)
      modifies this`loading, this`error, this`sent
      ensures issued == (isEnter && !IsBlank(videoId))
      ensures !issued ==> loading == old(loading) && error == old(error) && sent == old(sent)
      ensures issued ==> loading && error == None && sent == old(sent) + [GetVideoDetails(videoId)]
    {
      issued := false;
      if isEnter {
        issued := FetchVideo();
      }
    }

    /** A click on the Load button: a disabled button does not react;
        otherwise it runs `fetchVideo`. */
    method ClickLoad() returns (issued: bool)
      modifies this`loading, this`error, this`sent
      ensures issued == !old(LoadDisabled())
      ensures !issued ==> loading == old(loading) && error == old(error) && sent == old(sent)
      ensures issued ==> loading && error == None && sent == old(sent) + [GetVideoDetails(videoId)]
    {
      if LoadDisabled() {
        return false;
      }
      issued := FetchVideo();
    }

    /** A click on a tab: only the active tab changes; the video is not
        refetched. */
    method SelectTab(t: Tab)
      modifies this`activeTab
      ensures activeTab == t
      ensures video == old(video) && sent == old(sent)
      ensures VisibleTab().Some? == old(VisibleTab().Some?)
    {
      activeTab := t;
    }

    /** The editor's `onUpdate`: the record it passes replaces the video
        wholesale. */
    method OnUpdate(updated: Video)
      modifies this`video
      ensures video == Some(updated)
    {
      video := Some(updated);
    }

    /** The toast's dismiss button. */
    method DismissError()
      modifies this`error
      ensures error == None
    {
      error := None;
    }
  }
}
