/** The editor view: local drafts of a video's title and description,
    seeded once when the view is mounted, and a Save that replaces both
    fields on the backend and hands the returned record to the shell. */
module Editor {
  import opened Common
  import opened Api
  import App

  class VideoEditor {
    /** Receiver of the `onUpdate` callback. */
    const owner: App.Shell
    /** The `video` prop. */
    var video: Video
    var title: string
    var description: string
    var saving: bool
    /** The API calls this view has made, oldest first. */
    var sent: seq<Request>

    /** Mounting: the drafts start as the video's title and description. */
    constructor (video: Video, owner: App.Shell)
      ensures this.video == video && this.owner == owner
      ensures title == video.title && description == video.description
      ensures !saving && sent == []
    {
      this.video, this.owner := video, owner;
      title, description := video.title, video.description;
      saving, sent := false, [];
    }

    /** A new `video` prop while mounted: the drafts are not re-seeded. */
    method ReceiveVideo(v: Video)
      modifies this`video
      ensures video == v
      ensures title == old(title) && description == old(description)
    {
      video := v;
    }

    /** Typing in the title field. */
    method EditTitle(s: string)
      modifies this`title
      ensures title == s
    {
      title := s;
    }

    /** Typing in the description field. */
    method EditDescription(s: string)
      modifies this`description
      ensures description == s
    {
      description := s;
    }

    /** The Save button is disabled while a save is in flight. */
    predicate CanSave()
      reads this
    {
      !saving
    }

    /** `handleSave`, up to the await: `saving` is raised and both drafts are
        sent as they are, with no check that they are non-blank. */
    method BeginSave()
      modifies this`saving, this`sent
      ensures saving && !CanSave()
      ensures sent == old(sent) + [UpdateVideo(video.videoId, title, description)]
    {
      saving := true;
      sent := sent + [UpdateVideo(video.videoId, title, description)];
    }

    /** `handleSave`, after the await. Only on success is `onUpdate` called,
        with the record the server returned; the drafts are left as they
        are and `saving` drops either way. */
    method CompleteSave(outcome: Outcome<Video>)
      modifies this`saving, owner`video
      ensures !saving
      ensures title == old(title) && description == old(description)
      ensures outcome.Success? ==> owner.video == Some(outcome.data)
      ensures outcome.Failure? ==> owner.video == old(owner.video)
    {
      if outcome.Success? {
        owner.OnUpdate(outcome.data);
      }
      saving := false;
    }
  }

  /** The edit scenario: with `v` loaded in the shell, opening the editor,
      changing the title and saving sends the new title with the original
      description, and the shell then holds the record the server returned. */
  method RenameVideo(shell: App.Shell, v: Video, newTitle: string, returned: Video)
      returns (editor: VideoEditor)
    requires shell.video == Some(v)
    modifies shell`video
    ensures editor.sent == [UpdateVideo(v.videoId, newTitle, v.description)]
    ensures editor.title == newTitle && editor.description == v.description && !editor.saving
    ensures shell.video == Some(returned)
  {
    editor := new VideoEditor(v, shell);
    editor.EditTitle(newTitle);
    editor.BeginSave();
    editor.CompleteSave(Success(returned));
  }
}
