/** The REST resources the dashboard works with and the nine calls of its API
    client. A view that calls the backend appends the call it makes to its
    own log of sent requests; a call's result reaches the view later, as a
    `Common.Outcome`, through a separate completion step. */
module Api {
  import opened Common

  /** A video record as the backend returns it. `publishedAt` is only ever
      displayed, so it stays an uninterpreted string. */
  datatype Video = Video(
    videoId: string,
    title: string,
    description: string,
    channelTitle: string,
    views: int,
    publishedAt: string)

  /** A comment or a reply. `id` is the server-assigned `_id`; a reply names
      its parent in `parentId`, a top-level comment has none. */
  datatype Comment = Comment(
    id: string,
    videoId: string,
    author: string,
    text: string,
    publishedAt: string,
    isReply: bool,
    parentId: Option<string>)

  /** A note attached to a video. */
  datatype Note = Note(videoId: string, note: string, updatedAt: string)

  /** One call of the API client, with the payload it sends. */
  datatype Request =
    | GetVideoDetails(videoId: string)
    | UpdateVideo(videoId: string, title: string, description: string)
    | GetComments(videoId: string)
    | AddComment(videoId: string, text: string)
    | ReplyToComment(videoId: string, commentId: string, text: string)
    | DeleteComment(commentId: string)
    | GetNotes(videoId: string)
    | AddOrUpdateNote(videoId: string, note: string)
    | DeleteNote(videoId: string)
}
