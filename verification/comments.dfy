/** The comment view of one video: a flat list of comments fetched from the
    backend, shown as top-level comments each followed by its replies, with a
    compose box for new comments and, per comment, a reply panel and a reply
    draft. Every mutation is followed by a full refetch; nothing is inserted
    or removed locally. */
module Comments {
  import opened Common
  import opened Seqs
  import opened Api

  // ---------------------------------------------------------------------
  // Partition of the fetched list and grouping of replies under parents
  // ---------------------------------------------------------------------

  /** `comments.filter(c => !c.isReply)`: exactly the top-level comments, in
      fetch order. */
  function ParentComments(cs: seq<Comment>): (r: seq<Comment>)
    ensures IsSubsequence(r, cs)
    ensures forall c :: multiset(r)[c] == if c.isReply then 0 else multiset(cs)[c]
  {
    var p := (c: Comment) => !c.isReply;
    FilterCounts(p, cs);
    FilterIsSubsequence(p, cs);
    Filter(p, cs)
  }

  /** `comments.filter(c => c.isReply)`: exactly the replies, in fetch order. */
  function ReplyComments(cs: seq<Comment>): (r: seq<Comment>)
    ensures IsSubsequence(r, cs)
    ensures forall c :: multiset(r)[c] == if c.isReply then multiset(cs)[c] else 0
  {
    var p := (c: Comment) => c.isReply;
    FilterCounts(p, cs);
    FilterIsSubsequence(p, cs);
    Filter(p, cs)
  }

  /** `replies.filter(r => r.parentId === parentId)`: the replies addressed to
      one parent, in the order they were fetched. */
  function RepliesTo(replies: seq<Comment>, parentId: string): (r: seq<Comment>)
    ensures IsSubsequence(r, replies)
    ensures forall c :: multiset(r)[c] == if c.parentId == Some(parentId) then multiset(replies)[c] else 0
  {
    var p := (c: Comment) => c.parentId == Some(parentId);
    FilterCounts(p, replies);
    FilterIsSubsequence(p, replies);
    Filter(p, replies)
  }

  /** One top-level comment as the view renders it, with the replies shown
      under it. */
  datatype Group = Group(parent: Comment, replies: seq<Comment>)

  /** The rendered thread: `parentComments.map(...)`, each top-level comment
      with `replies.filter(r => r.parentId === comment._id)` under it. */
  function Thread(cs: seq<Comment>): seq<Group> {
    var parents := ParentComments(cs);
    var replies := ReplyComments(cs);
    seq(|parents|, i requires 0 <= i < |parents| => Group(parents[i], RepliesTo(replies, parents[i].id)))
  }

  /** The thread has one group per top-level comment, in fetch order; under
      each, exactly the replies whose `parentId` is that comment's id, in
      fetch order, and no other comment. */
  lemma ThreadContents(cs: seq<Comment>)
    ensures |Thread(cs)| == |ParentComments(cs)|
    ensures forall i :: 0 <= i < |Thread(cs)| ==>
              Thread(cs)[i].parent == ParentComments(cs)[i] && !Thread(cs)[i].parent.isReply
    ensures forall i :: 0 <= i < |Thread(cs)| ==> IsSubsequence(Thread(cs)[i].replies, cs)
    ensures forall i, c :: 0 <= i < |Thread(cs)| ==>
              (c in Thread(cs)[i].replies <==> c in cs && c.isReply && c.parentId == Some(Thread(cs)[i].parent.id))
  {
    var parents := ParentComments(cs);
    var replies := ReplyComments(cs);
    var t := Thread(cs);
    forall i | 0 <= i < |t|
      ensures !t[i].parent.isReply
      ensures IsSubsequence(t[i].replies, cs)
      ensures forall c :: c in t[i].replies <==> c in cs && c.isReply && c.parentId == Some(t[i].parent.id)
    {
      GroupFacts(cs, parents, replies, i);
    }
  }

  /** The facts about one group of Thread, proved one group at a time. */
  lemma GroupFacts(cs: seq<Comment>, parents: seq<Comment>, replies: seq<Comment>, i: nat)
    requires parents == ParentComments(cs) && replies == ReplyComments(cs) && i < |parents|
    ensures !parents[i].isReply
    ensures IsSubsequence(RepliesTo(replies, parents[i].id), cs)
    ensures forall c :: c in RepliesTo(replies, parents[i].id) <==>
              c in cs && c.isReply && c.parentId == Some(parents[i].id)
  {
    assert multiset(parents)[parents[i]] > 0;
    var group := RepliesTo(replies, parents[i].id);
    SubsequenceTransitive(group, replies, cs);
    forall c ensures c in group <==> c in cs && c.isReply && c.parentId == Some(parents[i].id) {
      assert c in group <==> multiset(group)[c] > 0;
      assert c in replies <==> multiset(replies)[c] > 0;
    }
  }

  /** A subsequence of a subsequence of `s` is a subsequence of `s`. */
  lemma {:induction false} SubsequenceTransitive(a: seq<Comment>, b: seq<Comment>, s: seq<Comment>)
    requires IsSubsequence(a, b) && IsSubsequence(b, s)
    ensures IsSubsequence(a, s)
    decreases |s|
  {
    if a != [] && s != [] {
      if b[0] == s[0] && IsSubsequence(b[1..], s[1..]) {
        if a[0] == b[0] && IsSubsequence(a[1..], b[1..]) {
          SubsequenceTransitive(a[1..], b[1..], s[1..]);
        } else {
          SubsequenceTransitive(a, b[1..], s[1..]);
        }
      } else {
        SubsequenceTransitive(a, b, s[1..]);
      }
    }
  }

  /** Parents and replies together are a permutation of the fetched list:
      the partition loses and duplicates nothing. */
  lemma PartitionIsPermutation(cs: seq<Comment>)
    ensures multiset(ParentComments(cs)) + multiset(ReplyComments(cs)) == multiset(cs)
  {
    var whole := multiset(ParentComments(cs)) + multiset(ReplyComments(cs));
    forall c ensures whole[c] == multiset(cs)[c] {
    }
  }

  /** Splitting is idempotent: splitting the list already arranged as
      "parents, then replies" gives back the same parents and replies, and
      so the same rendered thread. */
  lemma {:induction false} ThreadOfPartition(cs: seq<Comment>)
    ensures ParentComments(ParentComments(cs) + ReplyComments(cs)) == ParentComments(cs)
    ensures ReplyComments(ParentComments(cs) + ReplyComments(cs)) == ReplyComments(cs)
    ensures Thread(ParentComments(cs) + ReplyComments(cs)) == Thread(cs)
  {
    var isParent := (c: Comment) => !c.isReply;
    var isReply := (c: Comment) => c.isReply;
    var parents, replies := ParentComments(cs), ReplyComments(cs);
    forall i | 0 <= i < |parents| ensures !parents[i].isReply {
      assert multiset(parents)[parents[i]] > 0;
    }
    forall i | 0 <= i < |replies| ensures replies[i].isReply {
      assert multiset(replies)[replies[i]] > 0;
    }
    FilterAppend(isParent, parents, replies);
    FilterAll(isParent, parents);
    FilterNone(isParent, replies);
    assert ParentComments(parents + replies) == parents;
    FilterAppend(isReply, parents, replies);
    FilterNone(isReply, parents);
    FilterAll(isReply, replies);
    assert ReplyComments(parents + replies) == replies;
  }

  /** A reply whose `parentId` names no top-level comment of the list is
      shown nowhere. */
  lemma OrphanReplyHidden(cs: seq<Comment>, r: Comment)
    requires r in cs && r.isReply
    requires forall c :: c in cs && !c.isReply ==> r.parentId != Some(c.id)
    ensures forall i :: 0 <= i < |Thread(cs)| ==> r !in Thread(cs)[i].replies
  {
    ThreadContents(cs);
  }

  /** The list `[a, b]` with `b` a reply to `a` renders as one parent with one
      nested reply. */
  lemma OneParentOneReply(a: Comment, b: Comment)
    requires !a.isReply && b.isReply && b.parentId == Some(a.id)
    ensures Thread([a, b]) == [Group(a, [b])]
  {
    var cs := [a, b];
    assert cs[1..] == [b] && cs[1..][1..] == [];
    assert ParentComments(cs) == [a];
    assert ReplyComments([b]) == [b];
    assert ReplyComments(cs) == [] + ReplyComments([b]);
    assert RepliesTo([b], a.id) == [b];
  }

  // ---------------------------------------------------------------------
  // Per-comment reply drafts and reply panels
  // ---------------------------------------------------------------------

  /** `replyText[id] || ''`: a missing draft reads as the empty string. */
  function DraftOf(m: map<string, string>, id: string): string {
    if id in m then m[id] else ""
  }

  /** `!!showReply[id]`: a missing entry reads as a closed panel. */
  function IsOpen(m: map<string, bool>, id: string): bool {
    id in m && m[id]
  }

  /** `{ ...showReply, [id]: !showReply[id] }`: the panel of `id` flips, a
      missing entry counting as closed, and every other entry is kept. */
  function Toggled(m: map<string, bool>, id: string): (r: map<string, bool>)
    ensures IsOpen(r, id) == !IsOpen(m, id)
    ensures id in r && r - {id} == m - {id}
  {
    m[id := !IsOpen(m, id)]
  }

  /** Toggling a panel twice leaves every panel as it was seen before. */
  lemma ToggleTwice(m: map<string, bool>, id: string, k: string)
    ensures IsOpen(Toggled(Toggled(m, id), id), k) == IsOpen(m, k)
  {
    if k != id {
      assert k in Toggled(m, id) - {id} <==> k in m - {id};
    }
  }

  /** What the `addReply` handler captured when it ran: the comment replied
      to, the text it sent, and the two per-comment maps as they were then.
      Its continuation spreads these captured maps, not the ones current
      when the call settles. */
  datatype ReplyCall = ReplyCall(
    commentId: string,
    text: string,
    replyText: map<string, string>,
    showReply: map<string, bool>)

  // ---------------------------------------------------------------------
  // The component's state and handlers
  // ---------------------------------------------------------------------

  class CommentThread {
    var videoId: string
    var comments: seq<Comment>
    var newComment: string
    var replyText: map<string, string>
    var showReply: map<string, bool>
    var loading: bool
    /** The API calls this view has made, oldest first. */
    var sent: seq<Request>

    /** Mounting: empty state, and the mount effect's fetch of the comments. */
    constructor (videoId: string)
      ensures this.videoId == videoId && comments == [] && newComment == ""
      ensures replyText == map[] && showReply == map[] && !loading
      ensures sent == [GetComments(videoId)]
    {
      this.videoId := videoId;
      comments, newComment := [], "";
      replyText, showReply := map[], map[];
      loading := false;
      sent := [GetComments(videoId)];
    }

    /** A new `videoId` prop: the effect fetches again only when it differs
        from the previous one; local state is kept. */
    method ChangeVideoId(v: string)
      modifies this`videoId, this`sent
      ensures videoId == v
      ensures sent == if v == old(videoId) then old(sent) else old(sent) + [GetComments(v)]
    {
      if v != videoId {
        videoId := v;
        FetchComments();
      }
    }

    /** `fetchComments`, up to the await: one GET of this video's comments. */
    method FetchComments()
      modifies this`sent
      ensures sent == old(sent) + [GetComments(videoId)]
    {
      sent := sent + [GetComments(videoId)];
    }

    /** `fetchComments`, after the await: the fetched list replaces the local
        one wholesale; a failed fetch is only logged and changes nothing. */
    method ReceiveComments(outcome: Outcome<seq<Comment>>)
      modifies this`comments
      ensures outcome.Success? ==> comments == outcome.data
      ensures outcome.Failure? ==> comments == old(comments)
    {
      if outcome.Success? {
        comments := outcome.data;
      }
    }

    /** Typing in the compose box. */
    method EditNewComment(s: string)
      modifies this`newComment
      ensures newComment == s
    {
      newComment := s;
    }

    /** The Post button is enabled when nothing is being posted and the
        compose box is not blank. */
    predicate CanPost()
      reads this
    {
      !loading && !IsBlank(newComment)
    }

    /** `addComment`, up to the await. A blank compose box stops it with no
        call and no change; otherwise `loading` is raised and the text is sent
        as typed. */
    method BeginAddComment() returns (issued: bool)
      modifies this`loading, this`sent
      ensures issued == !IsBlank(newComment)
      ensures !issued ==> loading == old(loading) && sent == old(sent)
      ensures issued ==> loading && !CanPost() && sent == old(sent) + [AddComment(videoId, newComment)]
    {
      TrimEmptyIffBlank(newComment);
      if Trim(newComment) == [] {
        return false;
      }
      loading := true;
      sent := sent + [AddComment(videoId, newComment)];
      issued := true;
    }

    /** `addComment`, after the await. Success clears the compose box and
        refetches; failure keeps the text. Either way `loading` drops. */
    method CompleteAddComment(outcome: Outcome<()>)
      modifies this`loading, this`newComment, this`sent
      ensures !loading
      ensures outcome.Success? ==> newComment == "" && sent == old(sent) + [GetComments(videoId)]
      ensures outcome.Failure? ==> newComment == old(newComment) && sent == old(sent)
    {
      if outcome.Success? {
        newComment := "";
        FetchComments();
      }
      loading := false;
    }

    /** Typing in the reply box of comment `id`: only that draft changes. */
    method EditReply(id: string, s: string)
      modifies this`replyText
      ensures DraftOf(replyText, id) == s
      ensures id in replyText && replyText - {id} == old(replyText) - {id}
    {
      replyText := replyText[id := s];
    }

    /** The Reply button of comment `id`: flips only that panel. */
    method ToggleReply(id: string)
      modifies this`showReply
      ensures showReply == Toggled(old(showReply), id)
      ensures IsOpen(showReply, id) == !IsOpen(old(showReply), id)
    {
      showReply := Toggled(showReply, id);
    }

    /** The Cancel button of comment `id`: closes only that panel. */
    method CancelReply(id: string)
      modifies this`showReply
      ensures !IsOpen(showReply, id)
      ensures id in showReply && showReply - {id} == old(showReply) - {id}
    {
      showReply := showReply[id := false];
    }

    /** `addReply(id)`, up to the await. A missing or blank draft stops it
        with no call; otherwise the draft is sent as typed, and the handler's
        captured state is returned for its continuation. */
    method BeginAddReply(id: string) returns (call: Option<ReplyCall>)
      modifies this`sent
      ensures call.Some? <==> !IsBlank(DraftOf(replyText, id))
      ensures call.None? ==> sent == old(sent)
      ensures call.Some? ==>
                && call.value == ReplyCall(id, replyText[id], replyText, showReply)
                && sent == old(sent) + [ReplyToComment(videoId, id, replyText[id])]
    {
      if id !in replyText {
        return None;
      }
      var text := replyText[id];
      TrimEmptyIffBlank(text);
      if Trim(text) == [] {
        return None;
      }
      sent := sent + [ReplyToComment(videoId, id, text)];
      call := Some(ReplyCall(id, text, replyText, showReply));
    }

    /** `addReply`, after the await. Success empties the draft and closes the
        panel of the comment replied to, keeps every other entry of the maps
        captured when the handler ran, and refetches. Failure changes
        nothing. */
    method CompleteAddReply(call: ReplyCall, outcome: Outcome<()>)
      modifies this`replyText, this`showReply, this`sent
      ensures outcome.Success? ==>
                && DraftOf(replyText, call.commentId) == "" && !IsOpen(showReply, call.commentId)
                && call.commentId in replyText && replyText - {call.commentId} == call.replyText - {call.commentId}
                && call.commentId in showReply && showReply - {call.commentId} == call.showReply - {call.commentId}
                && sent == old(sent) + [GetComments(videoId)]
      ensures outcome.Failure? ==>
                replyText == old(replyText) && showReply == old(showReply) && sent == old(sent)
    {
      if outcome.Success? {
        replyText := call.replyText[call.commentId := ""];
        showReply := call.showReply[call.commentId := false];
        FetchComments();
      }
    }

    /** `deleteComment(id)`, up to the await. Declining the confirmation
        makes no call; confirming sends one DELETE for that id. */
    method BeginDeleteComment(id: string, confirmed: bool) returns (issued: bool)
      modifies this`sent
      ensures issued == confirmed
      ensures sent == if confirmed then old(sent) + [DeleteComment(id)] else old(sent)
    {
      issued := confirmed;
      if confirmed {
        sent := sent + [DeleteComment(id)];
      }
    }

    /** `deleteComment`, after the await. Success refetches; nothing is
        removed locally, so a deleted parent's replies stay until the
        refetch settles. Failure changes nothing. */
    method CompleteDeleteComment(outcome: Outcome<()>)
      modifies this`sent
      ensures comments == old(comments)
      ensures sent == if outcome.Success? then old(sent) + [GetComments(videoId)] else old(sent)
    {
      if outcome.Success? {
        FetchComments();
      }
    }
  }
}
