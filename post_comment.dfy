/**
 * The current comment node (components/post-comment/CommentItem.jsx): one
 * comment of a post or video with its lazily loaded replies, its local like
 * state and a reply draft. Every event handler is one atomic step; what the
 * remote store answers is a parameter and what the node asks of other code
 * (the stored reply, the push message) is a result.
 */
module PostComment {
  import opened JsCore
  import opened Comments

  /** Depth up to which replies are shown indented and without an @-mention. */
  const MAX_LEVEL: int := 1
  /** Left padding, in points, of an indented reply container. */
  const INDENT: int := 40

  // ----- Pure rules -----

  /** `paddingLeft` of the container that holds the replies of a node at `level`. */
  function PaddingLeft(level: int): (p: int)
    ensures p == 0 || p == INDENT
    ensures p > 0 <==> level <= MAX_LEVEL
  {
    if level <= MAX_LEVEL then INDENT else 0
  }

  /** Total padding a node at `level` inherits from the reply containers of its ancestors. */
  function IndentAt(level: int): int
    decreases level
  {
    if level <= 1 then 0 else IndentAt(level - 1) + PaddingLeft(level - 1)
  }

  /** Only one step of indentation is ever applied: replies of replies line up with their parent. */
  lemma {:induction false} IndentCapped(level: int)
    requires level >= 1
    ensures IndentAt(level) == if level == 1 then 0 else INDENT
  {
    if level > 2 {
      IndentCapped(level - 1);
    }
  }

  /** The text stored for a reply: prefixed with "@name" and two spaces when nested below MAX_LEVEL. */
  function ReplyContent(level: int, parentUsername: string, replyMsg: string): (r: string)
    ensures level <= MAX_LEVEL ==> r == replyMsg
    ensures level > MAX_LEVEL ==> |r| == |parentUsername| + 3 + |replyMsg| && r[0] == '@'
  {
    if level > MAX_LEVEL then "@" + parentUsername + "  " + replyMsg else replyMsg
  }

  /** Reads the typed message back out of stored content, knowing the depth and the mentioned name. */
  function StripMention(level: int, parentUsername: string, content: string): Option<string> {
    var prefix := "@" + parentUsername + "  ";
    if level <= MAX_LEVEL then Some(content)
    else if |prefix| <= |content| && content[..|prefix|] == prefix then Some(content[|prefix|..])
    else None
  }

  /** The stored content always gives back exactly the message the user typed. */
  lemma MentionRoundTrip(level: int, parentUsername: string, replyMsg: string)
    ensures StripMention(level, parentUsername, ReplyContent(level, parentUsername, replyMsg)) == Some(replyMsg)
  {
  }

  /** The mention is added exactly when the node is nested deeper than MAX_LEVEL. */
  lemma MentionIffNested(level: int, parentUsername: string, replyMsg: string)
    ensures ReplyContent(level, parentUsername, replyMsg) == "@" + parentUsername + "  " + replyMsg
            <==> level > MAX_LEVEL
    ensures ReplyContent(level, parentUsername, replyMsg) == replyMsg <==> level <= MAX_LEVEL
  {
  }

  /** Who may see the delete action: the author, or a user whose e-mail is on the admin list. */
  predicate CanDelete(authorId: string, user: Profile, adminList: Option<seq<string>>) {
    authorId == user.id || (adminList.Some? && user.email in adminList.value)
  }

  /** The push message sent to the parent comment's author after a reply. */
  datatype Push = Push(
    token: string,
    replierName: string,
    body: string,
    videoId: string,
    userId: string,
    rootCommentId: string)

  /** The notification a reply triggers, if any. */
  function Notification(parentAuthor: Profile, replier: Profile, replyMsg: string,
                        videoId: string, rootCommentId: string): (p: Option<Push>)
    ensures p.Some? ==> parentAuthor.pushToken == Some(p.value.token) && Truthy(p.value.token)
    ensures p.Some? ==> parentAuthor.id != replier.id
    ensures p.Some? ==> p.value.body == replyMsg && p.value.rootCommentId == rootCommentId
    ensures p.Some? ==> p.value.videoId == videoId && p.value.userId == replier.id
                        && p.value.replierName == replier.username
    ensures p.None? ==> parentAuthor.pushToken.None? || parentAuthor.pushToken == Some("")
                         || parentAuthor.id == replier.id
  {
    match parentAuthor.pushToken
    case Some(token) =>
      if Truthy(token) && parentAuthor.id != replier.id
      then Some(Push(token, replier.username, replyMsg, videoId, replier.id, rootCommentId))
      else None
    case None => None
  }

  /** A user is never notified of a reply to their own comment. */
  lemma NoSelfNotification(author: Profile, replyMsg: string, videoId: string, rootCommentId: string)
    ensures Notification(author, author, replyMsg, videoId, rootCommentId) == None
  {
  }

  /** The local like state: whether this user liked the comment, and the shown counter. */
  datatype LikeState = LikeState(liked: bool, count: int)

  function OwnLike(liked: bool): int {
    if liked then 1 else 0
  }

  /** `handleClickLike`: the flag flips and the counter follows it by one. */
  function NextLike(s: LikeState): (r: LikeState)
    ensures r.liked == !s.liked
    ensures r.count - OwnLike(r.liked) == s.count - OwnLike(s.liked)
  {
    var liked := !s.liked;
    LikeState(liked, if liked then s.count + 1 else s.count - 1)
  }

  /** Two clicks give back the state before them. */
  lemma LikeTwiceRestores(s: LikeState)
    ensures NextLike(NextLike(s)) == s
  {
  }

  /** The state after `n` clicks. */
  function Clicks(s: LikeState, n: nat): LikeState {
    if n == 0 then s else NextLike(Clicks(s, n - 1))
  }

  /**
   * From the mounted state (not liked, counter 0) the counter only ever
   * shows this user's own like, and an even number of clicks restores it.
   */
  lemma {:induction false} LikeCounterIsOwnLike(n: nat)
    ensures Clicks(LikeState(false, 0), n).count == OwnLike(Clicks(LikeState(false, 0), n).liked)
    ensures Clicks(LikeState(false, 0), n).liked <==> n % 2 == 1
  {
    if n > 0 {
      LikeCounterIsOwnLike(n - 1);
    }
  }

  /** The call `submitReply(content, parentCommentId, user.$id, comment.post_id)`. */
  datatype Submission = Submission(content: string, parentId: Option<string>, userId: string, postId: string)

  /** Every `useState` field of one node. */
  datatype NodeState = NodeState(
    commentId: string,
    repliesCount: int,
    showReplies: bool,
    replies: seq<Comment>,
    loadingReplies: bool,
    liked: bool,
    likeCount: int,
    replyMsg: string,
    parentCommentId: Option<string>,
    parentCommentUserId: Option<string>,
    showReplyModal: bool,
    replySubmitting: bool)

  /** The state a node mounts with. */
  function Mounted(c: Comment): NodeState {
    NodeState(c.id, 0, false, [], false, false, 0, "", None, None, false, false)
  }

  /**
   * One mounted comment node. `parent` is the node whose `handleReplyDeleted`
   * this node received as `onReplyDeleted` (none at the top level), `flag`
   * the refresh flag shared by the whole tree.
   */
  class CommentNode {
    const comment: Comment
    const level: int
    const rootCommentId: string
    const parent: CommentNode?
    const flag: RefreshFlag

    var commentId: string
    var repliesCount: int
    var showReplies: bool
    var replies: seq<Comment>
    var loadingReplies: bool
    var liked: bool
    var likeCount: int
    var replyMsg: string
    var parentCommentId: Option<string>
    var parentCommentUserId: Option<string>
    var showReplyModal: bool
    var replySubmitting: bool

    /**
     * Top-level nodes are at level 1, have no parent node and are their own
     * thread root; a nested node sits one level below its parent node and
     * shares its thread root and refresh flag.
     */
    predicate Valid() {
      && level >= 1
      && (parent == null <==> level == 1)
      && parent != this
      && (parent == null ==> rootCommentId == comment.id)
      && (parent != null ==>
            level == parent.level + 1 && rootCommentId == parent.rootCommentId && flag == parent.flag)
    }

    function State(): NodeState
      reads this
    {
      NodeState(commentId, repliesCount, showReplies, replies, loadingReplies, liked, likeCount,
                replyMsg, parentCommentId, parentCommentUserId, showReplyModal, replySubmitting)
    }

    /** A top-level comment of the list: level 1, and it is its own thread's root. */
    constructor Root(c: Comment, f: RefreshFlag)
      ensures Valid() && comment == c && level == 1 && parent == null && flag == f
      ensures rootCommentId == c.id
      ensures State() == Mounted(c)
    {
      comment, level, rootCommentId, parent, flag := c, 1, c.id, null, f;
      commentId, repliesCount, showReplies, replies, loadingReplies := c.id, 0, false, [], false;
      liked, likeCount, replyMsg := false, 0, "";
      parentCommentId, parentCommentUserId, showReplyModal, replySubmitting := None, None, false, false;
    }

    /** A reply rendered by `p`: one level deeper, same thread root, same refresh flag. */
    constructor Child(c: Comment, p: CommentNode)
      requires p.Valid()
      ensures Valid() && comment == c && level == p.level + 1 && parent == p && flag == p.flag
      ensures rootCommentId == p.rootCommentId
      ensures State() == Mounted(c)
    {
      comment, level, rootCommentId, parent, flag := c, p.level + 1, p.rootCommentId, p, p.flag;
      commentId, repliesCount, showReplies, replies, loadingReplies := c.id, 0, false, [], false;
      liked, likeCount, replyMsg := false, 0, "";
      parentCommentId, parentCommentUserId, showReplyModal, replySubmitting := None, None, false, false;
    }

    /** The render guard: a node whose id was cleared renders nothing. */
    function Renders(): bool
      reads this
    {
      Truthy(commentId)
    }

    /** Whether the delete action is shown to `user`. */
    predicate ShowsDelete(user: Profile, adminList: Option<seq<string>>) {
      CanDelete(comment.authorId, user, adminList)
    }

    /**
     * The effect that runs when `commentId` or the `fetchReplies` prop changes:
     * the count becomes the length of the fetched children.
     */
    method LoadRepliesCount(fetched: seq<Comment>)
      modifies this
      ensures State() == old(State()).(repliesCount := |fetched|)
    {
      repliesCount := |fetched|;
    }

    /** `toggleReplies`: opening loads the fetched children; closing keeps the list. */
    method ToggleReplies(fetched: seq<Comment>)
      modifies this
      ensures showReplies == !old(showReplies)
      ensures replies == if old(showReplies) then old(replies) else fetched
      ensures !old(showReplies) ==> !loadingReplies
      ensures State() == old(State()).(showReplies := showReplies, replies := replies,
                                       loadingReplies := loadingReplies)
      ensures old(showReplies) ==> State() == old(State()).(showReplies := false)
    {
      if !showReplies {
        loadingReplies := true;
        replies := fetched;
        loadingReplies := false;
      }
      showReplies := !showReplies;
    }

    /** `handleReplyDeleted`: one reply fewer, with no lower bound. */
    method HandleReplyDeleted()
      modifies this
      ensures State() == old(State()).(repliesCount := old(repliesCount) - 1)
    {
      repliesCount := repliesCount - 1;
    }

    /**
     * `deleteComment`, given whether the store reported the document deleted
     * (false also for a rejected call). On success the node hides itself and
     * fires exactly one follow-up: a nested node tells its parent node, a
     * top-level node flips the refresh flag.
     */
    method DeleteComment(deleted: bool)
      requires Valid()
      modifies this, parent, flag
      ensures State() == if deleted then old(State()).(commentId := "") else old(State())
      ensures deleted ==> !Renders()
      ensures parent != null ==>
                parent.State() == if deleted then old(parent.State()).(repliesCount := old(parent.repliesCount) - 1)
                                  else old(parent.State())
      ensures flag.value == if deleted && level == 1 then !old(flag.value) else old(flag.value)
    {
      if deleted {
        commentId := "";
        if level != 1 {
          parent.HandleReplyDeleted();
        } else {
          flag.value := !flag.value;
        }
      }
    }

    /** The reply button: the draft will answer this comment and its author. */
    method OpenReply()
      modifies this
      ensures State() == old(State()).(parentCommentId := Some(old(commentId)),
                                       parentCommentUserId := Some(comment.authorId),
                                       showReplyModal := true)
    {
      parentCommentId := Some(commentId);
      parentCommentUserId := Some(comment.authorId);
      showReplyModal := true;
    }

    /** Typing in the reply box. */
    method EditDraft(text: string)
      modifies this
      ensures State() == old(State()).(replyMsg := text)
    {
      replyMsg := text;
    }

    /** Dismissing the reply box keeps the draft and the parent ids. */
    method DismissReply()
      modifies this
      ensures State() == old(State()).(showReplyModal := false)
    {
      showReplyModal := false;
    }

    /**
     * `handleReplySubmit`. `parentUsername` is what the username lookup
     * returned; `parentAuthor` is the parent comment's author as the document
     * and profile lookups returned it, or None when one of them rejected.
     * A blank draft changes nothing. Otherwise the reply is stored and counted;
     * if the lookups then succeed the author may be notified and the draft is
     * reset, and if they reject the handler stops there, still submitting.
     */
    method HandleReplySubmit(parentUsername: string, user: Profile, parentAuthor: Option<Profile>)
      returns (submission: Option<Submission>, push: Option<Push>)
      modifies this, flag
      ensures IsBlank(old(replyMsg)) ==>
                submission == None && push == None && State() == old(State()) && flag.value == old(flag.value)
      ensures !IsBlank(old(replyMsg)) ==>
                submission == Some(Submission(ReplyContent(level, parentUsername, old(replyMsg)),
                                              old(parentCommentId), user.id, comment.postId))
      ensures !IsBlank(old(replyMsg)) && parentAuthor.None? ==>
                push == None && flag.value == old(flag.value) &&
                State() == old(State()).(repliesCount := old(repliesCount) + 1, replySubmitting := true)
      ensures !IsBlank(old(replyMsg)) && parentAuthor.Some? ==>
                push == Notification(parentAuthor.value, user, old(replyMsg), comment.videoId, rootCommentId) &&
                flag.value == !old(flag.value) &&
                State() == old(State()).(repliesCount := old(repliesCount) + 1, replyMsg := "",
                                         parentCommentId := None, parentCommentUserId := None,
                                         showReplyModal := false, replySubmitting := false)
    {
      submission, push := None, None;
      var msg := replyMsg;
      if IsBlank(msg) {
        return;
      }
      replySubmitting := true;
      submission := Some(Submission(ReplyContent(level, parentUsername, msg), parentCommentId, user.id, comment.postId));
      repliesCount := repliesCount + 1;
      if parentAuthor.None? {
        return;
      }
      push := Notification(parentAuthor.value, user, msg, comment.videoId, rootCommentId);
      ResetDraft();
    }

    /** The end of a submit whose lookups succeeded: the draft is reset and the refresh flag flips. */
    method ResetDraft()
      modifies this, flag
      ensures flag.value == !old(flag.value)
      ensures State() == old(State()).(replyMsg := "", parentCommentId := None, parentCommentUserId := None,
                                       showReplyModal := false, replySubmitting := false)
    {
      replyMsg := "";
      parentCommentUserId := None;
      parentCommentId := None;
      showReplyModal := false;
      flag.value := !flag.value;
      replySubmitting := false;
    }

    /** `handleClickLike`. */
    method HandleClickLike()
      modifies this
      ensures LikeState(liked, likeCount) == NextLike(old(LikeState(liked, likeCount)))
      ensures State() == old(State()).(liked := liked, likeCount := likeCount)
    {
      var newLiked := !liked;
      var newCount := if newLiked then likeCount + 1 else likeCount - 1;
      liked := newLiked;
      likeCount := newCount;
    }
  }
}
