/**
 * The older comment node (components/comment/CommentItem.jsx). Same shape
 * as the current one, with its own rules: indentation for two levels, an
 * "@name" line always prepended to a reply, no reply counter bookkeeping,
 * no parent notification on delete, and a like that is only a flag.
 */
module LegacyComment {
  import opened JsCore
  import opened Comments

  /** Depth up to which the reply container is indented. */
  const MAX_LEVEL: int := 2
  /** Left padding, in points, of an indented reply container. */
  const INDENT: int := 40

  /** `paddingLeft` of the container that holds the replies of a node at `level`. */
  function PaddingLeft(level: int): (p: int)
    ensures p == 0 || p == INDENT
    ensures p > 0 <==> level <= MAX_LEVEL
  {
    if level <= MAX_LEVEL then INDENT else 0
  }

  /** Total padding a node at `level` inherits from the reply containers of its ancestors. */
  function IndentAt(level: int): int
    decreases level
  {
    if level <= 1 then 0 else IndentAt(level - 1) + PaddingLeft(level - 1)
  }

  /** Two steps of indentation at most: replies of a depth-3 node line up with it. */
  lemma {:induction false} IndentCapped(level: int)
    requires level >= 1
    ensures IndentAt(level) == INDENT * (if level <= 3 then level - 1 else 2)
  {
    if level > 1 {
      IndentCapped(level - 1);
    }
  }

  /** The text stored for a reply, at every depth: "@name", a line break, then the message. */
  function ReplyContent(parentUsername: string, replyMsg: string): (r: string)
    ensures |r| == |parentUsername| + 2 + |replyMsg|
    ensures r[0] == '@' && r[1..|parentUsername| + 1] == parentUsername
    ensures r[|parentUsername| + 1] == '\n' && r[|parentUsername| + 2..] == replyMsg
  {
    "@" + parentUsername + "\n" + replyMsg
  }

  /** Index of the first line break in `s`, if any. */
  function FirstNewline(s: string): (k: Option<nat>)
    ensures k.Some? ==> k.value < |s| && s[k.value] == '\n'
    ensures k.Some? ==> forall i :: 0 <= i < k.value ==> s[i] != '\n'
    ensures k.None? ==> forall i :: 0 <= i < |s| ==> s[i] != '\n'
  {
    if s == [] then None
    else if s[0] == '\n' then Some(0)
    else match FirstNewline(s[1..])
      case Some(j) => Some(j + 1)
      case None => None
  }

  /** Splits stored content into the mentioned name and the message. */
  function ParseReply(content: string): Option<(string, string)> {
    if content == [] || content[0] != '@' then None
    else match FirstNewline(content[1..])
      case Some(k) => Some((content[1..k + 1], content[k + 2..]))
      case None => None
  }

  /**
   * A mentioned name without a line break is recovered together with the
   * message, whatever the message holds (line breaks included).
   */
  lemma {:induction false} ParseReplyRoundTrip(parentUsername: string, replyMsg: string)
    requires forall i :: 0 <= i < |parentUsername| ==> parentUsername[i] != '\n'
    ensures ParseReply(ReplyContent(parentUsername, replyMsg)) == Some((parentUsername, replyMsg))
  {
    var content := ReplyContent(parentUsername, replyMsg);
    var tail := content[1..];
    assert tail == parentUsername + "\n" + replyMsg;
    NewlineAfter(parentUsername, replyMsg);
    var k := |parentUsername|;
    assert content[1..k + 1] == parentUsername;
    assert content[k + 2..] == replyMsg;
  }

  lemma {:induction false} NewlineAfter(name: string, rest: string)
    requires forall i :: 0 <= i < |name| ==> name[i] != '\n'
    ensures FirstNewline(name + "\n" + rest) == Some(|name|)
  {
    if name != [] {
      assert (name + "\n" + rest)[1..] == name[1..] + "\n" + rest;
      NewlineAfter(name[1..], rest);
    }
  }

  /** Only the comment's author sees the delete action. */
  predicate CanDelete(authorId: string, userId: string) {
    authorId == userId
  }

  /** The call `submitReply(content, parentCommentId)`. */
  datatype Submission = Submission(content: string, parentId: Option<string>)

  /** Every `useState` field of one node. */
  datatype NodeState = NodeState(
    commentId: string,
    repliesCount: int,
    showReplies: bool,
    replies: seq<Comment>,
    loadingReplies: bool,
    liked: bool,
    replyMsg: string,
    parentCommentId: Option<string>,
    parentCommentUserId: Option<string>,
    showReplyModal: bool)

  /** The state a node mounts with. */
  function Mounted(c: Comment): NodeState {
    NodeState(c.id, 0, false, [], false, false, "", None, None, false)
  }

  /** One mounted comment node of the older tree; `userId` is the viewer passed down as a prop. */
  class LegacyCommentNode {
    const comment: Comment
    const level: int
    const userId: string
    const flag: RefreshFlag

    var commentId: string
    var repliesCount: int
    var showReplies: bool
    var replies: seq<Comment>
    var loadingReplies: bool
    var liked: bool
    var replyMsg: string
    var parentCommentId: Option<string>
    var parentCommentUserId: Option<string>
    var showReplyModal: bool

    function State(): NodeState
      reads this
    {
      NodeState(commentId, repliesCount, showReplies, replies, loadingReplies, liked,
                replyMsg, parentCommentId, parentCommentUserId, showReplyModal)
    }

    /** A top-level comment: level 1. */
    constructor Root(c: Comment, viewer: string, f: RefreshFlag)
      ensures comment == c && level == 1 && userId == viewer && flag == f
      ensures State() == Mounted(c)
    {
      comment, level, userId, flag := c, 1, viewer, f;
      commentId, repliesCount, showReplies, replies, loadingReplies := c.id, 0, false, [], false;
      liked, replyMsg := false, "";
      parentCommentId, parentCommentUserId, showReplyModal := None, None, false;
    }

    /** A reply rendered by `p`: one level deeper, same viewer, same refresh flag. */
    constructor Child(c: Comment, p: LegacyCommentNode)
      ensures comment == c && level == p.level + 1 && userId == p.userId && flag == p.flag
      ensures State() == Mounted(c)
    {
      comment, level, userId, flag := c, p.level + 1, p.userId, p.flag;
      commentId, repliesCount, showReplies, replies, loadingReplies := c.id, 0, false, [], false;
      liked, replyMsg := false, "";
      parentCommentId, parentCommentUserId, showReplyModal := None, None, false;
    }

    /** The render guard: a node whose id was cleared renders nothing. */
    function Renders(): bool
      reads this
    {
      Truthy(commentId)
    }

    /** Whether the delete action is shown. */
    predicate ShowsDelete() {
      CanDelete(comment.authorId, userId)
    }

    /**
     * The effect that runs when `commentId` or the `fetchReplies` prop changes:
     * the count becomes the length of the fetched children.
     */
    method LoadRepliesCount(fetched: seq<Comment>)
      modifies this
      ensures State() == old(State()).(repliesCount := |fetched|)
    {
      repliesCount := |fetched|;
    }

    /** `toggleReplies`: opening loads the fetched children; closing keeps the list. */
    method ToggleReplies(fetched: seq<Comment>)
      modifies this
      ensures showReplies == !old(showReplies)
      ensures replies == if old(showReplies) then old(replies) else fetched
      ensures !old(showReplies) ==> !loadingReplies
      ensures State() == old(State()).(showReplies := showReplies, replies := replies,
                                       loadingReplies := loadingReplies)
      ensures old(showReplies) ==> State() == old(State()).(showReplies := false)
    {
      if !showReplies {
        loadingReplies := true;
        replies := fetched;
        loadingReplies := false;
      }
      showReplies := !showReplies;
    }

    /** `deleteComment`: on success the node hides itself and tells nobody. */
    method DeleteComment(deleted: bool)
      modifies this
      ensures State() == if deleted then old(State()).(commentId := "") else old(State())
      ensures deleted ==> !Renders()
    {
      if deleted {
        commentId := "";
      }
    }

    /** The reply button: the draft will answer this comment and its author. */
    method OpenReply()
      modifies this
      ensures State() == old(State()).(parentCommentId := Some(old(commentId)),
                                       parentCommentUserId := Some(comment.authorId),
                                       showReplyModal := true)
    {
      parentCommentId := Some(commentId);
      parentCommentUserId := Some(comment.authorId);
      showReplyModal := true;
    }

    /** Typing in the reply box. */
    method EditDraft(text: string)
      modifies this
      ensures State() == old(State()).(replyMsg := text)
    {
      replyMsg := text;
    }

    /** Dismissing the reply box keeps the draft and the parent ids. */
    method DismissReply()
      modifies this
      ensures State() == old(State()).(showReplyModal := false)
    {
      showReplyModal := false;
    }

    /**
     * `handleReplySubmit`, given the username lookup's answer. A blank draft
     * changes nothing; otherwise the reply is stored with its "@name" line,
     * the draft is reset and the refresh flag flips. The reply counter is
     * left alone.
     */
    method HandleReplySubmit(parentUsername: string) returns (submission: Option<Submission>)
      modifies this, flag
      ensures IsBlank(old(replyMsg)) ==>
                submission == None && State() == old(State()) && flag.value == old(flag.value)
      ensures !IsBlank(old(replyMsg)) ==>
                submission == Some(Submission(ReplyContent(parentUsername, old(replyMsg)), old(parentCommentId))) &&
                flag.value == !old(flag.value) &&
                State() == old(State()).(replyMsg := "", parentCommentId := None,
                                         parentCommentUserId := None, showReplyModal := false)
    {
      submission := None;
      var msg := replyMsg;
      if IsBlank(msg) {
        return;
      }
      submission := Some(Submission(ReplyContent(parentUsername, msg), parentCommentId));
      replyMsg := "";
      parentCommentUserId := None;
      parentCommentId := None;
      showReplyModal := false;
      flag.value := !flag.value;
    }

    /** The like button only flips the flag. */
    method ToggleLike()
      modifies this
      ensures State() == old(State()).(liked := !old(liked))
    {
      liked := !liked;
    }
  }
}
