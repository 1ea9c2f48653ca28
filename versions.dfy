/**
 * How the rules of the current comment node (PostComment) differ from those
 * of the older one (LegacyComment).
 */
module Versions {
  import opened JsCore
  import opened Comments
  import PostComment
  import LegacyComment

  /**
   * The older tree indents replies one level further: the two agree on the
   * first two levels and differ by one indent from level 3 on.
   */
  lemma IndentDifference(level: int)
    requires level >= 1
    ensures LegacyComment.IndentAt(level) - PostComment.IndentAt(level)
            == if level >= 3 then PostComment.INDENT else 0
  {
  }

  /**
   * The two versions never store the same text for the same reply: at
   * level 1 only the older one adds a mention, and deeper down the mention
   * is followed by two spaces in one and by a line break in the other.
   */
  lemma StoredContentDiffers(level: int, parentUsername: string, replyMsg: string)
    ensures PostComment.ReplyContent(level, parentUsername, replyMsg)
            != LegacyComment.ReplyContent(parentUsername, replyMsg)
  {
  }

  /**
   * The current version only widens who may delete: every author still may,
   * and anyone else who may is on the admin list.
   */
  lemma DeleteRightsWiden(authorId: string, user: Profile, adminList: Option<seq<string>>)
    ensures LegacyComment.CanDelete(authorId, user.id) ==> PostComment.CanDelete(authorId, user, adminList)
    ensures PostComment.CanDelete(authorId, user, adminList) && !LegacyComment.CanDelete(authorId, user.id)
            ==> adminList.Some? && user.email in adminList.value
  {
  }
}
