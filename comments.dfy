/**
 * Entities shared by both versions of the comment node: the comment
 * document, the user profile and the refresh flag an ancestor owns.
 */
module Comments {
  import opened JsCore

  /**
   * A comment document of the remote collection. `authorId` is
   * `creator.$id` in the current component and `user_ID` in the older one.
   */
  datatype Comment = Comment(
    id: string,
    authorId: string,
    content: string,
    postId: string,
    videoId: string)

  /** A user profile as the profile lookup returns it. */
  datatype Profile = Profile(
    id: string,
    username: string,
    email: string,
    pushToken: Option<string>)

  /**
   * The boolean an ancestor passes down as `setRefreshFlag`; every node of
   * one tree shares the same flag, and flipping it asks the ancestor to
   * fetch the comment list again.
   */
  class RefreshFlag {
    var value: bool

    constructor (initial: bool)
      ensures value == initial
    {
      value := initial;
    }
  }
}
