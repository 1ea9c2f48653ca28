# Comment nodes and trending card of a video/social app, modelled in Dafny

The app shows videos and posts with nested comment threads. Its local logic
lives in three React Native components:

- **The current comment node** (`components/post-comment/CommentItem.jsx`, module
  `PostComment`). It is one comment with lazily loaded replies, a reply counter,
  a local like flag and counter, and a reply draft. Nodes below level 1
  (MAX_LEVEL) get an `@name` plus two spaces in front of their replies. Only
  the reply container of a level-1 node is indented. Deleting a nested node
  decrements its parent's counter; deleting a top-level node flips the
  refresh flag.
- **The older comment node** (`components/comment/CommentItem.jsx`, module
  `LegacyComment`). It has the same shape with other rules:
  - MAX_LEVEL is 2;
  - every reply gets an `@name` line;
  - deleting notifies nobody;
  - submitting leaves the counter alone;
  - a like is only a flag;
  - only the author may delete.
- **The trending card** (`components/TrendingItem.jsx`, module `Trending`).
  The star toggles the video in the signed-in user's favourites (append if
  absent, filter out if present). The play counter counts a play only when
  more than five minutes (300000 ms) have passed since the last one.

Each event handler is one atomic method of a class whose fields are the
component's `useState` fields. Answers from the hosted store, the profile
lookups and the clock are parameters:

- the fetched child list;
- whether the delete succeeded;
- the parent's username and profile;
- `now`.

Calls the component makes to other code are results:

- the `submitReply` call;
- the push message;
- the saved-counter update;
- the play-count update;
- the player route.

Two callbacks that reach into other nodes' state are modelled as shared
objects:

- the refresh flag of an ancestor, as a `RefreshFlag` object shared by a tree;
- a child's `onReplyDeleted`, as its parent node's `HandleReplyDeleted`.

`JsCore` models the JavaScript pieces the handlers depend on:

- `null` as `Option`;
- string truthiness;
- `String.prototype.trim`, with the exact set of code points ECMAScript
  treats as white space and line terminators.

`Versions` states how the two comment-node rule sets differ.

The reply count is not recomputed on every render. `LoadRepliesCount` loads
it from the fetched children when the node mounts and whenever `commentId` or
the `fetchReplies` prop changes. Submit and child deletion then adjust it
locally by +1 and -1.

## Model

| member | source | states |
|---|---|---|
| JsCore.TrimStart | components/post-comment/CommentItem.jsx:139 | the result is a suffix of the text, every dropped character is JS white space, and the result does not start with white space |
| JsCore.TrimEnd | components/post-comment/CommentItem.jsx:139 | the result is a prefix of the text, every dropped character is JS white space, and the result does not end with white space |
| JsCore.Trim | components/post-comment/CommentItem.jsx:139 | the result is no longer than the text, neither starts nor ends with JS white space, and is empty exactly when the text is blank |
| JsCore.TrimFalsyIffBlank | components/post-comment/CommentItem.jsx:139 | `!text.trim()` holds exactly when every character of the draft is white space (the blank test both handlers use) |
| JsCore.TrimKeepsCore | components/comment/CommentItem.jsx:78 | trimming white space around a core that starts and ends with non-white-space gives exactly that core |
| PostComment.IndentCapped | components/post-comment/CommentItem.jsx:65-66 | with paddingLeft 40 only at level <= 1, a node at level 1 inherits no indentation and every deeper node exactly 40 |
| PostComment.PaddingLeft | components/post-comment/CommentItem.jsx:65-66 | the reply container is padded by 0 or 40, and by 40 exactly when level <= MAX_LEVEL (1) |
| PostComment.MentionRoundTrip | components/post-comment/CommentItem.jsx:146-155 | the stored content always gives back exactly the typed message, given the level and the parent's username |
| PostComment.MentionIffNested | components/post-comment/CommentItem.jsx:146-155 | stored content is `"@" + name + "  " + msg` iff level > 1, and is `msg` unchanged iff level <= 1 |
| PostComment.ReplyContent | components/post-comment/CommentItem.jsx:146-155 | at level <= 1 the stored content is the message itself; deeper, it starts with "@" and is longer than the message by the name plus three characters |
| PostComment.CanDelete | components/post-comment/CommentItem.jsx:59-61 | `admin` is true when the user's e-mail is on a loaded admin list; the author or an admin may delete (see Versions.DeleteRightsWiden for how this relates to the older rule) |
| PostComment.Notification | components/post-comment/CommentItem.jsx:170-185 | a push goes only to a truthy token of the parent author, never when that author is the replier, and carries the replier's id and username, the raw message, the video id and the thread's root id; no push means no token, an empty token or a self-reply |
| PostComment.NoSelfNotification | components/post-comment/CommentItem.jsx:170-173 | replying to one's own comment never sends a push |
| PostComment.NextLike | components/post-comment/CommentItem.jsx:203-210 | a click flips `liked` and moves the counter with it: the counter minus the user's own like is unchanged |
| PostComment.LikeTwiceRestores | components/post-comment/CommentItem.jsx:203-210 | two clicks restore the original (liked, likeCount) pair |
| PostComment.LikeCounterIsOwnLike | components/post-comment/CommentItem.jsx:48-49 | from the mounted state (false, 0), after any number of clicks the counter is 1 when liked and 0 otherwise, and liked holds after an odd number of clicks |
| PostComment.CommentNode.Root | components/post-comment/CommentItem.jsx:32-63 | a top-level node is at level 1, has no parent node, is its own thread root, and mounts with its id, zero counts, closed replies and an empty draft |
| PostComment.CommentNode.Child | components/post-comment/CommentItem.jsx:301-312 | a rendered reply is one level deeper, inherits the thread's root id and refresh flag, and reports deletions to the node that rendered it |
| PostComment.CommentNode.Renders | components/post-comment/CommentItem.jsx:219-221 | a node renders only while its id is truthy; DeleteComment states that a successful delete makes it false |
| PostComment.CommentNode.ShowsDelete | components/post-comment/CommentItem.jsx:271 | the delete action is shown exactly when `CanDelete` holds for the comment's author |
| PostComment.CommentNode.LoadRepliesCount | components/post-comment/CommentItem.jsx:78-84 | the counter becomes the length of the fetched child list; nothing else changes |
| PostComment.CommentNode.ToggleReplies | components/post-comment/CommentItem.jsx:96-104 | showReplies is negated; opening loads the fetched list and ends not loading; closing leaves everything else untouched |
| PostComment.CommentNode.HandleReplyDeleted | components/post-comment/CommentItem.jsx:106-108 | the counter drops by exactly one, with no lower bound; nothing else changes |
| PostComment.CommentNode.DeleteComment | components/post-comment/CommentItem.jsx:110-135 | a failed delete changes nothing anywhere; a successful one clears the id, so the node renders nothing, and fires exactly one follow-up: the parent's counter -1 below level 1, a refresh-flag flip at level 1 |
| PostComment.CommentNode.OpenReply | components/post-comment/CommentItem.jsx:257-261 | the draft will answer this comment and its author, and the reply box opens |
| PostComment.CommentNode.EditDraft | components/post-comment/CommentItem.jsx:325-333 | typing replaces the draft only |
| PostComment.CommentNode.DismissReply | components/post-comment/CommentItem.jsx:318-321 | closing the reply box keeps the draft and parent ids |
| PostComment.CommentNode.HandleReplySubmit | components/post-comment/CommentItem.jsx:137-201 | a blank draft changes nothing and sends nothing. Otherwise the reply is stored with the level rule's content and the counter goes up by exactly one. After the parent lookups succeed, the push is sent as `Notification` says, the draft is cleared, both parent ids are nulled, the box closes and the refresh flag flips. If a lookup rejects, the handler stops while still submitting |
| PostComment.CommentNode.ResetDraft | components/post-comment/CommentItem.jsx:188-194 | after a successful submit the draft is emptied, both parent ids are nulled, the box closes, submitting ends and the refresh flag flips; nothing else changes |
| PostComment.CommentNode.HandleClickLike | components/post-comment/CommentItem.jsx:203-217 | (liked, likeCount) moves by `NextLike`; nothing else changes |
| LegacyComment.IndentCapped | components/comment/CommentItem.jsx:28-29 | with paddingLeft 40 at level <= 2, a node inherits 0, 40 and then 80 for every level from 3 on |
| LegacyComment.PaddingLeft | components/comment/CommentItem.jsx:28-29 | the reply container is padded by 0 or 40, and by 40 exactly when level <= MAX_LEVEL (2) |
| LegacyComment.ParseReplyRoundTrip | components/comment/CommentItem.jsx:80-81 | content `"@" + name + "\n" + msg` splits back into the name and the message whenever the name has no line break, at every level |
| LegacyComment.ReplyContent | components/comment/CommentItem.jsx:81 | the stored content is "@", the name, a line break and the message, in that order, with nothing else |
| LegacyComment.CanDelete | components/comment/CommentItem.jsx:128 | only the comment's author may delete |
| LegacyComment.LegacyCommentNode.Root | components/comment/CommentItem.jsx:13-26 | a top-level node is at level 1 and mounts with its id, zero count, not liked, closed replies and an empty draft |
| LegacyComment.LegacyCommentNode.Child | components/comment/CommentItem.jsx:154-166 | a rendered reply is one level deeper and keeps the viewer id and refresh flag |
| LegacyComment.LegacyCommentNode.Renders | components/comment/CommentItem.jsx:90-92 | a node renders only while its id is truthy; DeleteComment states that a successful delete makes it false |
| LegacyComment.LegacyCommentNode.ShowsDelete | components/comment/CommentItem.jsx:128 | the delete action is shown exactly to the viewer who wrote the comment |
| LegacyComment.LegacyCommentNode.LoadRepliesCount | components/comment/CommentItem.jsx:41-47 | the counter equals the length of the fetched child list for the current id |
| LegacyComment.LegacyCommentNode.ToggleReplies | components/comment/CommentItem.jsx:50-58 | showReplies is negated; children are loaded only when opening |
| LegacyComment.LegacyCommentNode.DeleteComment | components/comment/CommentItem.jsx:60-74 | a successful delete clears the id, so the node renders nothing; nothing else changes and no other node is touched |
| LegacyComment.LegacyCommentNode.OpenReply | components/comment/CommentItem.jsx:113-118 | the draft will answer this comment and its author, and the reply box opens |
| LegacyComment.LegacyCommentNode.EditDraft | components/comment/CommentItem.jsx:178-185 | typing replaces the draft only |
| LegacyComment.LegacyCommentNode.DismissReply | components/comment/CommentItem.jsx:171-174 | closing the reply box keeps the draft and parent ids |
| LegacyComment.LegacyCommentNode.HandleReplySubmit | components/comment/CommentItem.jsx:76-88 | a blank draft changes nothing. Otherwise the content is always `"@" + name + "\n" + msg` whatever the level, the draft and parent ids are reset, the box closes, the refresh flag flips and the counter is left alone |
| LegacyComment.LegacyCommentNode.ToggleLike | components/comment/CommentItem.jsx:104-105 | the like button only flips `liked` |
| Trending.Without | components/TrendingItem.jsx:51 | filtering removes every occurrence of the id, keeps every other element, and keeps each other element's multiplicity |
| Trending.WithoutConcat | components/TrendingItem.jsx:51 | filtering distributes over concatenation, so the remaining entries keep their order |
| Trending.WithoutAbsent | components/TrendingItem.jsx:51 | filtering out an id that is not present returns the list unchanged |
| Trending.ToggleFavorite | components/TrendingItem.jsx:35-58 | the id is present afterwards iff it was absent before, no other id's membership changes, and an absent id is appended at the end with the other entries unchanged |
| Trending.SaveThenUnsaveRestores | components/TrendingItem.jsx:35-58 | save then unsave, starting without the id, restores the original list exactly |
| Trending.UnsaveThenSaveMovesToEnd | components/TrendingItem.jsx:35-58 | unsave then save, starting with the id, leaves the list without its duplicates and with the id moved to the end |
| Trending.InitiallySaved | components/TrendingItem.jsx:17 | the card starts saved exactly when a user is signed in and the id is among their favourites |
| Trending.LastPlayTime | components/TrendingItem.jsx:76 | the last play time is the recorded one when there is a record with a time, and 0 otherwise |
| Trending.CooldownPassed | components/TrendingItem.jsx:74-78 | a play counts only when more than 300000 ms have passed since the last one, so a counted play is strictly later than it |
| Trending.PlayerRoute | components/TrendingItem.jsx:89-94 | pressing the card opens `player/play-screen` with the whole video as its `post` parameter |
| Trending.CooldownIsStrict | components/TrendingItem.jsx:73-78 | a play exactly 300000 ms after the last one is not counted; one millisecond later it is |
| Trending.NeverPlayedCountsFromEpoch | components/TrendingItem.jsx:76 | a missing play record, or one without a time, counts as last played at time 0 |
| Trending.TrendingCard.constructor | components/TrendingItem.jsx:16-18 | isSaved starts as whether a signed-in user's favourites contain the id, false when signed out; playCount starts as played_counts or 0 |
| Trending.TrendingCard.HandleAddSaved | components/TrendingItem.jsx:31-70 | signed out, nothing changes and the server is not told. Signed in, the favourites are toggled by `ToggleFavorite` and isSaved equals the id's new membership. The server is told "increment" exactly on the add branch and "decrement" exactly on the remove branch |
| Trending.TrendingCard.HandlePlay | components/TrendingItem.jsx:72-95 | playCount rises by exactly 1, and the new count is sent on, iff now - lastPlayTime > 300000; otherwise it is unchanged. The player route is returned either way |
| Versions.IndentDifference | components/comment/CommentItem.jsx:28-29 | the older tree matches the current one on levels 1 and 2 and indents 40 more from level 3 on |
| Versions.StoredContentDiffers | components/comment/CommentItem.jsx:81 | for the same reply the two versions never store the same text |
| Versions.DeleteRightsWiden | components/post-comment/CommentItem.jsx:271 | every author who could delete in the older version still can. Anyone else who can delete now has an e-mail on the admin list |

## Left out

- Rendering, styles, images, the avatar and username loading (`loadUser`), toasts, alerts, the focus `setTimeout` and the loading overlay are display only. Of the modal, only its open/closed flag is modelled.
- Remote calls are not modelled as code:
  - the store's `deleteDocument` and `getDocument`;
  - `fetchReplies`, `fetchCommentUsername` and `fetchCommentUser`;
  - `submitReply` and `sendPushNotification`;
  - `updateSavedCounts` and `updatePlayData`, which live in a provider that is not part of this model.

  Their answers are parameters and the calls are results. No claim is made about the store, for example that `fetchReplies` returns exactly the children or that deletion cascades.
- Trending.TrendingCard.HandlePlay: the model never advances `lastPlayTime`, because the provider's `updatePlayData` does that. The model therefore states the cooldown test of one press, not that two presses within five minutes count once.
- Handlers are atomic steps. Left out are:
  - interleaving of pending promises, such as a second expand before the first fetch resolves;
  - updates after unmount;
  - the brief `loadingReplies = true` and `replySubmitting = true` states inside a handler.
- PostComment.CommentNode.HandleReplySubmit: a rejected `fetchCommentUsername` or `submitReply` call is not modelled. Only a rejected parent lookup (`getDocument` or `fetchCommentUser`) is.
- LegacyComment.LegacyCommentNode.HandleReplySubmit: a rejected username lookup or `submitReply` call is not modelled.
- PostComment.CommentNode.LoadRepliesCount: a fetch that resolves to `null` or `undefined` is not modelled. In the source that would make the counter `undefined`.
- The notification title is a translated string. The push message carries the replier's username instead of that text.
- Numbers are unbounded integers. The model has no NaN, no floating point, and no `undefined` except where `Option` stands for it. A `played_counts` of 0 and a missing one both give 0, as the source's `|| 0` does.
- Ids are plain strings. A node's `commentId` is never `undefined`, so the render guard is `commentId != ""`.
- The older component assigns its submit handler to an undeclared name. The model treats it as that node's own handler.
- Not part of this model:
  - functions/notifications/index.js (push registration and sending);
  - app/ (screens, navigation, language toggle);
  - context/AppContent.js, lib/clerk/auth.js and services/userService.js;
  - components/comment/CommentView.jsx and components/post/PostItem.jsx (display only).
