/** The video player's local interactions: a like toggle and a comment
    list that a new comment is prepended to. Both need a signed-in user;
    nothing is written to the document store. */
module VideoPlayer {
  import opened Common

  const LIKE_LOGIN_ALERT: string := "Please login to like videos"
  const COMMENT_LOGIN_ALERT: string := "Please login to comment"
  const ANONYMOUS: string := "Anonymous"
  const DEFAULT_AVATAR: string := "https://i.postimg.cc/SRYzJxw9/brown-breast-female.png?w=100&auto=format&fit=crop"

  /** The fields of the signed-in user a comment takes. */
  datatype CurrentUser = CurrentUser(displayName: Option<string>, photoURL: Option<string>)

  datatype Comment = Comment(id: string, text: string, likes: nat, createdAt: string, userName: string, avatar: string)

  /** The comment button is disabled. */
  predicate CommentDisabled(text: string) {
    IsBlank(text)
  }

  /** The comment `handleAddComment` builds at time `now` (milliseconds,
      and its ISO rendering `nowIso`). */
  function NewComment(u: CurrentUser, text: string, now: nat, nowIso: string): (c: Comment)
    ensures c.text == text && c.likes == 0 && c.createdAt == nowIso
    ensures IsDecimal(c.id) && DecimalValue(c.id) == now
    ensures c.userName == (if Present(u.displayName) then u.displayName.value else ANONYMOUS)
    ensures c.avatar == (if Present(u.photoURL) then u.photoURL.value else DEFAULT_AVATAR)
  {
    NatToStringValue(now);
    Comment(NatToString(now), text, 0, nowIso, StringOr(u.displayName, ANONYMOUS), StringOr(u.photoURL, DEFAULT_AVATAR))
  }

  class Player {
    var liked: bool
    var comments: seq<Comment>
    var commentText: string

    constructor (loaded: seq<Comment>)
      ensures !liked && comments == loaded && commentText == ""
    {
      liked, comments, commentText := false, loaded, "";
    }

    /** The comment box's `onChange`. */
    method EditComment(text: string)
      modifies this`commentText
      ensures commentText == text
    {
      commentText := text;
    }

    /** `handleLike`, returning the alert it shows. */
    method HandleLike(user: Option<CurrentUser>) returns (alert: Option<string>)
      modifies this`liked
      ensures user.None? ==> alert == Some(LIKE_LOGIN_ALERT) && liked == old(liked)
      ensures user.Some? ==> alert.None? && liked == !old(liked)
    {
      if user.None? {
        return Some(LIKE_LOGIN_ALERT);
      }
      liked := !liked;
      alert := None;
    }

    /** `handleAddComment`, returning the alert it shows. The new comment
        keeps the text as typed, surrounding spaces included. */
    method HandleAddComment(user: Option<CurrentUser>, now: nat, nowIso: string) returns (alert: Option<string>)
      modifies this`comments, this`commentText
      ensures user.None? ==>
        alert == Some(COMMENT_LOGIN_ALERT) && comments == old(comments) && commentText == old(commentText)
      ensures user.Some? ==> alert.None?
      ensures user.Some? && CommentDisabled(old(commentText)) ==>
        comments == old(comments) && commentText == old(commentText)
      ensures user.Some? && !CommentDisabled(old(commentText)) ==>
        && |comments| == |old(comments)| + 1
        && comments[0] == NewComment(user.value, old(commentText), now, nowIso)
        && comments[1..] == old(comments)
        && commentText == ""
        // the emptied box disables the button until more is typed
        && CommentDisabled(commentText)
    {
      if user.None? {
        return Some(COMMENT_LOGIN_ALERT);
      }
      alert := None;
      if IsBlank(commentText) {
        return;
      }
      comments := [NewComment(user.value, commentText, now, nowIso)] + comments;
      commentText := "";
    }
  }

  /** Whitespace-only text keeps the button disabled. */
  lemma WhitespaceDisables(text: string)
    requires AllWhitespace(text)
    ensures CommentDisabled(text)
  {
    BlankIffAllWhitespace(text);
  }
}
