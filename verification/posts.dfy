/**
 * The in-memory list work of the post routes: liking, unliking, commenting
 * and deleting a comment on one post. A post's `likes` and `comments` arrays
 * are changed in place (`unshift`, `splice`) before the post is saved.
 */
module Posts {
  import opened Api

  type CommentId = string

  /** An entry of `post.likes`. */
  datatype Like = Like(user: UserId)

  /** An entry of `post.comments`; `user`, `name` and `avatar` are the commenter's. */
  datatype Comment = Comment(id: CommentId, user: UserId, text: string, name: string, avatar: string)

  /** `likes.map(like => like.user)` */
  function Likers(likes: seq<Like>): seq<UserId> {
    seq(|likes|, i requires 0 <= i < |likes| => likes[i].user)
  }

  /** `comments.map(item => item.id)` */
  function CommentIds(comments: seq<Comment>): seq<CommentId> {
    seq(|comments|, i requires 0 <= i < |comments| => comments[i].id)
  }

  /**
   * `likes.filter(like => like.user === u)`: only likes by `u`, and at least
   * one exactly when `u` is among the likers.
   */
  function LikesBy(likes: seq<Like>, u: UserId): (r: seq<Like>)
    ensures |r| <= |likes|
    ensures forall i :: 0 <= i < |r| ==> r[i] == Like(u)
    ensures |r| > 0 <==> u in Likers(likes)
  {
    if likes == [] then []
    else
      assert Likers(likes) == [likes[0].user] + Likers(likes[1..]);
      (if likes[0].user == u then [likes[0]] else []) + LikesBy(likes[1..], u)
  }

  /** The check both like handlers make: the filter above is non-empty. */
  predicate HasLiked(likes: seq<Like>, u: UserId) {
    |LikesBy(likes, u)| > 0
  }

  /** Every user appears at most once among the likes. */
  predicate UniqueLikers(likes: seq<Like>) {
    forall i, j :: 0 <= i < j < |likes| ==> likes[i].user != likes[j].user
  }

  /** `s.indexOf(x)`: the first position holding `x`, or -1 when there is none. */
  function IndexOf<T(==)>(s: seq<T>, x: T): (r: int)
    ensures -1 <= r < |s|
    ensures r == -1 <==> x !in s
    ensures 0 <= r ==> s[r] == x && x !in s[..r]
  {
    if s == [] then -1
    else if s[0] == x then 0
    else
      var r := IndexOf(s[1..], x);
      if r == -1 then -1
      else
        assert s[..r + 1] == [s[0]] + s[1..][..r];
        r + 1
  }

  /** `s.splice(i, 1)`: `s` without its entry at `i`, the others in order. */
  function RemoveAt<T>(s: seq<T>, i: int): (r: seq<T>)
    requires 0 <= i < |s|
    ensures |r| == |s| - 1
    ensures forall j :: 0 <= j < i ==> r[j] == s[j]
    ensures forall j :: i <= j < |r| ==> r[j] == s[j + 1]
  {
    s[..i] + s[i + 1..]
  }

  /**
   * The likes after `u` unlikes (`splice` at the `indexOf` of `u` among the
   * likers): unchanged when `u` has no like; otherwise exactly the first
   * like by `u` is removed and every other like keeps its order.
   */
  function Unliked(likes: seq<Like>, u: UserId): (r: seq<Like>)
    ensures u !in Likers(likes) ==> r == likes
    ensures u in Likers(likes) ==> exists i ::
      && 0 <= i < |likes| && likes[i].user == u
      && (forall j :: 0 <= j < i ==> likes[j].user != u)
      && r == likes[..i] + likes[i + 1..]
  {
    var i := IndexOf(Likers(likes), u);
    if i < 0 then likes
    else
      assert forall j :: 0 <= j < i ==> Likers(likes)[..i][j] == likes[j].user;
      RemoveAt(likes, i)
  }

  /** A like that succeeded and the unlike after it leave the likes as they were. */
  lemma LikeThenUnlike(likes: seq<Like>, u: UserId)
    requires !HasLiked(likes, u)
    ensures Unliked([Like(u)] + likes, u) == likes
  {
  }

  /** A like that succeeded keeps the likers unique. */
  lemma LikeKeepsUnique(likes: seq<Like>, u: UserId)
    requires UniqueLikers(likes) && !HasLiked(likes, u)
    ensures UniqueLikers([Like(u)] + likes)
  {
    forall j | 0 <= j < |likes| ensures likes[j].user != u {
      assert Likers(likes)[j] == likes[j].user;
    }
  }

  /** With unique likers, an unlike leaves no like by that user behind. */
  lemma UnlikeClearsLiker(likes: seq<Like>, u: UserId)
    requires UniqueLikers(likes) && HasLiked(likes, u)
    ensures UniqueLikers(Unliked(likes, u)) && !HasLiked(Unliked(likes, u), u)
  {
    var i := IndexOf(Likers(likes), u);
    var r := Unliked(likes, u);
    assert likes[i].user == u;
    forall j | 0 <= j < |r| ensures Likers(r)[j] != u {
      if j < i { assert r[j] == likes[j]; } else { assert r[j] == likes[j + 1]; }
    }
  }

  /** Who may delete a comment: the author of the post, or the author of the comment. */
  predicate MayDeleteComment(postAuthor: UserId, c: Comment, requester: UserId) {
    requester == postAuthor || c.user == requester
  }

  /**
   * The route is documented as letting only the comment's author delete a
   * comment; the code's rule allows that and more: the post's author may
   * also delete a comment somebody else wrote.
   */
  lemma CommentDeletionWiderThanDocumented()
    ensures forall postAuthor, c: Comment, requester ::
      c.user == requester ==> MayDeleteComment(postAuthor, c, requester)
    ensures exists postAuthor, c: Comment, requester ::
      MayDeleteComment(postAuthor, c, requester) && c.user != requester
  {
    var c := Comment("c1", "commenter", "text", "name", "avatar");
    assert MayDeleteComment("author", c, "author") && c.user != "author";
  }

  class Post {
    /** The author of the post (`post.user`). */
    const user: UserId
    var likes: seq<Like>
    var comments: seq<Comment>

    constructor (user: UserId)
      ensures this.user == user && likes == [] && comments == []
    {
      this.user := user;
      likes := [];
      comments := [];
    }

    /**
     * PUT /like/:id. Refused with 400 when the requester already likes the
     * post; otherwise the requester's like goes to the front.
     */
    method AddLike(requester: UserId) returns (status: Status)
      modifies this`likes
      ensures status == (if HasLiked(old(likes), requester) then BadRequest else Ok)
      ensures likes == if status == Ok then [Like(requester)] + old(likes) else old(likes)
      ensures old(UniqueLikers(likes)) ==> UniqueLikers(likes)
    {
      if |LikesBy(likes, requester)| > 0 {
        return BadRequest;
      }
      if UniqueLikers(likes) {
        LikeKeepsUnique(likes, requester);
      }
      likes := [Like(requester)] + likes;
      status := Ok;
    }

    /**
     * PUT /unlike/:id. Refused with 400 when the requester does not like the
     * post; otherwise the requester's first like is spliced out.
     */
    method RemoveLike(requester: UserId) returns (status: Status)
      modifies this`likes
      ensures status == (if HasLiked(old(likes), requester) then Ok else BadRequest)
      ensures likes == if status == Ok then Unliked(old(likes), requester) else old(likes)
      ensures old(UniqueLikers(likes)) ==> UniqueLikers(likes) && !HasLiked(likes, requester)
    {
      if |LikesBy(likes, requester)| == 0 {
        status := BadRequest;
        assert IndexOf(Likers(likes), requester) == -1;
        return;
      }
      if UniqueLikers(likes) {
        UnlikeClearsLiker(likes, requester);
      }
      var removeIndex := IndexOf(Likers(likes), requester);
      likes := likes[..removeIndex] + likes[removeIndex + 1..];
      status := Ok;
    }

    /**
     * POST /comment/:id. An empty text is refused with 400; otherwise the
     * new comment, carrying the requester's id, name and avatar, goes to the
     * front. `id` is the id the database gives the new sub-document.
     */
    method AddComment(requester: UserId, name: string, avatar: string, text: string, id: CommentId)
      returns (status: Status)
      modifies this`comments
      ensures status == (if text == "" then BadRequest else Ok)
      ensures comments == if status == Ok then [Comment(id, requester, text, name, avatar)] + old(comments) else old(comments)
    {
      if text == "" {
        return BadRequest;
      }
      comments := [Comment(id, requester, text, name, avatar)] + comments;
      status := Ok;
    }

    /**
     * DELETE /comment/:id/:comment_id. 404 when no comment has that id;
     * otherwise the first comment with that id is spliced out when the
     * requester wrote the post or the comment, and 401 is sent when neither.
     */
    method DeleteComment(requester: UserId, commentId: CommentId) returns (status: Status)
      modifies this`comments
      ensures commentId !in CommentIds(old(comments)) ==> status == NotFound && comments == old(comments)
      ensures commentId in CommentIds(old(comments)) ==>
        var i := IndexOf(CommentIds(old(comments)), commentId);
        if MayDeleteComment(user, old(comments)[i], requester) then
          status == Ok && comments == RemoveAt(old(comments), i)
        else
          status == Unauthorized && comments == old(comments)
    {
      var removeIndex := IndexOf(CommentIds(comments), commentId);
      if removeIndex == -1 {
        return NotFound;
      }
      if user == requester {
        comments := comments[..removeIndex] + comments[removeIndex + 1..];
        return Ok;
      }
      if comments[removeIndex].user != requester {
        return Unauthorized;
      }
      comments := comments[..removeIndex] + comments[removeIndex + 1..];
      status := Ok;
    }
  }
}
