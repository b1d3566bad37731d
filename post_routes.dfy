/** The authenticated post handlers: create and delete a post, like, unlike,
    comment and delete a comment. The store of posts is a map from post id to
    post; the requester id is what the JWT middleware would put in `req.user.id`. */
module PostRoutes {
  import opened Http
  import JsArray

  type UserId = string
  type PostId = string
  type CommentId = string

  datatype Like = Like(user: UserId)

  datatype Comment = Comment(id: CommentId, text: string, name: string, avatar: string, user: UserId)

  datatype Post = Post(
    id: PostId,
    user: UserId,
    text: string,
    name: string,
    avatar: string,
    likes: seq<Like>,
    comments: seq<Comment>)

  /** The request body fields a post or a comment is built from. */
  datatype PostInput = PostInput(text: string, name: string, avatar: string)

  /** What the post-input validator returns: `{ errors, isValid }`. */
  datatype Validation = Validation(errors: JsonObject, isValid: bool)

  /** `likes.map(item => item.user)` */
  function LikeUsers(likes: seq<Like>): (r: seq<UserId>)
    ensures |r| == |likes|
    ensures forall i :: 0 <= i < |likes| ==> r[i] == likes[i].user
    decreases |likes|
  {
    if likes == [] then [] else [likes[0].user] + LikeUsers(likes[1..])
  }

  /** `comments.map(item => item._id)` */
  function CommentIds(comments: seq<Comment>): (r: seq<CommentId>)
    ensures |r| == |comments|
    ensures forall i :: 0 <= i < |comments| ==> r[i] == comments[i].id
    decreases |comments|
  {
    if comments == [] then [] else [comments[0].id] + CommentIds(comments[1..])
  }

  /** The like route's test: the requester's id is found among the likers. */
  predicate HasLiked(likes: seq<Like>, u: UserId) {
    JsArray.IndexOf(LikeUsers(likes), u) >= 0
  }

  /** The index-based test means what it says: some like is by `u`. */
  lemma HasLikedIff(likes: seq<Like>, u: UserId)
    ensures HasLiked(likes, u) <==> exists i :: 0 <= i < |likes| && likes[i].user == u
  {
    if !HasLiked(likes, u) {
      forall i | 0 <= i < |likes| ensures likes[i].user != u {
        assert LikeUsers(likes)[i] == likes[i].user;
      }
    }
  }

  /** `likes.filter(item => item.user !== u)` */
  function WithoutUser(likes: seq<Like>, u: UserId): (r: seq<Like>)
    decreases |likes|
  {
    if likes == [] then []
    else (if likes[0].user == u then [] else [likes[0]]) + WithoutUser(likes[1..], u)
  }

  /** No user occurs twice among the likes of a post. */
  ghost predicate DistinctLikers(likes: seq<Like>) {
    forall i, j :: 0 <= i < j < |likes| ==> likes[i].user != likes[j].user
  }

  /** Filtering distributes over concatenation: each like is kept or dropped
      on its own, in place, so the kept likes keep their order. */
  lemma {:induction false} WithoutUserAppend(a: seq<Like>, b: seq<Like>, u: UserId)
    ensures WithoutUser(a + b, u) == WithoutUser(a, u) + WithoutUser(b, u)
    decreases |a|
  {
    if a == [] {
      assert a + b == b;
    } else {
      assert (a + b)[1..] == a[1..] + b;
      WithoutUserAppend(a[1..], b, u);
    }
  }

  /** A like survives unlike exactly when it was there and is by someone else. */
  lemma {:induction false} WithoutUserMembers(likes: seq<Like>, u: UserId, l: Like)
    ensures l in WithoutUser(likes, u) <==> l in likes && l.user != u
    decreases |likes|
  {
    if likes != [] {
      WithoutUserMembers(likes[1..], u, l);
      assert likes == [likes[0]] + likes[1..];
    }
  }

  /** Unlike removes every like by the requester. */
  lemma WithoutUserRemovesAll(likes: seq<Like>, u: UserId)
    ensures !HasLiked(WithoutUser(likes, u), u)
  {
    var r := WithoutUser(likes, u);
    HasLikedIff(r, u);
    forall i | 0 <= i < |r| ensures r[i].user != u {
      WithoutUserMembers(likes, u, r[i]);
    }
  }

  /** Unlike of a user who had not liked changes nothing. */
  lemma {:induction false} WithoutUserAbsent(likes: seq<Like>, u: UserId)
    requires !HasLiked(likes, u)
    ensures WithoutUser(likes, u) == likes
    decreases |likes|
  {
    HasLikedIff(likes, u);
    if likes != [] {
      HasLikedIff(likes[1..], u);
      assert likes[0].user != u;
      forall i | 0 <= i < |likes[1..]| ensures likes[1..][i].user != u {
        assert likes[1..][i] == likes[i + 1];
      }
      WithoutUserAbsent(likes[1..], u);
      assert likes == [likes[0]] + likes[1..];
    }
  }

  /** Unliking twice is unliking once. */
  lemma WithoutUserIdempotent(likes: seq<Like>, u: UserId)
    ensures WithoutUser(WithoutUser(likes, u), u) == WithoutUser(likes, u)
  {
    WithoutUserRemovesAll(likes, u);
    WithoutUserAbsent(WithoutUser(likes, u), u);
  }

  /** Unlike keeps "no user liked twice". */
  lemma {:induction false} WithoutUserKeepsDistinct(likes: seq<Like>, u: UserId)
    requires DistinctLikers(likes)
    ensures DistinctLikers(WithoutUser(likes, u))
    decreases |likes|
  {
    if likes != [] {
      var rest := WithoutUser(likes[1..], u);
      WithoutUserKeepsDistinct(likes[1..], u);
      if likes[0].user != u {
        forall j | 0 <= j < |rest| ensures rest[j].user != likes[0].user {
          WithoutUserMembers(likes[1..], u, rest[j]);
          var k :| 0 <= k < |likes[1..]| && likes[1..][k] == rest[j];
          assert likes[k + 1] == rest[j];
        }
        assert WithoutUser(likes, u) == [likes[0]] + rest;
      }
    }
  }

  /** Like appends only when the requester is absent, so "no user liked twice"
      is kept. */
  lemma LikeKeepsDistinct(likes: seq<Like>, u: UserId)
    requires DistinctLikers(likes)
    requires !HasLiked(likes, u)
    ensures DistinctLikers(likes + [Like(u)])
    ensures HasLiked(likes + [Like(u)], u)
  {
    HasLikedIff(likes, u);
    var r := likes + [Like(u)];
    HasLikedIff(r, u);
    assert r[|likes|].user == u;
  }

  /** `comments.filter(comment => comment._id === cid)` */
  function CommentsWithId(comments: seq<Comment>, cid: CommentId): (r: seq<Comment>)
    decreases |comments|
  {
    if comments == [] then []
    else (if comments[0].id == cid then [comments[0]] else []) + CommentsWithId(comments[1..], cid)
  }

  /** The specification of deleting a comment: drop the first comment with the
      given id, keep every other comment in its place. */
  function RemoveFirstWithId(comments: seq<Comment>, cid: CommentId): (r: seq<Comment>)
    decreases |comments|
  {
    if comments == [] then []
    else if comments[0].id == cid then comments[1..]
    else [comments[0]] + RemoveFirstWithId(comments[1..], cid)
  }

  /** The filter-based existence check and the index lookup agree, so the
      splice never runs with index -1. */
  lemma {:induction false} CommentGuardAgrees(comments: seq<Comment>, cid: CommentId)
    ensures |CommentsWithId(comments, cid)| > 0 <==> JsArray.IndexOf(CommentIds(comments), cid) >= 0
    decreases |comments|
  {
    if comments != [] {
      CommentGuardAgrees(comments[1..], cid);
      assert CommentIds(comments) == [comments[0].id] + CommentIds(comments[1..]);
    }
  }

  /** Removing the first match, located by its index: everything before it
      and after it stays in place. */
  lemma {:induction false} RemoveFirstAt(comments: seq<Comment>, cid: CommentId, i: nat)
    requires i < |comments| && comments[i].id == cid
    requires forall j :: 0 <= j < i ==> comments[j].id != cid
    ensures RemoveFirstWithId(comments, cid) == comments[..i] + comments[i + 1..]
    decreases i
  {
    if i == 0 {
      assert comments[..0] + comments[1..] == comments[1..];
    } else {
      var tail := comments[1..];
      forall j | 0 <= j < i - 1 ensures tail[j].id != cid {
        assert tail[j] == comments[j + 1];
      }
      RemoveFirstAt(tail, cid, i - 1);
      assert comments[..i] == [comments[0]] + tail[..i - 1];
      assert comments[i + 1..] == tail[i..];
    }
  }

  /** The index lookup finds the first comment with the id. */
  lemma FirstCommentIndex(comments: seq<Comment>, cid: CommentId)
    requires JsArray.IndexOf(CommentIds(comments), cid) >= 0
    ensures var i := JsArray.IndexOf(CommentIds(comments), cid);
            comments[i].id == cid && forall j :: 0 <= j < i ==> comments[j].id != cid
  {
    var ids := CommentIds(comments);
    var i := JsArray.IndexOf(ids, cid);
    forall j | 0 <= j < i ensures comments[j].id != cid {
      assert ids[..i][j] == comments[j].id;
    }
  }

  /** Splicing at the index of the first match is removing the first match:
      exactly one comment goes, the first with that id, and every other
      comment keeps its relative order. */
  lemma SpliceRemovesFirstMatch(comments: seq<Comment>, cid: CommentId)
    requires JsArray.IndexOf(CommentIds(comments), cid) >= 0
    ensures var i := JsArray.IndexOf(CommentIds(comments), cid);
            && JsArray.SpliceOne(comments, i) == RemoveFirstWithId(comments, cid)
            && RemoveFirstWithId(comments, cid) == comments[..i] + comments[i + 1..]
            && |RemoveFirstWithId(comments, cid)| == |comments| - 1
  {
    var i := JsArray.IndexOf(CommentIds(comments), cid);
    FirstCommentIndex(comments, cid);
    RemoveFirstAt(comments, cid, i);
    JsArray.SpliceOneAt(comments, i);
  }

  /** Deleting an id that no comment has changes nothing. */
  lemma {:induction false} RemoveFirstWithIdAbsent(comments: seq<Comment>, cid: CommentId)
    requires |CommentsWithId(comments, cid)| == 0
    ensures RemoveFirstWithId(comments, cid) == comments
    decreases |comments|
  {
    if comments != [] {
      RemoveFirstWithIdAbsent(comments[1..], cid);
      assert comments == [comments[0]] + comments[1..];
    }
  }

  const POST_NOT_FOUND := "Post not found."

  /** The posts collection. */
  class PostStore {
    var posts: map<PostId, Post>

    /** Every post is stored under its own id, and no user liked a post twice. */
    ghost predicate Valid()
      reads this
    {
      forall id :: id in posts ==> posts[id].id == id && DistinctLikers(posts[id].likes)
    }

    constructor ()
      ensures Valid() && posts == map[]
    {
      posts := map[];
    }

    /** POST /api/posts: validate, then save a new post owned by the
        requester. `newId` is the ObjectId Mongoose assigns to a new document. */
    method CreatePost(input: PostInput, validate: PostInput -> Validation, requester: UserId, newId: PostId)
      returns (r: Reply<Post>)
      requires Valid()
      requires newId !in posts
      modifies this
      ensures Valid()
      ensures !validate(input).isValid ==>
        r == Err(400, validate(input).errors) && posts == old(posts)
      ensures validate(input).isValid ==>
        var p := Post(newId, requester, input.text, input.name, input.avatar, [], []);
        r == Ok(p) && posts == old(posts)[newId := p]
    {
      var v := validate(input);
      if !v.isValid {
        return Err(400, v.errors);
      }
      var newPost := Post(newId, requester, input.text, input.name, input.avatar, [], []);
      posts := posts[newId := newPost];
      r := Ok(newPost);
    }

    /** DELETE /api/posts/:id: `findOneAndRemove({ user, _id })`. */
    method DeletePost(id: PostId, requester: UserId) returns (r: Reply<Post>)
      requires Valid()
      modifies this
      ensures Valid()
      ensures id in old(posts) && old(posts)[id].user == requester ==>
        r == Ok(old(posts)[id]) && posts == old(posts) - {id}
      ensures !(id in old(posts) && old(posts)[id].user == requester) ==>
        r == Err(404, map["nopostfound" := POST_NOT_FOUND]) && posts == old(posts)
    {
      if id in posts && posts[id].user == requester {
        var removed := posts[id];
        posts := posts - {id};
        r := Ok(removed);
      } else {
        r := Err(404, map["nopostfound" := POST_NOT_FOUND]);
      }
    }

    /** POST /api/posts/like/:id */
    method LikePost(id: PostId, requester: UserId) returns (r: Reply<Post>)
      requires Valid()
      modifies this
      ensures Valid()
      ensures id !in old(posts) ==>
        r == Err(400, map["postnotfound" := POST_NOT_FOUND]) && posts == old(posts)
      ensures id in old(posts) && HasLiked(old(posts)[id].likes, requester) ==>
        r == Err(400, map["alreadylike" := "User already liked this post."]) && posts == old(posts)
      ensures id in old(posts) && !HasLiked(old(posts)[id].likes, requester) ==>
        var p := old(posts)[id].(likes := old(posts)[id].likes + [Like(requester)]);
        r == Ok(p) && posts == old(posts)[id := p]
    {
      if id !in posts {
        return Err(400, map["postnotfound" := POST_NOT_FOUND]);
      }
      var post := posts[id];
      if JsArray.IndexOf(LikeUsers(post.likes), requester) < 0 {
        LikeKeepsDistinct(post.likes, requester);
        post := post.(likes := post.likes + [Like(requester)]);
        posts := posts[id := post];
        r := Ok(post);
      } else {
        r := Err(400, map["alreadylike" := "User already liked this post."]);
      }
    }

    /** POST /api/posts/unlike/:id */
    method UnlikePost(id: PostId, requester: UserId) returns (r: Reply<Post>)
      requires Valid()
      modifies this
      ensures Valid()
      ensures id !in old(posts) ==>
        r == Err(404, map["likenotfound" := "Like not found for this user."]) && posts == old(posts)
      ensures id in old(posts) ==>
        var p := old(posts)[id].(likes := WithoutUser(old(posts)[id].likes, requester));
        r == Ok(p) && posts == old(posts)[id := p]
    {
      if id !in posts {
        return Err(404, map["likenotfound" := "Like not found for this user."]);
      }
      var post := posts[id];
      WithoutUserKeepsDistinct(post.likes, requester);
      post := post.(likes := WithoutUser(post.likes, requester));
      posts := posts[id := post];
      r := Ok(post);
    }

    /** POST /api/posts/comment/:id: validate, then put the new comment first.
        `commentId` is the ObjectId Mongoose assigns to the new sub-document.
        A missing post makes `post.comments` throw; the error caught is sent
        as 404 `{}`. */
    method AddComment(id: PostId, input: PostInput, validate: PostInput -> Validation,
                      requester: UserId, commentId: CommentId)
      returns (r: Reply<Post>)
      requires Valid()
      modifies this
      ensures Valid()
      ensures !validate(input).isValid ==>
        r == Err(400, validate(input).errors) && posts == old(posts)
      ensures validate(input).isValid && id !in old(posts) ==>
        r == Err(404, map[]) && posts == old(posts)
      ensures validate(input).isValid && id in old(posts) ==>
        var c := Comment(commentId, input.text, input.name, input.avatar, requester);
        var p := old(posts)[id].(comments := [c] + old(posts)[id].comments);
        r == Ok(p) && posts == old(posts)[id := p]
    {
      var v := validate(input);
      if !v.isValid {
        return Err(400, v.errors);
      }
      if id !in posts {
        return Err(404, map[]);
      }
      var post := posts[id];
      var newComment := Comment(commentId, input.text, input.name, input.avatar, requester);
      post := post.(comments := [newComment] + post.comments);
      posts := posts[id := post];
      r := Ok(post);
    }

    /** DELETE /api/posts/comment/:post_id/:comment_id */
    method DeleteComment(postId: PostId, commentId: CommentId) returns (r: Reply<Post>)
      requires Valid()
      modifies this
      ensures Valid()
      ensures postId !in old(posts) ==>
        r == Err(404, map[]) && posts == old(posts)
      ensures postId in old(posts) && |CommentsWithId(old(posts)[postId].comments, commentId)| == 0 ==>
        r == Err(404, map["commentnotfound" := "Comment not found."]) && posts == old(posts)
      ensures postId in old(posts) && |CommentsWithId(old(posts)[postId].comments, commentId)| > 0 ==>
        var p := old(posts)[postId].(comments := RemoveFirstWithId(old(posts)[postId].comments, commentId));
        r == Ok(p) && posts == old(posts)[postId := p]
    {
      if postId !in posts {
        return Err(404, map[]);
      }
      var post := posts[postId];
      if |CommentsWithId(post.comments, commentId)| > 0 {
        var removeIndex := JsArray.IndexOf(CommentIds(post.comments), commentId);
        CommentGuardAgrees(post.comments, commentId);
        SpliceRemovesFirstMatch(post.comments, commentId);
        post := post.(comments := JsArray.SpliceOne(post.comments, removeIndex));
        posts := posts[postId := post];
        r := Ok(post);
      } else {
        r := Err(404, map["commentnotfound" := "Comment not found."]);
      }
    }
  }
}
