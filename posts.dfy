/** The community post routes: creating a post with its defaults, the
    author-only update and delete, like toggling, and adding and deleting
    comments. A post lookup that finds nothing is a `null` post. */
module Posts {
  import opened Common
  import opened Text

  type PostId = string
  type CommentId = string

  /** One entry of `likes`. */
  datatype Like = Like(user: UserId)

  /** One entry of `comments`; `id` is the sub-document id the store gave it. */
  datatype Comment = Comment(id: CommentId, user: UserId, text: string, name: string, avatar: string)

  /** The commenting user's profile fields. */
  datatype Profile = Profile(firstName: string, lastName: string, avatar: string)

  class Post {
    const author: UserId
    var title: string
    var content: string
    var tags: seq<string>
    var image: string
    var isPublished: bool
    var likes: seq<Like>
    var comments: seq<Comment>

    /** `new Post({...})`: a post starts without likes or comments. */
    constructor (author: UserId, title: string, content: string, tags: seq<string>, image: string, isPublished: bool)
      ensures this.author == author && this.title == title && this.content == content
      ensures this.tags == tags && this.image == image && this.isPublished == isPublished
      ensures likes == [] && comments == []
    {
      this.author, this.title, this.content := author, title, content;
      this.tags, this.image, this.isPublished := tags, image, isPublished;
      likes, comments := [], [];
    }
  }

  // ---------------------------------------------------------------------
  // Creating, updating, deleting

  /** The body of POST /api/posts as far as the model carries it; a missing
      title or content is the empty string. */
  datatype NewPost = NewPost(title: string, content: string, tags: Option<string>,
                             image: Option<string>, isPublished: Option<bool>)

  /** POST /api/posts: title and content are required (400). The tags are
      the trimmed comma-separated pieces, none for an empty field; the image
      defaults to the empty string and `isPublished` to false. */
  method CreatePost(requester: UserId, req: NewPost) returns (r: Reply<Post>)
    ensures r.Fail? <==> req.title == "" || req.content == ""
    ensures r.Fail? ==> r.status == 400
    ensures r.Ok? ==>
      && fresh(r.value) && r.value.author == requester
      && r.value.title == req.title && r.value.content == req.content
      && r.value.tags == SplitTags(req.tags)
      && r.value.image == (if Truthy(req.image) then req.image.value else "")
      && (r.value.isPublished <==> req.isPublished == Some(true))
      && r.value.likes == [] && r.value.comments == []
  {
    if req.title == "" {
      return Fail(400, "Title is required");
    }
    if req.content == "" {
      return Fail(400, "Content is required");
    }
    var post := new Post(requester, req.title, req.content, SplitTags(req.tags),
                         StrOr(req.image, ""), req.isPublished == Some(true));
    return Ok(post);
  }

  /** The fields PUT /api/posts/:id may set; an absent field is None. */
  datatype PostUpdate = PostUpdate(title: Option<string>, content: Option<string>, tags: Option<string>,
                                   image: Option<string>, isPublished: Option<bool>)

  /** PUT /api/posts/:id: 404 for a missing post, 401 for anyone but its
      author, and nothing changes on either. Otherwise title, content and
      tags are set only when given non-empty, image and `isPublished`
      whenever given (even empty or false), and likes and comments stay. */
  method UpdatePost(post: Post?, requester: UserId, req: PostUpdate) returns (r: Reply<()>)
    modifies post
    ensures post == null ==> r == Fail(404, "Post not found")
    ensures post != null && post.author != requester ==> r == Fail(401, "User not authorized") && unchanged(post)
    ensures post != null && post.author == requester ==>
      && r.Ok?
      && post.title == (if Truthy(req.title) then req.title.value else old(post.title))
      && post.content == (if Truthy(req.content) then req.content.value else old(post.content))
      && post.tags == TagsAfterUpdate(old(post.tags), req.tags)
      && post.image == (if req.image.Some? then req.image.value else old(post.image))
      && post.isPublished == (if req.isPublished.Some? then req.isPublished.value else old(post.isPublished))
      && post.likes == old(post.likes) && post.comments == old(post.comments)
  {
    if post == null {
      return Fail(404, "Post not found");
    }
    if post.author != requester {
      return Fail(401, "User not authorized");
    }
    var title := if Truthy(req.title) then req.title.value else post.title;
    var content := if Truthy(req.content) then req.content.value else post.content;
    var tags := TagsAfterUpdate(post.tags, req.tags);
    var image := if req.image.Some? then req.image.value else post.image;
    var isPublished := if req.isPublished.Some? then req.isPublished.value else post.isPublished;
    post.title, post.content, post.tags, post.image, post.isPublished := title, content, tags, image, isPublished;
    return Ok(());
  }

  /** DELETE /api/posts/:id on the store of posts: 404 when there is no such
      post, 401 for anyone but its author (the store unchanged on both),
      otherwise the post leaves the store and nothing else does. */
  function DeletePost(posts: map<PostId, Post>, id: PostId, requester: UserId): (r: (Reply<()>, map<PostId, Post>))
    ensures id !in posts ==> r.0 == Fail(404, "Post not found")
    ensures id in posts && posts[id].author != requester ==> r.0 == Fail(401, "User not authorized")
    ensures r.0.Ok? <==> id in posts && posts[id].author == requester
    ensures r.0.Fail? ==> r.1 == posts
    ensures r.0.Ok? ==> id !in r.1 && forall k :: k != id ==> (k in r.1 <==> k in posts)
    ensures forall k :: k in r.1 ==> k in posts && r.1[k] == posts[k]
  {
    if id !in posts then (Fail(404, "Post not found"), posts)
    else if posts[id].author != requester then (Fail(401, "User not authorized"), posts)
    else (Ok(()), posts - {id})
  }

  // ---------------------------------------------------------------------
  // Likes: PUT /api/posts/like/:id

  /** How many likes in the list are by `user`; none exactly when the user
      has no like in it. */
  function LikeCount(likes: seq<Like>, user: UserId): (n: nat)
    ensures n == 0 <==> Like(user) !in likes
    ensures n <= |likes|
  {
    if likes == [] then 0
    else (if likes[0].user == user then 1 else 0) + LikeCount(likes[1..], user)
  }

  /** `likes.filter(like => like.user !== user)`: the other users' likes, in
      order, each user keeping as many likes as before. */
  function WithoutLikesOf(likes: seq<Like>, user: UserId): (r: seq<Like>)
    ensures forall x :: x in r <==> x in likes && x.user != user
    ensures forall v :: v != user ==> LikeCount(r, v) == LikeCount(likes, v)
  {
    if likes == [] then []
    else
      var rest := WithoutLikesOf(likes[1..], user);
      assert forall x :: x in likes <==> x == likes[0] || x in likes[1..];
      if likes[0].user == user then rest
      else
        assert ([likes[0]] + rest)[1..] == rest;
        [likes[0]] + rest
  }

  /** The filter keeps the order of the likes: it works piece by piece. */
  lemma {:induction false} WithoutLikesAppend(a: seq<Like>, b: seq<Like>, user: UserId)
    ensures WithoutLikesOf(a + b, user) == WithoutLikesOf(a, user) + WithoutLikesOf(b, user)
  {
    if a == [] {
      assert a + b == b;
    } else {
      assert (a + b)[0] == a[0] && (a + b)[1..] == a[1..] + b;
      WithoutLikesAppend(a[1..], b, user);
    }
  }

  /** The filter drops exactly the user's likes. */
  lemma {:induction false} WithoutLikesLength(likes: seq<Like>, user: UserId)
    ensures |WithoutLikesOf(likes, user)| + LikeCount(likes, user) == |likes|
  {
    if likes != [] {
      WithoutLikesLength(likes[1..], user);
    }
  }

  /** One like is kept exactly when it is by another user. */
  lemma WithoutOne(x: Like, user: UserId)
    ensures WithoutLikesOf([x], user) == if x.user == user then [] else [x]
  {
    assert [x][1..] == [];
  }

  /** The likes after the toggle: a user who has liked the post loses every
      like of theirs; one who has not gains a like in front. */
  function ToggledLikes(likes: seq<Like>, user: UserId): (r: seq<Like>)
    ensures Like(user) in r <==> Like(user) !in likes
    ensures forall v :: v != user ==> LikeCount(r, v) == LikeCount(likes, v)
    ensures Like(user) !in likes ==> r == [Like(user)] + likes && r[1..] == likes
    ensures Like(user) in likes ==> |r| < |likes|
  {
    if Like(user) in likes then
      WithoutLikesLength(likes, user);
      WithoutLikesOf(likes, user)
    else [Like(user)] + likes
  }

  /** After a toggle the user's like has flipped, the user holds at most one
      like, every other user's likes are as they were, and toggling twice
      from a post the user had not liked restores it. */
  lemma ToggleLikeSpec(likes: seq<Like>, user: UserId)
    ensures Like(user) in ToggledLikes(likes, user) <==> Like(user) !in likes
    ensures LikeCount(ToggledLikes(likes, user), user) <= 1
    ensures forall v :: v != user ==> LikeCount(ToggledLikes(likes, user), v) == LikeCount(likes, v)
    ensures Like(user) !in likes ==> ToggledLikes(ToggledLikes(likes, user), user) == likes
  {
    var added := [Like(user)] + likes;
    assert added[1..] == likes;
    if Like(user) !in likes {
      WithoutAbsent(likes, user);
      assert WithoutLikesOf(added, user) == WithoutLikesOf(likes, user);
    }
  }

  /** Removing the likes of a user who has none changes nothing. */
  lemma {:induction false} WithoutAbsent(likes: seq<Like>, user: UserId)
    requires Like(user) !in likes
    ensures WithoutLikesOf(likes, user) == likes
  {
    if likes != [] {
      assert Like(user) !in likes[1..];
      WithoutAbsent(likes[1..], user);
      assert [likes[0]] + likes[1..] == likes;
    }
  }

  /** PUT /api/posts/like/:id: 404 for a missing post, otherwise the likes
      are toggled for the requester and returned. */
  method ToggleLike(post: Post?, requester: UserId) returns (r: Reply<seq<Like>>)
    modifies post
    ensures post == null ==> r == Fail(404, "Post not found")
    ensures post != null ==>
      && post.likes == ToggledLikes(old(post.likes), requester) && r == Ok(post.likes)
      && post.comments == old(post.comments) && post.title == old(post.title)
      && post.content == old(post.content) && post.tags == old(post.tags)
      && post.image == old(post.image) && post.isPublished == old(post.isPublished)
  {
    if post == null {
      return Fail(404, "Post not found");
    }
    if Like(requester) in post.likes {
      post.likes := WithoutLikesOf(post.likes, requester);
    } else {
      post.likes := [Like(requester)] + post.likes;
    }
    return Ok(post.likes);
  }

  // ---------------------------------------------------------------------
  // Comments

  /** POST /api/posts/comment/:id: the text is required (400) and the post
      must exist (404); a requester whose profile cannot be read ends in a
      server error (500). Otherwise the new comment, signed with the
      profile's full name and avatar, goes in front of the existing ones,
      which keep their order. */
  method AddComment(post: Post?, requester: UserId, profile: Option<Profile>, text: string, newId: CommentId)
    returns (r: Reply<seq<Comment>>)
    modifies post
    ensures text == "" ==> r.Fail? && r.status == 400
    ensures text != "" && post == null ==> r == Fail(404, "Post not found")
    ensures text != "" && post != null && profile.None? ==> r.Fail? && r.status == 500
    ensures r.Fail? && post != null ==> unchanged(post)
    ensures r.Ok? <==> text != "" && post != null && profile.Some?
    ensures r.Ok? ==>
      && post.comments == [Comment(newId, requester, text,
                                   profile.value.firstName + " " + profile.value.lastName,
                                   profile.value.avatar)] + old(post.comments)
      && post.comments[1..] == old(post.comments)
      && r == Ok(post.comments) && post.likes == old(post.likes)
      && post.title == old(post.title) && post.content == old(post.content)
      && post.tags == old(post.tags) && post.image == old(post.image)
      && post.isPublished == old(post.isPublished)
  {
    if text == "" {
      return Fail(400, "Text is required");
    }
    if post == null {
      return Fail(404, "Post not found");
    }
    if profile.None? {
      return Fail(500, "Server error");
    }
    var name := profile.value.firstName + " " + profile.value.lastName;
    post.comments := [Comment(newId, requester, text, name, profile.value.avatar)] + post.comments;
    return Ok(post.comments);
  }

  /** The position of the first comment with this id. */
  function FindComment(comments: seq<Comment>, id: CommentId): (r: Option<nat>)
    ensures r.Some? ==> r.value < |comments| && comments[r.value].id == id
    ensures r.Some? ==> forall j :: 0 <= j < r.value ==> comments[j].id != id
    ensures r.None? <==> forall j :: 0 <= j < |comments| ==> comments[j].id != id
  {
    FirstIndex(comments, (c: Comment) => c.id == id)
  }

  /** The position of the requester's first comment. */
  function FirstCommentBy(comments: seq<Comment>, user: UserId): (r: Option<nat>)
    ensures r.Some? ==> r.value < |comments| && comments[r.value].user == user
    ensures r.Some? ==> forall j :: 0 <= j < r.value ==> comments[j].user != user
    ensures r.None? <==> forall j :: 0 <= j < |comments| ==> comments[j].user != user
  {
    FirstIndex(comments, (c: Comment) => c.user == user)
  }

  /** What DELETE /api/posts/comment/:id/:comment_id does to an existing
      post's comments: 404 when no comment has the id, 401 when that comment
      is someone else's; otherwise exactly one comment goes, the requester's
      first, and the rest keep their order. */
  function CommentRemoval(comments: seq<Comment>, requester: UserId, id: CommentId): (r: Reply<seq<Comment>>)
    ensures FindComment(comments, id).None? ==> r == Fail(404, "Comment does not exist")
    ensures FindComment(comments, id).Some? && comments[FindComment(comments, id).value].user != requester ==>
      r == Fail(401, "User not authorized")
    ensures r.Ok? <==> FindComment(comments, id).Some? && comments[FindComment(comments, id).value].user == requester
    ensures r.Ok? ==> FirstCommentBy(comments, requester).Some? && |r.value| == |comments| - 1
    ensures r.Ok? ==> var k := FirstCommentBy(comments, requester).value;
      && comments[k].user == requester
      && r.value == comments[..k] + comments[k + 1..]
      && multiset(r.value) + multiset{comments[k]} == multiset(comments)
  {
    match FindComment(comments, id)
    case None => Fail(404, "Comment does not exist")
    case Some(i) =>
      if comments[i].user != requester then Fail(401, "User not authorized")
      else
        var k := FirstCommentBy(comments, requester).value;
        RemoveAt(comments, k);
        Ok(comments[..k] + comments[k + 1..])
  }

  /** Dropping the element at `k` shortens the list by one and takes
      exactly that element out of its multiset. */
  lemma RemoveAt<T>(s: seq<T>, k: nat)
    requires k < |s|
    ensures |s[..k] + s[k + 1..]| == |s| - 1
    ensures multiset(s[..k] + s[k + 1..]) + multiset{s[k]} == multiset(s)
  {
    assert s == s[..k] + [s[k]] + s[k + 1..];
  }

  /** The comment removed is never after the one asked for, and it is the
      one asked for exactly when the requester has no earlier comment. */
  lemma RemovedCommentPosition(comments: seq<Comment>, requester: UserId, id: CommentId)
    requires CommentRemoval(comments, requester, id).Ok?
    ensures FirstCommentBy(comments, requester).value <= FindComment(comments, id).value
    ensures FirstCommentBy(comments, requester) == FindComment(comments, id) <==>
      forall j :: 0 <= j < FindComment(comments, id).value ==> comments[j].user != requester
  {
    var i := FindComment(comments, id).value;
    var k := FirstCommentBy(comments, requester).value;
    if k != i {
      assert 0 <= k < i && comments[k].user == requester;
    }
  }

  /** A requester with two comments who deletes the second by its id loses
      the first and keeps the second. */
  lemma DeleteTakesFirstOwnComment(user: UserId, first: CommentId, second: CommentId)
    requires first != second
    ensures var c1 := Comment(first, user, "one", "", "");
      var c2 := Comment(second, user, "two", "", "");
      CommentRemoval([c1, c2], user, second) == Ok([c2])
  {
    var c1 := Comment(first, user, "one", "", "");
    var c2 := Comment(second, user, "two", "", "");
    assert [c1, c2][0].id != second && [c1, c2][1].id == second;
    assert FindComment([c1, c2], second) == Some(1);
    assert FirstCommentBy([c1, c2], user) == Some(0);
    assert [c1, c2][..0] + [c1, c2][1..] == [c2];
  }

  /** DELETE /api/posts/comment/:id/:comment_id: 404 for a missing post;
      otherwise the comment removal, stored when it succeeds and leaving the
      post untouched when it does not. */
  method DeleteComment(post: Post?, requester: UserId, id: CommentId) returns (r: Reply<seq<Comment>>)
    modifies post
    ensures post == null ==> r == Fail(404, "Post not found")
    ensures post != null ==> r == CommentRemoval(old(post.comments), requester, id)
    ensures post != null && r.Fail? ==> unchanged(post)
    ensures post != null && r.Ok? ==>
      && post.comments == r.value && post.likes == old(post.likes)
      && post.title == old(post.title) && post.content == old(post.content)
      && post.tags == old(post.tags) && post.image == old(post.image)
      && post.isPublished == old(post.isPublished)
  {
    if post == null {
      return Fail(404, "Post not found");
    }
    r := CommentRemoval(post.comments, requester, id);
    if r.Ok? {
      post.comments := r.value;
    }
  }
}
