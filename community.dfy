/** The community feed page: the list of posts it keeps in memory, the post and
    comment drafts, and the handlers that create, like, comment on and delete posts.
    Each handler takes the outcome of its backend call as a parameter and returns
    the requests and navigations it performs, in order. */
module Community {
  import opened Common

  datatype Comment = Comment(content: string, author: Option<User>)

  /** A post as the server returns it: `_id`, `author`, `content`, `isAnonymous`,
      `likes` (the ids of the users who liked it) and `comments`. */
  datatype Post = Post(
    id: string,
    author: Option<User>,
    content: string,
    isAnonymous: bool,
    likes: seq<string>,
    comments: seq<Comment>)

  const PostsPath := "/api/v1/community"

  function PostPath(postId: string): string { PostsPath + "/" + postId }
  function LikePath(postId: string): string { PostPath(postId) + "/like" }
  function CommentsPath(postId: string): string { PostPath(postId) + "/comments" }

  /** The body of the create request: the draft and the anonymity flag. */
  function CreateBody(content: string, anonymous: bool): Body {
    [("content", content), ("isAnonymous", if anonymous then "true" else "false")]
  }

  /** The body of the comment request: the comment box's text. */
  function CommentBody(content: string): Body {
    [("content", content)]
  }

  // ---------------------------------------------------------------------------
  // The list updates

  /** `posts.map(post => post._id === id ? f(post) : post)`. */
  function MapMatching(posts: seq<Post>, id: string, f: Post -> Post): (r: seq<Post>)
    ensures |r| == |posts|
    ensures forall i | 0 <= i < |posts| :: r[i] == if posts[i].id == id then f(posts[i]) else posts[i]
  {
    if posts == [] then []
    else [if posts[0].id == id then f(posts[0]) else posts[0]] + MapMatching(posts[1..], id, f)
  }

  /** The like handler's update: every post with the liked id becomes the
      server's copy; every other post, and the order, stay as they were. */
  function ReplaceById(posts: seq<Post>, id: string, updated: Post): (r: seq<Post>)
    ensures |r| == |posts|
    ensures forall i | 0 <= i < |posts| :: posts[i].id == id ==> r[i] == updated
    ensures forall i | 0 <= i < |posts| :: posts[i].id != id ==> r[i] == posts[i]
  {
    MapMatching(posts, id, _ => updated)
  }

  /** `{ ...post, comments: [...post.comments, c] }`. */
  function WithComment(post: Post, c: Comment): (r: Post)
    ensures |r.comments| == |post.comments| + 1
    ensures r.comments[..|post.comments|] == post.comments && r.comments[|post.comments|] == c
    ensures r.id == post.id && r.author == post.author && r.content == post.content
    ensures r.isAnonymous == post.isAnonymous && r.likes == post.likes
  {
    post.(comments := post.comments + [c])
  }

  /** The comment handler's update: the matching posts get `c` at the end of
      their comments; nothing else changes. */
  function AddCommentById(posts: seq<Post>, id: string, c: Comment): (r: seq<Post>)
    ensures |r| == |posts|
    ensures forall i | 0 <= i < |posts| :: posts[i].id == id ==> r[i] == WithComment(posts[i], c)
    ensures forall i | 0 <= i < |posts| :: posts[i].id != id ==> r[i] == posts[i]
  {
    MapMatching(posts, id, p => WithComment(p, c))
  }

  /** `posts.filter(post => post._id !== id)`. */
  function RemoveById(posts: seq<Post>, id: string): (r: seq<Post>)
    ensures |r| <= |posts|
  {
    if posts == [] then []
    else (if posts[0].id == id then [] else [posts[0]]) + RemoveById(posts[1..], id)
  }

  /** What is left is exactly the posts that do not carry the id. */
  lemma {:induction false} RemoveByIdMembers(posts: seq<Post>, id: string, p: Post)
    ensures p in RemoveById(posts, id) <==> p in posts && p.id != id
    decreases |posts|
  {
    if posts != [] {
      RemoveByIdMembers(posts[1..], id, p);
      assert posts == [posts[0]] + posts[1..];
    }
  }

  /** Removing keeps the relative order of what is left: removing from a
      concatenation is concatenating what is left of each part. */
  lemma {:induction false} RemoveByIdAppend(a: seq<Post>, b: seq<Post>, id: string)
    ensures RemoveById(a + b, id) == RemoveById(a, id) + RemoveById(b, id)
    decreases |a|
  {
    if a != [] {
      var head := if a[0].id == id then [] else [a[0]];
      assert (a + b)[0] == a[0] && (a + b)[1..] == a[1..] + b;
      calc {
        RemoveById(a + b, id);
        head + RemoveById(a[1..] + b, id);
        { RemoveByIdAppend(a[1..], b, id); }
        head + (RemoveById(a[1..], id) + RemoveById(b, id));
        (head + RemoveById(a[1..], id)) + RemoveById(b, id);
        RemoveById(a, id) + RemoveById(b, id);
      }
    } else {
      assert a + b == b;
    }
  }

  /** A list with no post of that id is left exactly as it was. */
  lemma {:induction false} RemoveAbsentId(posts: seq<Post>, id: string)
    requires forall i | 0 <= i < |posts| :: posts[i].id != id
    ensures RemoveById(posts, id) == posts
    decreases |posts|
  {
    if posts != [] {
      RemoveAbsentId(posts[1..], id);
    }
  }

  /** The number of posts removed is the number of posts carrying the id. */
  function CountId(posts: seq<Post>, id: string): nat {
    if posts == [] then 0 else (if posts[0].id == id then 1 else 0) + CountId(posts[1..], id)
  }

  lemma {:induction false} RemoveByIdLength(posts: seq<Post>, id: string)
    ensures |RemoveById(posts, id)| == |posts| - CountId(posts, id)
    decreases |posts|
  {
    if posts != [] {
      RemoveByIdLength(posts[1..], id);
    }
  }

  /** Liking twice, when the server hands back first the liked and then the
      original post, restores the list: the client never counts likes itself. */
  lemma LikeTwiceRestores(posts: seq<Post>, id: string, liked: Post, original: Post)
    requires liked.id == id
    requires forall i | 0 <= i < |posts| :: posts[i].id == id ==> posts[i] == original
    ensures ReplaceById(ReplaceById(posts, id, liked), id, original) == posts
  {
    var once := ReplaceById(posts, id, liked);
    var twice := ReplaceById(once, id, original);
    forall i | 0 <= i < |posts|
      ensures twice[i] == posts[i]
    {
      if posts[i].id == id {
        assert once[i] == liked;
      }
    }
  }

  // ---------------------------------------------------------------------------
  // What a post shows

  /** The delete control exists only on the current user's own posts. */
  predicate ShowsDelete(currentUser: Option<User>, post: Post) {
    currentUser.Some? && post.author.Some? && currentUser.value.id == post.author.value.id
  }

  /** The heart is filled when the current user's id is among the likes. */
  predicate HeartFilled(currentUser: Option<User>, post: Post) {
    currentUser.Some? && currentUser.value.id in post.likes
  }

  /** The delete control is shown to the post's author and to nobody else, not
      to another user and not without a user. */
  lemma DeleteControlOwnerOnly(u: User, other: User, post: Post)
    requires post.author == Some(u) && other.id != u.id
    ensures ShowsDelete(Some(u), post) && !ShowsDelete(Some(other), post) && !ShowsDelete(None, post)
  {
  }

  // ---------------------------------------------------------------------------
  // The page

  class CommunityPage {
    var posts: seq<Post>
    var newPost: string
    var isAnonymous: bool
    var selectedPost: Option<Post>
    var comment: string
    var error: Option<string>
    var currentUser: Option<User>
    var loading: bool

    constructor ()
      ensures posts == [] && newPost == "" && !isAnonymous && selectedPost == None
      ensures comment == "" && error == None && currentUser == None && loading
    {
      posts, newPost, isAnonymous, selectedPost := [], "", false, None;
      comment, error, currentUser, loading := "", None, None, true;
    }

    /** The controls a post shows: the delete button, the heart, and the like count. */
    method PostControls(post: Post) returns (showDelete: bool, heartFilled: bool, likeCount: nat)
      ensures showDelete == ShowsDelete(currentUser, post)
      ensures heartFilled == HeartFilled(currentUser, post)
      ensures likeCount == |post.likes|
    {
      showDelete := ShowsDelete(currentUser, post);
      heartFilled := HeartFilled(currentUser, post);
      likeCount := |post.likes|;
    }

    /** `fetchPosts`: a 401 navigates to the login page, any other failure
        sets an error; the posts change only on success. */
    method FetchPosts(fetched: Outcome<seq<Post>>) returns (effects: seq<Effect>)
      modifies this`posts, this`error
      ensures effects == [Request(GET, PostsPath, [])] + (if fetched.Unauthorized? then [Navigate(LoginRoute)] else [])
      ensures posts == if fetched.Ok? then fetched.value else old(posts)
      ensures error == if fetched.OtherError? then Some("Failed to load posts") else old(error)
    {
      effects := [Request(GET, PostsPath, [])];
      match fetched
      case Ok(list) => posts := list;
      case Unauthorized(_) => effects := effects + [Navigate(LoginRoute)];
      case OtherError(_) => error := Some("Failed to load posts");
    }

    /** `checkAuthAndLoadData`: probe the session, and only once a user is
        present fetch the posts. */
    method CheckAuthAndLoadData(probe: Outcome<Option<User>>, fetched: Outcome<seq<Post>>)
      returns (effects: seq<Effect>)
      modifies this`posts, this`error, this`currentUser, this`loading
      ensures !loading
      ensures probe.Ok? && probe.value.Some? ==>
                currentUser == probe.value
                && effects == [ProbeRequest, Request(GET, PostsPath, [])]
                              + (if fetched.Unauthorized? then [Navigate(LoginRoute)] else [])
                && posts == (if fetched.Ok? then fetched.value else old(posts))
                && error == (if fetched.OtherError? then Some("Failed to load posts") else old(error))
      ensures !(probe.Ok? && probe.value.Some?) ==>
                currentUser == old(currentUser) && posts == old(posts)
                && effects == [ProbeRequest] + (if probe.OtherError? then [] else [Navigate(LoginRoute)])
                && error == (if probe.OtherError? then Some("Failed to load content") else old(error))
    {
      effects := [ProbeRequest];
      match probe {
        case Ok(payload) =>
          if payload.Some? {
            currentUser := payload;
            var fetchEffects := FetchPosts(fetched);
            effects := effects + fetchEffects;
          } else {
            effects := effects + [Navigate(LoginRoute)];
          }
        case Unauthorized(_) =>
          effects := effects + [Navigate(LoginRoute)];
        case OtherError(_) =>
          error := Some("Failed to load content");
      }
      loading := false;
    }

    /** `handleCreatePost`: without a user, go to the login page and send
        nothing; otherwise post the draft and put the server's post first. */
    method HandleCreatePost(created: Outcome<Post>) returns (effects: seq<Effect>)
      modifies this`posts, this`newPost, this`isAnonymous, this`error, this`loading
      ensures currentUser == None ==>
                effects == [Navigate(LoginRoute)]
                && posts == old(posts) && newPost == old(newPost) && isAnonymous == old(isAnonymous)
                && error == old(error) && loading == old(loading)
      ensures currentUser.Some? ==>
                !loading
                && effects == [Request(POST, PostsPath, CreateBody(old(newPost), old(isAnonymous)))]
                              + (if created.Unauthorized? then [Navigate(LoginRoute)] else [])
                && (created.Ok? ==>
                      posts == [created.value] + old(posts) && newPost == "" && !isAnonymous
                      && error == None)
                && (!created.Ok? ==>
                      posts == old(posts) && newPost == old(newPost) && isAnonymous == old(isAnonymous)
                      && error == (if created.OtherError? then Some("Failed to create post") else None))
    {
      if currentUser == None {
        effects := [Navigate(LoginRoute)];
        return;
      }
      loading := true;
      error := None;
      effects := [Request(POST, PostsPath, CreateBody(newPost, isAnonymous))];
      match created {
        case Ok(post) =>
          posts := [post] + posts;
          newPost := "";
          isAnonymous := false;
        case Unauthorized(_) =>
          effects := effects + [Navigate(LoginRoute)];
        case OtherError(_) =>
          error := Some("Failed to create post");
      }
      loading := false;
    }

    /** `handleLikePost`: no user check; on success the server's copy replaces
        every post with that id. */
    method HandleLikePost(postId: string, liked: Outcome<Post>) returns (effects: seq<Effect>)
      modifies this`posts, this`error
      ensures effects == [Request(POST, LikePath(postId), [])]
                         + (if liked.Unauthorized? then [Navigate(LoginRoute)] else [])
      ensures posts == if liked.Ok? then ReplaceById(old(posts), postId, liked.value) else old(posts)
      ensures error == if liked.OtherError? then Some("Failed to like post") else old(error)
    {
      effects := [Request(POST, LikePath(postId), [])];
      match liked
      case Ok(post) => posts := ReplaceById(posts, postId, post);
      case Unauthorized(_) => effects := effects + [Navigate(LoginRoute)];
      case OtherError(_) => error := Some("Failed to like post");
    }

    /** The comment toggle: clicking the selected post's button deselects it,
        any other post's button selects that post. */
    method ToggleSelected(post: Post)
      modifies this`selectedPost
      ensures selectedPost == if old(selectedPost).Some? && old(selectedPost).value.id == post.id
                              then None else Some(post)
    {
      if selectedPost.Some? && selectedPost.value.id == post.id {
        selectedPost := None;
      } else {
        selectedPost := Some(post);
      }
    }

    /** `handleAddComment`: without a user, only an error; a blank comment does
        nothing; otherwise the server's comment is appended to the matching
        posts and the comment box closes. */
    method HandleAddComment(postId: string, added: Outcome<Comment>) returns (effects: seq<Effect>)
      modifies this`posts, this`error, this`comment, this`selectedPost
      ensures currentUser == None ==>
                effects == [] && error == Some("Please log in to comment")
                && posts == old(posts) && comment == old(comment) && selectedPost == old(selectedPost)
      ensures currentUser.Some? && IsBlank(old(comment)) ==>
                effects == [] && error == old(error)
                && posts == old(posts) && comment == old(comment) && selectedPost == old(selectedPost)
      ensures currentUser.Some? && !IsBlank(old(comment)) ==>
                effects == [Request(POST, CommentsPath(postId), CommentBody(old(comment)))]
                           + (if added.Unauthorized? then [Navigate(LoginRoute)] else [])
                && (added.Ok? ==>
                      posts == AddCommentById(old(posts), postId, added.value)
                      && comment == "" && selectedPost == None && error == old(error))
                && (!added.Ok? ==>
                      posts == old(posts) && comment == old(comment) && selectedPost == old(selectedPost)
                      && error == (if added.OtherError? then Some("Failed to add comment") else old(error)))
    {
      if currentUser == None {
        error := Some("Please log in to comment");
        return [];
      }
      if IsBlank(comment) {
        return [];
      }
      effects := [Request(POST, CommentsPath(postId), CommentBody(comment))];
      match added
      case Ok(c) =>
        posts := AddCommentById(posts, postId, c);
        comment := "";
        selectedPost := None;
      case Unauthorized(_) =>
        effects := effects + [Navigate(LoginRoute)];
      case OtherError(_) =>
        error := Some("Failed to add comment");
    }

    /** `handleDeletePost`: without a user, only an error; otherwise, once the
        server has deleted it, every post with that id leaves the list. */
    method HandleDeletePost(postId: string, deleted: Outcome<()>) returns (effects: seq<Effect>)
      modifies this`posts, this`error
      ensures currentUser == None ==>
                effects == [] && error == Some("Please log in to delete posts") && posts == old(posts)
      ensures currentUser.Some? ==>
                effects == [Request(DELETE, PostPath(postId), [])]
                           + (if deleted.Unauthorized? then [Navigate(LoginRoute)] else [])
                && posts == (if deleted.Ok? then RemoveById(old(posts), postId) else old(posts))
                && error == (if deleted.OtherError? then Some("Failed to delete post") else old(error))
    {
      if currentUser == None {
        error := Some("Please log in to delete posts");
        return [];
      }
      effects := [Request(DELETE, PostPath(postId), [])];
      match deleted
      case Ok(_) => posts := RemoveById(posts, postId);
      case Unauthorized(_) => effects := effects + [Navigate(LoginRoute)];
      case OtherError(_) => error := Some("Failed to delete post");
    }
  }
}
