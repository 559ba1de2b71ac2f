/** The blog page: who may edit or delete a post, which posts are listed, the
    delete handler and the newsletter form. */
module Blogs {
  import opened Common
  import opened Context

  const MissingFields := "Please enter both name and email"

  /** `canEditPost`: an admin may edit any post, anyone else only the posts under their name. */
  predicate CanEditPost(currentUser: Option<User>, postAuthor: string): (b: bool)
    ensures currentUser.None? ==> !b
    ensures currentUser.Some? && currentUser.value.role == Admin ==> b
    ensures currentUser.Some? && currentUser.value.role != Admin ==> (b <==> currentUser.value.name == postAuthor)
  {
    currentUser.Some? && (currentUser.value.role == Admin || currentUser.value.name == postAuthor)
  }

  /** `canDeletePost`, written separately in the page with the same test. */
  predicate CanDeletePost(currentUser: Option<User>, postAuthor: string): (b: bool)
    ensures currentUser.None? ==> !b
    ensures currentUser.Some? && currentUser.value.role == Admin ==> b
    ensures currentUser.Some? && currentUser.value.role != Admin ==> (b <==> currentUser.value.name == postAuthor)
  {
    currentUser.Some? && (currentUser.value.role == Admin || currentUser.value.name == postAuthor)
  }

  /** Editing and deleting are granted to the same people: nobody when signed out,
      every post to an admin, and only their own posts to anyone else. */
  lemma PermissionsAgree(currentUser: Option<User>, postAuthor: string)
    ensures CanEditPost(currentUser, postAuthor) == CanDeletePost(currentUser, postAuthor)
    ensures currentUser.None? ==> !CanEditPost(currentUser, postAuthor)
    ensures currentUser.Some? && currentUser.value.role == Admin ==> CanEditPost(currentUser, postAuthor)
    ensures currentUser.Some? && currentUser.value.role != Admin ==>
      (CanEditPost(currentUser, postAuthor) <==> currentUser.value.name == postAuthor)
  {
  }

  /** After `logout` no post can be edited or deleted. */
  lemma NoPermissionAfterLogout(s: Session, postAuthor: string)
    ensures !CanEditPost(LogoutStep(s).currentUser, postAuthor)
    ensures !CanDeletePost(LogoutStep(s).currentUser, postAuthor)
  {
  }

  // ---------------------------------------------------------------------------
  // Listed posts
  // ---------------------------------------------------------------------------

  /** `r` can be obtained from `s` by deleting elements, keeping the order. */
  predicate IsSubsequence<T(==)>(r: seq<T>, s: seq<T>)
    decreases |s|
  {
    if r == [] then true
    else if s == [] then false
    else if r[0] == s[0] then IsSubsequence(r[1..], s[1..])
    else IsSubsequence(r, s[1..])
  }

  lemma {:induction false} SubsequenceOfItself<T>(s: seq<T>)
    ensures IsSubsequence(s, s)
    decreases |s|
  {
    if s != [] {
      SubsequenceOfItself(s[1..]);
    }
  }

  /** `posts.filter(post => post.author === author)`: exactly the posts by `author`, in order. */
  function PostsBy(posts: seq<Post>, author: string): (r: seq<Post>)
    ensures IsSubsequence(r, posts)
    ensures forall i :: 0 <= i < |r| ==> r[i].author == author
    ensures forall p :: multiset(r)[p] == if p.author == author then multiset(posts)[p] else 0
    decreases |posts|
  {
    if posts == [] then []
    else
      var rest := PostsBy(posts[1..], author);
      assert posts == [posts[0]] + posts[1..];
      if posts[0].author == author then [posts[0]] + rest else rest
  }

  /** Only an authenticated user who is not an admin sees a narrowed list. */
  predicate SeesOwnPostsOnly(isAuthenticated: bool, currentUser: Option<User>) {
    isAuthenticated && currentUser.Some? && currentUser.value.role != Admin
  }

  /** `userPosts`: the posts the page lists. */
  function UserPosts(isAuthenticated: bool, currentUser: Option<User>, posts: seq<Post>): (r: seq<Post>)
    ensures IsSubsequence(r, posts)
    ensures !SeesOwnPostsOnly(isAuthenticated, currentUser) ==> r == posts
    ensures SeesOwnPostsOnly(isAuthenticated, currentUser) ==>
      (forall i :: 0 <= i < |r| ==> r[i].author == currentUser.value.name) &&
      (forall p :: multiset(r)[p] == if p.author == currentUser.value.name then multiset(posts)[p] else 0)
  {
    if SeesOwnPostsOnly(isAuthenticated, currentUser) then
      PostsBy(posts, currentUser.value.name)
    else
      SubsequenceOfItself(posts);
      posts
  }

  /** For a signed-in user the listed posts are exactly the posts the user may edit. */
  lemma ListedIffEditable(isAuthenticated: bool, currentUser: Option<User>, posts: seq<Post>, p: Post)
    requires isAuthenticated && currentUser.Some?
    requires p in posts
    ensures p in UserPosts(isAuthenticated, currentUser, posts) <==> CanEditPost(currentUser, p.author)
  {
    var listed := UserPosts(isAuthenticated, currentUser, posts);
    assert p in listed <==> multiset(listed)[p] > 0;
    assert multiset(posts)[p] > 0;
  }

  // ---------------------------------------------------------------------------
  // Edit and delete controls on a post card
  // ---------------------------------------------------------------------------

  /** The edit button: inside the controls block, shown when `canEditPost`. */
  predicate EditButtonShown(isAuthenticated: bool, currentUser: Option<User>, postAuthor: string): (b: bool)
    ensures b <==> isAuthenticated && CanEditPost(currentUser, postAuthor)
  {
    isAuthenticated && (CanEditPost(currentUser, postAuthor) || CanDeletePost(currentUser, postAuthor))
    && CanEditPost(currentUser, postAuthor)
  }

  /** The delete button: inside the controls block, shown when `canDeletePost`. */
  predicate DeleteButtonShown(isAuthenticated: bool, currentUser: Option<User>, postAuthor: string): (b: bool)
    ensures b <==> isAuthenticated && CanDeletePost(currentUser, postAuthor)
  {
    isAuthenticated && (CanEditPost(currentUser, postAuthor) || CanDeletePost(currentUser, postAuthor))
    && CanDeletePost(currentUser, postAuthor)
  }

  /** Controls appear only for an authenticated, permitted user, and then both appear. */
  lemma ControlsNeedPermission(isAuthenticated: bool, currentUser: Option<User>, postAuthor: string)
    ensures EditButtonShown(isAuthenticated, currentUser, postAuthor) <==>
            isAuthenticated && CanEditPost(currentUser, postAuthor)
    ensures DeleteButtonShown(isAuthenticated, currentUser, postAuthor) <==>
            EditButtonShown(isAuthenticated, currentUser, postAuthor)
  {
  }

  // ---------------------------------------------------------------------------
  // The page's own state and handlers
  // ---------------------------------------------------------------------------

  class BlogsPage {
    var email: string
    var name: string
    var subscriptionMessage: Option<Message>

    constructor ()
      ensures email == "" && name == "" && subscriptionMessage == None
    {
      email, name, subscriptionMessage := "", "", None;
    }

    /** `handleDeletePost`: `deletePost` runs only for a permitted user who confirmed;
        `called` says whether it ran and `threw` whether it threw. */
    method HandleDeletePost(store: BlogStore, postId: string, postAuthor: string, confirmed: bool,
                            write: Response<()>, refetch: Response<seq<Post>>) returns (called: bool, threw: bool)
      modifies store
      ensures called <==> CanDeletePost(old(store.currentUser), postAuthor) && confirmed
      ensures !called ==> store.State() == old(store.State()) && !threw
      ensures called ==> (store.State(), threw) == PostWriteStep(old(store.State()), write, refetch)
    {
      called, threw := false, false;
      var user := store.currentUser;
      if (user.Some? && user.value.role == Admin) || (user.Some? && user.value.name == postAuthor) {
        if confirmed {
          called := true;
          threw := store.DeletePost(postId, write, refetch);
        }
      }
    }

    /** `handleSubscribe`: both fields are required; the banner follows the result, and
        the fields are cleared only after a successful subscription. */
    method HandleSubscribe(store: BlogStore, reply: Response<string>) returns (called: bool)
      modifies this
      ensures called <==> old(email) != "" && old(name) != ""
      ensures !called ==> subscriptionMessage == Some(Message(MissingFields, Error)) &&
                          email == old(email) && name == old(name)
      ensures called ==> subscriptionMessage.Some? &&
                         (subscriptionMessage.value.kind == Success <==> reply.Ok?) &&
                         subscriptionMessage.value.text == SubscriptionResult(reply).message
      ensures called && reply.Ok? ==> email == "" && name == ""
      ensures called && reply.Err? ==> email == old(email) && name == old(name)
    {
      if email == "" || name == "" {
        subscriptionMessage := Some(Message(MissingFields, Error));
        return false;
      }
      called := true;
      var result := store.Subscribe(email, name, reply);
      subscriptionMessage := Some(Message(result.message, if result.success then Success else Error));
      if result.success {
        email := "";
        name := "";
      }
    }
  }
}
