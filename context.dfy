/** The blog's session and data context: the persisted bearer token, the signed-in
    user, the post and user collections, and the operations that change them.
    Every server answer, and the result of decoding a token, is a parameter. */
module Context {
  import opened Common

  datatype Post = Post(
    id: Option<string>,
    title: string,
    content: string,
    excerpt: string,
    author: string,
    date: Option<string>,
    readTime: string,
    imageUrl: string)

  /** What `addPost` and `updatePost` send: a post without id and date. */
  datatype PostDraft = PostDraft(
    title: string,
    content: string,
    excerpt: string,
    author: string,
    imageUrl: string,
    readTime: string)

  datatype User = User(id: Option<string>, username: string, password: string, role: string, name: string)

  /** What `addUser` sends: a user record without id. */
  datatype NewUser = NewUser(username: string, password: string, role: string, name: string)

  /** The identity claims of a token, or the `user` object of a login reply. */
  datatype Identity = Identity(id: string, role: string, name: string)

  datatype UserType = Viewer | Creator

  /** The body of a successful `POST /users/login`; `user` may be missing from it. */
  datatype LoginReply = LoginReply(token: string, user: Option<Identity>)

  datatype SubscribeResult = SubscribeResult(success: bool, message: string)

  /** The whole context state; `token` is the browser's stored `'token'` entry. */
  datatype Session = Session(
    token: Option<string>,
    posts: seq<Post>,
    users: seq<User>,
    currentUser: Option<User>,
    userType: Option<UserType>)

  const Admin := "admin"
  const SubscribeFailed := "Failed to subscribe"

  /** `isAuthenticated` reads the stored token only, never `currentUser`. */
  predicate Authenticated(s: Session): (b: bool)
    ensures s.token.None? ==> !b
    ensures s.token == Some("") ==> !b
    ensures s.token.Some? && s.token.value != "" ==> b
  {
    Truthy(s.token)
  }

  /** The session user built from token claims or a login reply: no username, no password. */
  function SessionUser(who: Identity): (u: User)
    ensures u.id == Some(who.id) && u.role == who.role && u.name == who.name
    ensures u.username == "" && u.password == ""
  {
    User(Some(who.id), "", "", who.role, who.name)
  }

  // ---------------------------------------------------------------------------
  // Transitions of the session, one per handler
  // ---------------------------------------------------------------------------

  /** `fetchPosts`: a successful GET replaces the posts; a failed one is swallowed. */
  function FetchPostsStep(s: Session, reply: Response<seq<Post>>): (r: Session)
    ensures r.posts == (if reply.Ok? then reply.data else s.posts)
    ensures r.(posts := s.posts) == s
  {
    match reply
    case Ok(fetched) => s.(posts := fetched)
    case Err(_) => s
  }

  /** `fetchUsers`: a successful GET replaces the users; a failed one is swallowed. */
  function FetchUsersStep(s: Session, reply: Response<seq<User>>): (r: Session)
    ensures r.users == (if reply.Ok? then reply.data else s.users)
    ensures r.(users := s.users) == s
  {
    match reply
    case Ok(fetched) => s.(users := fetched)
    case Err(_) => s
  }

  /** The mount effect: fetch the posts, then restore the session from the stored
      token, or throw the token away when it does not decode. */
  function BootstrapStep(s: Session, decode: string -> Option<Identity>,
                         postsReply: Response<seq<Post>>, usersReply: Response<seq<User>>): (r: Session)
    ensures r.posts == FetchPostsStep(s, postsReply).posts
    ensures !Truthy(s.token) ==> r == FetchPostsStep(s, postsReply)
    ensures Truthy(s.token) && decode(s.token.value).None? ==>
      r.token == None && r.currentUser == s.currentUser && r.userType == s.userType && r.users == s.users
    ensures Truthy(s.token) && decode(s.token.value).Some? ==>
      var who := decode(s.token.value).value;
      r.token == s.token && r.currentUser == Some(SessionUser(who)) && r.userType == Some(Creator) &&
      r.users == (if who.role == Admin && usersReply.Ok? then usersReply.data else s.users)
  {
    var fetched := FetchPostsStep(s, postsReply);
    if Truthy(s.token) then
      match decode(s.token.value)
      case Some(who) =>
        var restored := fetched.(currentUser := Some(SessionUser(who)), userType := Some(Creator));
        if who.role == Admin then FetchUsersStep(restored, usersReply) else restored
      case None => fetched.(token := None)
    else
      fetched
  }

  /** `login`: the result is the session after the call and whether it returned true. */
  function LoginStep(s: Session, userType: UserType, reply: Response<LoginReply>,
                     postsReply: Response<seq<Post>>, usersReply: Response<seq<User>>): (r: (Session, bool))
    ensures r.1 <==> reply.Ok? && reply.data.user.Some?
    ensures reply.Err? ==> r.0 == s
    ensures reply.Ok? ==> r.0.token == Some(reply.data.token)
    ensures reply.Ok? && reply.data.user.None? ==> r.0 == s.(token := Some(reply.data.token))
    ensures r.1 ==>
      var who := reply.data.user.value;
      r.0.currentUser == Some(SessionUser(who)) && r.0.userType == Some(userType) &&
      r.0.posts == (if postsReply.Ok? then postsReply.data else s.posts) &&
      r.0.users == (if who.role == Admin && usersReply.Ok? then usersReply.data else s.users)
  {
    match reply
    case Err(_) => (s, false)
    case Ok(body) =>
      var stored := s.(token := Some(body.token));
      match body.user
      // reading `res.data.user.id` throws after the token has been stored
      case None => (stored, false)
      case Some(who) =>
        var signedIn := stored.(currentUser := Some(SessionUser(who)), userType := Some(userType));
        var withPosts := FetchPostsStep(signedIn, postsReply);
        var withUsers := if who.role == Admin then FetchUsersStep(withPosts, usersReply) else withPosts;
        (withUsers, true)
  }

  /** `logout`: forget the token, the user, the user type and the user list; keep the posts. */
  function LogoutStep(s: Session): (r: Session)
    ensures !Authenticated(r)
    ensures r.token == None && r.currentUser == None && r.userType == None && r.users == []
    ensures r.posts == s.posts
  {
    s.(token := None, currentUser := None, userType := None, users := [])
  }

  /** `addPost`, `updatePost` and `deletePost`: write, then re-fetch the posts.
      The result says whether the call threw. */
  function PostWriteStep(s: Session, write: Response<()>, refetch: Response<seq<Post>>): (r: (Session, bool))
    ensures r.1 <==> write.Err?
    ensures r.1 ==> r.0 == s
    ensures !r.1 ==> r.0 == s.(posts := if refetch.Ok? then refetch.data else s.posts)
  {
    match write
    case Err(_) => (s, true)
    case Ok(_) => (FetchPostsStep(s, refetch), false)
  }

  /** `addUser` and `deleteUser`: write, then re-fetch the users. */
  function UserWriteStep(s: Session, write: Response<()>, refetch: Response<seq<User>>): (r: (Session, bool))
    ensures r.1 <==> write.Err?
    ensures r.1 ==> r.0 == s
    ensures !r.1 ==> r.0 == s.(users := if refetch.Ok? then refetch.data else s.users)
  {
    match write
    case Err(_) => (s, true)
    case Ok(_) => (FetchUsersStep(s, refetch), false)
  }

  /** `subscribe` and `subscribeToProducts` never throw: the server's message on
      success, its `error` field or a fixed text on failure. */
  function SubscriptionResult(reply: Response<string>): (r: SubscribeResult)
    ensures r.success <==> reply.Ok?
    ensures reply.Ok? ==> r.message == reply.data
    ensures reply.Err? && Truthy(reply.error) ==> r.message == reply.error.value
    ensures reply.Err? && !Truthy(reply.error) ==> r.message == SubscribeFailed
  {
    match reply
    case Ok(message) => SubscribeResult(true, message)
    case Err(error) => SubscribeResult(false, OrElse(error, SubscribeFailed))
  }

  // ---------------------------------------------------------------------------
  // Properties of the transitions
  // ---------------------------------------------------------------------------

  lemma LogoutIdempotent(s: Session)
    ensures LogoutStep(LogoutStep(s)) == LogoutStep(s)
  {
  }

  /** Authentication follows the token alone: setting or clearing the user changes nothing. */
  lemma AuthenticationIgnoresUser(s: Session, u: Option<User>)
    ensures Authenticated(s.(currentUser := u)) == Authenticated(s)
  {
  }

  /** With a decodable token, users are fetched exactly when the claimed role is admin
      (a fetch that returns the list already held cannot be told apart). */
  lemma BootstrapFetchesUsersIffAdmin(s: Session, decode: string -> Option<Identity>,
                                      postsReply: Response<seq<Post>>, usersReply: Response<seq<User>>)
    requires Truthy(s.token) && decode(s.token.value).Some?
    requires usersReply.Ok? && usersReply.data != s.users
    ensures BootstrapStep(s, decode, postsReply, usersReply).users == usersReply.data
            <==> decode(s.token.value).value.role == Admin
  {
  }

  /** A login reply without a `user` object still leaves a stored token behind:
      the context reports authenticated while there is no current user. */
  lemma LoginWithoutUserLeavesToken(s: Session, userType: UserType, token: string,
                                    postsReply: Response<seq<Post>>, usersReply: Response<seq<User>>)
    requires s.currentUser == None && token != ""
    ensures var (after, ok) := LoginStep(s, userType, Ok(LoginReply(token, None)), postsReply, usersReply);
            !ok && Authenticated(after) && after.currentUser == None
  {
  }

  // ---------------------------------------------------------------------------
  // The invariant kept by every operation after mount
  // ---------------------------------------------------------------------------

  /** A signed-in user always comes with a stored token. */
  predicate Consistent(s: Session) {
    s.currentUser.Some? ==> s.token.Some?
  }

  /** The operations a user can trigger once the context is mounted. */
  datatype Action =
    | LogIn(userType: UserType, reply: Response<LoginReply>, postsReply: Response<seq<Post>>, usersReply: Response<seq<User>>)
    | LogOut
    | PostWrite(write: Response<()>, postsReply: Response<seq<Post>>)
    | UserWrite(write: Response<()>, usersReply: Response<seq<User>>)
    | PasswordChange(write: Response<()>)
    | RefreshPosts(postsReply: Response<seq<Post>>)

  function Apply(s: Session, a: Action): Session {
    match a
    case LogIn(t, reply, postsReply, usersReply) => LoginStep(s, t, reply, postsReply, usersReply).0
    case LogOut => LogoutStep(s)
    case PostWrite(write, postsReply) => PostWriteStep(s, write, postsReply).0
    case UserWrite(write, usersReply) => UserWriteStep(s, write, usersReply).0
    case PasswordChange(_) => s
    case RefreshPosts(postsReply) => FetchPostsStep(s, postsReply)
  }

  function Run(s: Session, actions: seq<Action>): Session
    decreases |actions|
  {
    if actions == [] then s else Run(Apply(s, actions[0]), actions[1..])
  }

  /** The first state of the context: whatever token the browser kept, nothing else. */
  function Mounted(stored: Option<string>): Session {
    Session(stored, [], [], None, None)
  }

  lemma {:induction false} RunKeepsConsistent(s: Session, actions: seq<Action>)
    requires Consistent(s)
    ensures Consistent(Run(s, actions))
    decreases |actions|
  {
    if actions != [] {
      RunKeepsConsistent(Apply(s, actions[0]), actions[1..]);
    }
  }

  /** Every state reachable from mount, bootstrap and any later actions keeps the invariant. */
  lemma ReachableIsConsistent(stored: Option<string>, decode: string -> Option<Identity>,
                              postsReply: Response<seq<Post>>, usersReply: Response<seq<User>>,
                              actions: seq<Action>)
    ensures Consistent(Run(BootstrapStep(Mounted(stored), decode, postsReply, usersReply), actions))
  {
    RunKeepsConsistent(BootstrapStep(Mounted(stored), decode, postsReply, usersReply), actions);
  }

  /** Actions that never touch the session leave authentication and the user as they were. */
  lemma {:induction false} WritesKeepSession(s: Session, actions: seq<Action>)
    requires forall i :: 0 <= i < |actions| ==> !actions[i].LogIn? && !actions[i].LogOut?
    ensures Run(s, actions).token == s.token
    ensures Run(s, actions).currentUser == s.currentUser
    ensures Run(s, actions).userType == s.userType
    decreases |actions|
  {
    if actions != [] {
      WritesKeepSession(Apply(s, actions[0]), actions[1..]);
    }
  }

  // ---------------------------------------------------------------------------
  // The context object, updated in place
  // ---------------------------------------------------------------------------

  class BlogStore {
    var token: Option<string>
    var posts: seq<Post>
    var users: seq<User>
    var currentUser: Option<User>
    var userType: Option<UserType>

    function State(): Session
      reads this
    {
      Session(token, posts, users, currentUser, userType)
    }

    predicate IsAuthenticated()
      reads this
    {
      Authenticated(State())
    }

    /** The provider's first render: empty collections, no user, the browser's stored token. */
    constructor (stored: Option<string>)
      ensures State() == Mounted(stored)
    {
      token, posts, users, currentUser, userType := stored, [], [], None, None;
    }

    method FetchPosts(reply: Response<seq<Post>>)
      modifies this
      ensures State() == FetchPostsStep(old(State()), reply)
    {
      if reply.Ok? {
        posts := reply.data;
      }
    }

    method FetchUsers(reply: Response<seq<User>>)
      modifies this
      ensures State() == FetchUsersStep(old(State()), reply)
    {
      if reply.Ok? {
        users := reply.data;
      }
    }

    method Bootstrap(decode: string -> Option<Identity>, postsReply: Response<seq<Post>>, usersReply: Response<seq<User>>)
      modifies this
      ensures State() == BootstrapStep(old(State()), decode, postsReply, usersReply)
    {
      FetchPosts(postsReply);
      if token.Some? && token.value != "" {
        match decode(token.value)
        case Some(who) =>
          currentUser := Some(SessionUser(who));
          userType := Some(Creator);
          if who.role == Admin {
            FetchUsers(usersReply);
          }
        case None =>
          token := None;
      }
    }

    method Login(username: string, password: string, newType: UserType, reply: Response<LoginReply>,
                 postsReply: Response<seq<Post>>, usersReply: Response<seq<User>>) returns (ok: bool)
      modifies this
      ensures (State(), ok) == LoginStep(old(State()), newType, reply, postsReply, usersReply)
    {
      if reply.Err? {
        return false;
      }
      token := Some(reply.data.token);
      if reply.data.user.None? {
        return false;
      }
      var who := reply.data.user.value;
      currentUser := Some(SessionUser(who));
      userType := Some(newType);
      FetchPosts(postsReply);
      if who.role == Admin {
        FetchUsers(usersReply);
      }
      return true;
    }

    method Logout()
      modifies this
      ensures State() == LogoutStep(old(State()))
    {
      token := None;
      currentUser := None;
      userType := None;
      users := [];
    }

    method AddPost(post: PostDraft, write: Response<()>, refetch: Response<seq<Post>>) returns (threw: bool)
      modifies this
      ensures (State(), threw) == PostWriteStep(old(State()), write, refetch)
    {
      threw := write.Err?;
      if !threw {
        FetchPosts(refetch);
      }
    }

    method UpdatePost(id: string, post: PostDraft, write: Response<()>, refetch: Response<seq<Post>>) returns (threw: bool)
      modifies this
      ensures (State(), threw) == PostWriteStep(old(State()), write, refetch)
    {
      threw := write.Err?;
      if !threw {
        FetchPosts(refetch);
      }
    }

    method DeletePost(id: string, write: Response<()>, refetch: Response<seq<Post>>) returns (threw: bool)
      modifies this
      ensures (State(), threw) == PostWriteStep(old(State()), write, refetch)
    {
      threw := write.Err?;
      if !threw {
        FetchPosts(refetch);
      }
    }

    method AddUser(user: NewUser, write: Response<()>, refetch: Response<seq<User>>) returns (threw: bool)
      modifies this
      ensures (State(), threw) == UserWriteStep(old(State()), write, refetch)
    {
      threw := write.Err?;
      if !threw {
        FetchUsers(refetch);
      }
    }

    method DeleteUser(id: string, write: Response<()>, refetch: Response<seq<User>>) returns (threw: bool)
      modifies this
      ensures (State(), threw) == UserWriteStep(old(State()), write, refetch)
    {
      threw := write.Err?;
      if !threw {
        FetchUsers(refetch);
      }
    }

    /** Changes nothing in the context, whatever the outcome (no `modifies`). */
    method ChangeUserPassword(id: string, newPassword: string, write: Response<()>) returns (threw: bool)
      ensures threw <==> write.Err?
    {
      threw := write.Err?;
    }

    method Subscribe(email: string, name: string, reply: Response<string>) returns (result: SubscribeResult)
      ensures result.success <==> reply.Ok?
      ensures reply.Ok? ==> result.message == reply.data
      ensures reply.Err? ==> result.message == OrElse(reply.error, SubscribeFailed)
    {
      result := SubscriptionResult(reply);
    }

    method SubscribeToProducts(email: string, name: string, reply: Response<string>) returns (result: SubscribeResult)
      ensures result.success <==> reply.Ok?
      ensures reply.Ok? ==> result.message == reply.data
      ensures reply.Err? ==> result.message == OrElse(reply.error, SubscribeFailed)
    {
      result := SubscriptionResult(reply);
    }
  }
}
