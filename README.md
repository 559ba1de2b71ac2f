# Grace Mobility blog front-end: session context and page handlers

This project models the logic of the Grace Mobility website's blog front-end: the
session context that keeps the bearer token, the signed-in user, the posts and the
users, and the event handlers of the pages and dialogs that use it (the blog page,
the post editor, user management, the support chatbot, the unsubscribe page and the
products page).

Every handler is one deterministic step. Whatever the browser, a library or the
backend would supply is passed in as a parameter:

- an HTTP answer is a `Response<T>`, either `Ok(data)` or `Err(error)`, where `error`
  is the server's optional `error` field;
- `jwtDecode` is a function `string -> Option<Identity>`;
- the user's answer to `confirm` is a `bool`;
- a chat answer is `Replied(reply?)` or `Offline`.

The modules follow the source files:

- `Common`: the shared datatypes (`Option`, `Response`, `Call`, `Message`) and JavaScript truthiness.
- `Context` (`src/contexts/BlogContext.tsx`): the session state `Session`, one transition function
  per operation (`BootstrapStep`, `LoginStep`, `LogoutStep`, `PostWriteStep`, ...), and the class
  `BlogStore`. Each state-changing `BlogStore` method updates the fields in place and is proved
  equal to its transition function. `ChangeUserPassword`, `Subscribe` and `SubscribeToProducts`
  change no context state and have no `modifies` clause. The invariant "a signed-in user comes with a stored token" is proved over
  any sequence of actions after mount.
- `Blogs` (`src/pages/BlogsPage.tsx`): the permission predicates, the listed posts (`UserPosts`),
  the edit and delete button gating, and the page's delete and newsletter handlers.
- `Editor` (`src/components/BlogEditor.tsx`): the initial field values, the image upload and the
  submit dispatch to `addPost` or `updatePost`.
- `Users` (`src/components/UserManagement.tsx`): the add-user form and the change-password dialog.
- `Chat` (`src/components/Chatbot.tsx`): JavaScript `trim`, the two halves of `sendMessage`, and
  proofs over whole conversations, where a send either completes before the next event or is split
  into its start and a later answer. The log only grows, and every user message gets exactly one
  bot answer once nothing is outstanding. When each answer arrives before the next send, the log
  also alternates: greeting, then user message and bot answer pairs. Overlapping Enter sends break
  that alternation (`Chat.OverlappingEnterSends`).
- `Unsubscribe` (`src/pages/UnsubscribePage.tsx`): the unsubscribe effect and the banner heading.
- `Products` (`src/pages/ProductsPage.tsx`): the status colour and icon, and the subscription
  handler. It is split at its `await` so that the in-flight `isLoading` state can be stated.

Four behaviours of the code are easy to miss, and the model keeps them as written:

- `isAuthenticated` is `!!localStorage.getItem('token')`. A stored empty string counts as signed
  out. Nothing ties it to `currentUser`.
- `login` stores the token before it reads `res.data.user`. A success reply without a `user`
  object therefore stores the token, throws, and returns `false`. No provider state changes on
  that path, so `isAuthenticated`, computed when the provider renders, turns true only once the
  provider next renders. From then on it reports authenticated with no current user
  (`Context.LoginWithoutUserLeavesToken`). So "user present if
  and only if token present" does not hold in the code. Only "user present implies token present"
  is proved (`Context.ReachableIsConsistent`).
- The products page catches a throw from `subscribeToProducts`, but the context's
  `subscribeToProducts` never throws. `Products.FinishSubscribe` models the catch branch anyway.
  `Products.HandleSubscribe`, wired to the context, never takes it.
- The chatbot's send button is disabled while loading (`Chat.Step`: a click while loading changes
  nothing), but the Enter key path is not. `sendMessage` itself checks only for blank input
  (`Chat.EnterIgnoresLoading`).

## Model

| member | source | states |
|---|---|---|
| `Context.SessionUser` | src/contexts/BlogContext.tsx:59 | the session user carries the claimed id, role and name, with empty username and password |
| `Context.FetchPostsStep` | src/contexts/BlogContext.tsx:68-75 | a successful fetch replaces the posts wholesale; a failed one leaves everything unchanged |
| `Context.FetchUsersStep` | src/contexts/BlogContext.tsx:77-87 | a successful fetch replaces the users wholesale; a failed one leaves everything unchanged |
| `Context.BootstrapStep` | src/contexts/BlogContext.tsx:53-66 | posts are fetched; with no truthy token nothing else changes; an undecodable token is removed and the user stays as it was; a decodable one sets the user from the claims and user type creator, and the users are fetched only for the admin role |
| `Context.BootstrapFetchesUsersIffAdmin` | src/contexts/BlogContext.tsx:55-61 | with a decodable token, the user list is replaced by the fetched one if and only if the claimed role is admin |
| `Context.LoginStep` | src/contexts/BlogContext.tsx:89-102 | login returns true exactly when the request succeeds with a user; a rejected request changes nothing; success stores the token, sets the user without username or password and the given user type, re-fetches posts and fetches users only for admin |
| `Context.LoginWithoutUserLeavesToken` | src/contexts/BlogContext.tsx:91-101 | a success reply lacking `user` returns false but leaves the token stored, so the context is authenticated with no current user |
| `Context.LogoutStep` | src/contexts/BlogContext.tsx:104-109 | after logout there is no token, no user, no user type and no user list, the context is not authenticated, and the posts are kept |
| `Context.LogoutIdempotent` | src/contexts/BlogContext.tsx:104-109 | logging out twice gives the same state as logging out once |
| `Context.Authenticated` | src/contexts/BlogContext.tsx:200 | `!!localStorage.getItem('token')`: false with no stored token and with an empty one, true with any non-empty token |
| `Context.AuthenticationIgnoresUser` | src/contexts/BlogContext.tsx:200 | whether the context is authenticated does not depend on `currentUser` |
| `Context.PostWriteStep` | src/contexts/BlogContext.tsx:111-142 | a post write throws exactly when the request fails, and then nothing changes; otherwise only the posts change, to the re-fetched list (never a local patch) |
| `Context.UserWriteStep` | src/contexts/BlogContext.tsx:144-164 | a user write throws exactly when the request fails, and then nothing changes; otherwise only the users change, to the re-fetched list |
| `Context.SubscriptionResult` | src/contexts/BlogContext.tsx:176-194 | the result is a success exactly when the request succeeds; the message is the server's message, else its non-empty error, else "Failed to subscribe" |
| `Context.RunKeepsConsistent` | src/contexts/BlogContext.tsx:89-174 | every sequence of logins, logouts, writes and fetches keeps "a current user implies a stored token" |
| `Context.ReachableIsConsistent` | src/contexts/BlogContext.tsx:47-66 | every state reached from mount, bootstrap and later actions has a stored token whenever it has a user |
| `Context.WritesKeepSession` | src/contexts/BlogContext.tsx:111-174 | writes, password changes and fetches never change the token, the user or the user type |
| `Context.BlogStore.constructor` | src/contexts/BlogContext.tsx:47-51 | the context starts with the stored token, empty collections, no user and no user type |
| `Context.BlogStore.FetchPosts` | src/contexts/BlogContext.tsx:68-75 | updates the object as `FetchPostsStep` |
| `Context.BlogStore.FetchUsers` | src/contexts/BlogContext.tsx:77-87 | updates the object as `FetchUsersStep` |
| `Context.BlogStore.Bootstrap` | src/contexts/BlogContext.tsx:53-66 | updates the object as `BootstrapStep` |
| `Context.BlogStore.Login` | src/contexts/BlogContext.tsx:89-102 | updates the object and returns as `LoginStep` |
| `Context.BlogStore.Logout` | src/contexts/BlogContext.tsx:104-109 | updates the object as `LogoutStep` |
| `Context.BlogStore.AddPost` | src/contexts/BlogContext.tsx:111-120 | updates the object and reports a throw as `PostWriteStep` |
| `Context.BlogStore.UpdatePost` | src/contexts/BlogContext.tsx:122-131 | updates the object and reports a throw as `PostWriteStep` |
| `Context.BlogStore.DeletePost` | src/contexts/BlogContext.tsx:133-142 | updates the object and reports a throw as `PostWriteStep` |
| `Context.BlogStore.AddUser` | src/contexts/BlogContext.tsx:144-153 | updates the object and reports a throw as `UserWriteStep` |
| `Context.BlogStore.DeleteUser` | src/contexts/BlogContext.tsx:155-164 | updates the object and reports a throw as `UserWriteStep` |
| `Context.BlogStore.ChangeUserPassword` | src/contexts/BlogContext.tsx:166-174 | throws exactly when the request fails and changes nothing in the context either way |
| `Context.BlogStore.Subscribe` | src/contexts/BlogContext.tsx:176-184 | never throws; success exactly when the request succeeds, with the server's message, else the error or "Failed to subscribe" |
| `Context.BlogStore.SubscribeToProducts` | src/contexts/BlogContext.tsx:186-194 | never throws; success exactly when the request succeeds, with the server's message, else the error or "Failed to subscribe" |
| `Blogs.CanEditPost` | src/pages/BlogsPage.tsx:88-90 | nobody may edit when signed out; an admin may edit every post; anyone else exactly the posts whose author is their name |
| `Blogs.CanDeletePost` | src/pages/BlogsPage.tsx:92-94 | nobody may delete when signed out; an admin may delete every post; anyone else exactly the posts whose author is their name |
| `Blogs.PermissionsAgree` | src/pages/BlogsPage.tsx:88-94 | edit and delete permission coincide: false with no user, true for an admin, and otherwise true exactly for the user's own posts |
| `Blogs.NoPermissionAfterLogout` | src/pages/BlogsPage.tsx:88-94 | after logout no post can be edited or deleted |
| `Blogs.PostsBy` | src/pages/BlogsPage.tsx:119 | the filter keeps, in their original order, exactly the posts by the author, each as often as in the input |
| `Blogs.UserPosts` | src/pages/BlogsPage.tsx:118-120 | the listed posts are always a subsequence of the posts; an authenticated non-admin sees exactly their own posts, anyone else sees all posts |
| `Blogs.ListedIffEditable` | src/pages/BlogsPage.tsx:118-120 | for an authenticated user, a post is listed if and only if the user may edit it |
| `Blogs.SubsequenceOfItself` | src/pages/BlogsPage.tsx:120 | the unfiltered list is a subsequence of the posts |
| `Blogs.EditButtonShown` | src/pages/BlogsPage.tsx:270-280 | the nested guards reduce to: shown exactly for an authenticated user who may edit the post |
| `Blogs.DeleteButtonShown` | src/pages/BlogsPage.tsx:270-291 | the nested guards reduce to: shown exactly for an authenticated user who may delete the post |
| `Blogs.ControlsNeedPermission` | src/pages/BlogsPage.tsx:270-291 | the edit button shows exactly for an authenticated, permitted user, and the delete button exactly when the edit button does |
| `Blogs.BlogsPage.constructor` | src/pages/BlogsPage.tsx:42-44 | the newsletter form starts empty with no banner |
| `Blogs.BlogsPage.HandleDeletePost` | src/pages/BlogsPage.tsx:80-86 | `deletePost` runs if and only if the user is permitted and confirmed; otherwise the context is unchanged |
| `Blogs.BlogsPage.HandleSubscribe` | src/pages/BlogsPage.tsx:104-116 | a missing email or name sets the fixed error and calls nothing; otherwise the banner is success exactly when the subscription succeeded, and the fields are cleared only then |
| `Editor.InitialText` | src/components/BlogEditor.tsx:25-29 | a text field starts from the edited post, or empty for a new post |
| `Editor.InitialReadTime` | src/components/BlogEditor.tsx:30 | the read time is never empty: the post's own when non-empty, else "5 min read" |
| `Editor.SubmitCall` | src/components/BlogEditor.tsx:70-90 | no write when a field is empty or no one is signed in; the draft's author is the current user; a post with an id is updated, any other is added |
| `Editor.SavedAuthorIsCurrentUser` | src/components/BlogEditor.tsx:76-83 | whoever wrote the edited post, the saved author is the current user's name |
| `Editor.BlogEditor.constructor` | src/components/BlogEditor.tsx:23-31 | fields start from the given post or empty, with read time defaulting, no image and no upload running |
| `Editor.BlogEditor.BeginUpload` | src/components/BlogEditor.tsx:43-46 | the upload starts, and `uploading` is set, only when a file was picked |
| `Editor.BlogEditor.FinishUpload` | src/components/BlogEditor.tsx:59-66 | a successful upload sets the image URL to the returned key, a failed one keeps it, and `uploading` is false afterwards |
| `Editor.BlogEditor.HandleImageUpload` | src/components/BlogEditor.tsx:43-68 | with no file nothing changes; otherwise the upload result decides the image URL and `uploading` ends false |
| `Editor.BlogEditor.HandleSubmit` | src/components/BlogEditor.tsx:70-95 | the write made is the one `SubmitCall` chooses; with none the context is unchanged; the editor closes only after a write that did not throw |
| `Users.UserManagement.constructor` | src/components/UserManagement.tsx:12-17 | the form starts empty with role creator, with no error, no dialog and no banner |
| `Users.UserManagement.HandleAddUser` | src/components/UserManagement.tsx:29-42 | an incomplete form sets "Please fill in all fields" and calls nothing; success resets the form and clears the error; failure keeps the form and sets "Failed to add user" |
| `Users.UserManagement.OpenPasswordDialog` | src/components/UserManagement.tsx:176 | the dialog opens only for a user with an id |
| `Users.UserManagement.ClosePasswordDialog` | src/components/UserManagement.tsx:212 | closing the dialog clears the selected user |
| `Users.UserManagement.HandleDeleteUser` | src/components/UserManagement.tsx:184 | `deleteUser` is called only for a user with an id, and then the context changes as `UserWriteStep` |
| `Users.UserManagement.HandleChangePassword` | src/components/UserManagement.tsx:44-62 | an empty password sets an error and calls nothing; success closes the dialog, clears password and error and shows success; failure keeps the dialog open and sets both error texts |
| `Chat.Initial` | src/components/Chatbot.tsx:13-22 | the log starts with exactly one bot message, an empty input and no loading |
| `Chat.TrimStart` | src/components/Chatbot.tsx:30 | the result is a suffix of the input, only white space was dropped, and it does not start with white space |
| `Chat.TrimEnd` | src/components/Chatbot.tsx:30 | the result is a prefix of the input, only white space was dropped, and it does not end with white space |
| `Chat.TrimEmptyIffBlank` | src/components/Chatbot.tsx:30 | the trimmed input is empty if and only if the input is all white space |
| `Chat.BotText` | src/components/Chatbot.tsx:58-72 | the bot's text is never empty: the reply when present and non-empty, else the fallback text, or the offline text on error |
| `Chat.Begin` | src/components/Chatbot.tsx:29-41 | blank input changes nothing; otherwise the raw input is appended as a user message, the input is cleared and loading starts |
| `Chat.Complete` | src/components/Chatbot.tsx:58-75 | completion appends exactly one bot message and ends loading |
| `Chat.Send` | src/components/Chatbot.tsx:29-76 | a send whose answer lands before anything else: blank input changes nothing; otherwise the user's raw input and then one bot answer are appended, the input is empty and loading is off |
| `Chat.KeyDown` | src/components/Chatbot.tsx:78-83 | only Enter without Shift on non-blank input sends, appending the input and one answer; every other key or blank input changes nothing |
| `Chat.EnterIgnoresLoading` | src/components/Chatbot.tsx:78-83 | Enter on non-blank input sends even while an answer is loading, unlike the disabled button at line 192 |
| `Chat.Step` | src/components/Chatbot.tsx:181-192 | typing replaces the input; a click while loading changes nothing (the button is disabled); Enter on non-blank input starts a send even while loading, logging the input with one more answer outstanding; an answer with none outstanding changes nothing |
| `Chat.StepEffect` | src/components/Chatbot.tsx:29-83 | one event leaves the log alone, appends the user's message for a started send, appends one answer to an outstanding request, or appends a whole atomic send |
| `Chat.RunAppendOnly` | src/components/Chatbot.tsx:39-67 | over any sequence of typing, clicks, key presses, started sends and late answers, the earlier log is a prefix of the later one (every update is `prev => [...prev, x]`) |
| `Chat.RunKeepsBalanced` | src/components/Chatbot.tsx:29-76 | however sends overlap, the user messages plus the greeting equal the bot messages plus the answers still outstanding |
| `Chat.RunKeepsPaired` | src/components/Chatbot.tsx:29-83 | when every answer lands before the next event, the alternation "greeting, then user message and bot answer pairs" and "not loading" are kept by every event |
| `Chat.OverlappingLog` | src/components/Chatbot.tsx:39-83 | two Enter sends whose answers both land after the second send log greeting, first input, second input, first answer, second answer |
| `Chat.OverlappingEnterSends` | src/components/Chatbot.tsx:39-83 | two Enter sends whose answers both land later log greeting, input, input, answer, answer, which does not alternate |
| `Chat.ConversationFromStart` | src/components/Chatbot.tsx:13-83 | any conversation from the greeting extends the greeting and stays balanced; one of atomic sends also alternates user and bot and ends not loading |
| `Chat.Chatbot.constructor` | src/components/Chatbot.tsx:13-22 | the widget starts in the initial state |
| `Chat.Chatbot.BeginSend` | src/components/Chatbot.tsx:29-41 | updates the widget as `Begin` and hands the raw input to the request |
| `Chat.Chatbot.CompleteSend` | src/components/Chatbot.tsx:58-75 | updates the widget as `Complete` |
| `Chat.Chatbot.SendMessage` | src/components/Chatbot.tsx:29-76 | a whole send: `Begin`, then `Complete` when accepted |
| `Chat.Chatbot.HandleKeyDown` | src/components/Chatbot.tsx:78-83 | Enter without Shift sends; any other key, Shift+Enter included, changes nothing |
| `Unsubscribe.Heading` | src/pages/UnsubscribePage.tsx:64 | the heading is determined by the message type alone, one text per type |
| `Unsubscribe.UnsubscribePage.constructor` | src/pages/UnsubscribePage.tsx:8-9 | the page starts loading with no message |
| `Unsubscribe.UnsubscribePage.Unsubscribe` | src/pages/UnsubscribePage.tsx:11-35 | a missing email or token gives "Invalid unsubscribe link" with no request; success shows the server message as success; failure shows the error or "Failed to unsubscribe"; loading ends on every path |
| `Products.StatusColor` | src/pages/ProductsPage.tsx:85-96 | every status gets one of four classes, each known status its own, and every unknown status gray |
| `Products.IconFor` | src/pages/ProductsPage.tsx:98-108 | each known status gets its own icon and every other status none |
| `Products.IconIffColored` | src/pages/ProductsPage.tsx:85-108 | a badge has an icon exactly when its colour is not the gray default |
| `Products.ProductsPage.constructor` | src/pages/ProductsPage.tsx:11-14 | the form starts empty, with no banner and not loading |
| `Products.ProductsPage.BeginSubscribe` | src/pages/ProductsPage.tsx:111-117 | a missing email or name sets the error and leaves `isLoading` untouched; otherwise loading starts |
| `Products.ProductsPage.FinishSubscribe` | src/pages/ProductsPage.tsx:118-130 | the banner follows the result, a throw gives "Failed to subscribe. Please try again.", fields clear only on success, and loading ends on every path |
| `Products.ProductsPage.HandleSubscribe` | src/pages/ProductsPage.tsx:111-130 | the whole handler against the context: no call without both fields; otherwise loading ends false, the banner is success exactly when the request succeeded, and email and name are cleared on success and kept on failure |

## Left out

- HTTP: the requests themselves, the request headers and bodies, and the backend's behaviour.
  Only the outcome of each request is modelled, as a parameter. So the arguments of `addPost`,
  `updatePost`, `deletePost`, `addUser`, `deleteUser` and `changeUserPassword` are carried but do
  not affect the context state.
- Token decoding: `jwtDecode` is a parameter of `BootstrapStep`. Claims it returns with missing
  fields are not modelled.
- Concurrency: handlers are atomic steps. Overlapping requests, the order in which un-awaited
  fetches land, and last-write-wins at the backend are not modelled. Only the chatbot, image
  upload and products handlers are split at their `await`, so the in-flight flag can be stated.
  Only the chatbot's conversation lemmas let several requests be outstanding at once.
- Chat.RunKeepsPaired: holds only for atomic sends. Overlapping Enter sends interleave their user
  messages and answers (`Chat.OverlappingEnterSends`); for those only `Chat.RunKeepsBalanced` holds.
  Answers are assumed to land in the order the events list them, with no link between an answer
  and the request it belongs to.
- Render timing: `Context.Authenticated` is evaluated on every state, while the source computes
  `isAuthenticated` when the provider renders. After a login reply without `user`, or at mount
  with an undecodable token whose posts fetch fails, the rendered value lags the stored token
  until the provider's next state change.
- Timers and browser primitives: the timeouts that clear banners, `Date.now` message ids,
  `toLocaleTimeString` timestamps, `window.scrollTo`, `alert`, `console` logging and scrolling the
  chat into view. `confirm` is a boolean parameter.
- The direct PUT of the image bytes: `FinishUpload` takes the combined upload result. A PUT answered
  with an HTTP error status does not make `fetch` throw, so it looks like a success in the source too.
- Rendering: JSX, animation, the parallax effect and styling other than the status classes.
  Modal toggles (`showAuth`, `showEditor`, `editingPost`, `selectedPost`, `showUserManagement`,
  the chatbot's `isOpen`) are left out. So are the form inputs' `onChange` setters, which only
  copy a value into a field, except the chatbot's text box, whose typing is the `Typed` event.
- `setUserType`, which the context exposes as a plain setter.
- Static pages, routing, the navigation bar and the sign-in dialog. The sign-in dialog only
  forwards to `login`, which is modelled.
