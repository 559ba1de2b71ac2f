/** The post editor dialog: its fields, the image upload and the save handler. */
module Editor {
  import opened Common
  import opened Context

  const DefaultReadTime := "5 min read"

  /** A file picked in the image input. */
  datatype UploadFile = UploadFile(name: string, contentType: string)

  /** Which context write a submit makes, with what. */
  datatype EditorCall = NoCall | AddCall(draft: PostDraft) | UpdateCall(id: string, draft: PostDraft)

  /** Initial value of a text field: the edited post's value, or empty. */
  function InitialText(post: Option<Post>, field: Post -> string): (r: string)
    ensures post.None? ==> r == ""
    ensures post.Some? ==> r == field(post.value)
  {
    if post.Some? then field(post.value) else ""
  }

  /** Initial read time: the edited post's, unless absent or empty. */
  function InitialReadTime(post: Option<Post>): (r: string)
    ensures r != ""
    ensures post.Some? && post.value.readTime != "" ==> r == post.value.readTime
    ensures !(post.Some? && post.value.readTime != "") ==> r == DefaultReadTime
  {
    if post.Some? && post.value.readTime != "" then post.value.readTime else DefaultReadTime
  }

  /** The write `handleSubmit` makes for the given fields, edited post and session user. */
  function SubmitCall(title: string, content: string, excerpt: string, imageUrl: string, readTime: string,
                      post: Option<Post>, currentUser: Option<User>): (call: EditorCall)
    ensures call.NoCall? <==>
      title == "" || content == "" || excerpt == "" || imageUrl == "" || currentUser.None?
    ensures !call.NoCall? ==>
      call.draft == PostDraft(title, content, excerpt, currentUser.value.name, imageUrl, readTime)
    ensures call.UpdateCall? <==> !call.NoCall? && post.Some? && Truthy(post.value.id)
    ensures call.UpdateCall? ==> call.id == post.value.id.value
  {
    if title == "" || content == "" || excerpt == "" || imageUrl == "" || currentUser.None? then
      NoCall
    else
      var draft := PostDraft(title, content, excerpt, currentUser.value.name, imageUrl, readTime);
      if post.Some? && Truthy(post.value.id) then UpdateCall(post.value.id.value, draft) else AddCall(draft)
  }

  /** Whoever wrote the original post, a saved post is attributed to the signed-in user. */
  lemma SavedAuthorIsCurrentUser(title: string, content: string, excerpt: string, imageUrl: string,
                                 readTime: string, post: Post, currentUser: User)
    requires title != "" && content != "" && excerpt != "" && imageUrl != ""
    ensures SubmitCall(title, content, excerpt, imageUrl, readTime, Some(post), Some(currentUser)).draft.author
            == currentUser.name
  {
  }

  class BlogEditor {
    const post: Option<Post>
    var title: string
    var content: string
    var excerpt: string
    var imageUrl: string
    var readTime: string
    var image: Option<UploadFile>
    var uploading: bool
    /** Whether the editor has called `onClose`. */
    var closed: bool

    constructor (post: Option<Post>)
      ensures this.post == post
      ensures title == InitialText(post, (p: Post) => p.title)
      ensures content == InitialText(post, (p: Post) => p.content)
      ensures excerpt == InitialText(post, (p: Post) => p.excerpt)
      ensures imageUrl == InitialText(post, (p: Post) => p.imageUrl)
      ensures readTime == InitialReadTime(post)
      ensures image == None && !uploading && !closed
    {
      this.post := post;
      title := InitialText(post, (p: Post) => p.title);
      content := InitialText(post, (p: Post) => p.content);
      excerpt := InitialText(post, (p: Post) => p.excerpt);
      imageUrl := InitialText(post, (p: Post) => p.imageUrl);
      readTime := InitialReadTime(post);
      image := None;
      uploading := false;
      closed := false;
    }

    /** First half of `handleImageUpload`, up to the request: marks the upload in flight. */
    method BeginUpload(file: Option<UploadFile>) returns (started: bool)
      modifies this`uploading
      ensures started <==> file.Some?
      ensures uploading == (if started then true else old(uploading))
    {
      started := file.Some?;
      if started {
        uploading := true;
      }
    }

    /** Second half: the upload key becomes the image URL on success, the URL is kept on
        failure, and the upload is over on both paths. */
    method FinishUpload(file: UploadFile, result: Response<string>)
      modifies this`imageUrl, this`image, this`uploading
      ensures !uploading
      ensures imageUrl == (if result.Ok? then result.data else old(imageUrl))
      ensures image == (if result.Ok? then Some(file) else old(image))
    {
      if result.Ok? {
        imageUrl := result.data;
        image := Some(file);
      }
      uploading := false;
    }

    method HandleImageUpload(file: Option<UploadFile>, result: Response<string>)
      modifies this`imageUrl, this`image, this`uploading
      ensures file.None? ==> imageUrl == old(imageUrl) && image == old(image) && uploading == old(uploading)
      ensures file.Some? ==> !uploading
      ensures file.Some? ==> imageUrl == (if result.Ok? then result.data else old(imageUrl))
      ensures file.Some? ==> image == (if result.Ok? then file else old(image))
    {
      var started := BeginUpload(file);
      if started {
        FinishUpload(file.value, result);
      }
    }

    /** `handleSubmit`: validate, then `updatePost` for a post with an id, `addPost`
        otherwise; the editor closes only when the write did not throw. */
    method HandleSubmit(store: BlogStore, write: Response<()>, refetch: Response<seq<Post>>)
      returns (call: EditorCall, threw: bool)
      modifies store, this`closed
      ensures call == SubmitCall(title, content, excerpt, imageUrl, readTime, post, old(store.currentUser))
      ensures call.NoCall? ==> store.State() == old(store.State()) && closed == old(closed) && !threw
      ensures !call.NoCall? ==> (store.State(), threw) == PostWriteStep(old(store.State()), write, refetch)
      ensures !call.NoCall? ==> closed == (if threw then old(closed) else true)
    {
      call := SubmitCall(title, content, excerpt, imageUrl, readTime, post, store.currentUser);
      threw := false;
      if call.NoCall? {
        return;
      } else if call.UpdateCall? {
        threw := store.UpdatePost(call.id, call.draft, write, refetch);
      } else {
        threw := store.AddPost(call.draft, write, refetch);
      }
      if !threw {
        closed := true;
      }
    }
  }
}
