/**
 * The create-post page: the form's fields, the tag list it edits, loading a
 * post into the form for editing, and submitting the form as a new post or as
 * an update of the loaded one.
 */
module CreatePostForm {
  import opened Wrappers
  import opened Text
  import opened Models
  import opened Sequences
  import opened JsObjects
  import opened HttpsService
  import opened ClientPostService
  import opened ServerPostService

  const DefaultReadTime := "5"
  const NotAuthenticated := "User not authenticated"

  datatype PostFormData = PostFormData(
    title: string,
    content: string,
    excerpt: string,
    category: string,
    tags: seq<string>,
    featuredImage: string,
    isPublished: bool,
    isFeatured: bool,
    readTime: string)

  /** The form as the page opens, and as a successful create leaves it. */
  const EmptyForm := PostFormData("", "", "", "", [], "", false, false, DefaultReadTime)

  // ---------------------------------------------------------------------------
  // Editing the fields

  /** The fields `handleInputChange` is given text for, and those it is given a switch for. */
  datatype TextField = Title | Content | Excerpt | Category | FeaturedImage | ReadTime
  datatype FlagField = IsPublished | IsFeatured

  function TextOf(form: PostFormData, field: TextField): string {
    match field
    case Title => form.title
    case Content => form.content
    case Excerpt => form.excerpt
    case Category => form.category
    case FeaturedImage => form.featuredImage
    case ReadTime => form.readTime
  }

  function FlagOf(form: PostFormData, field: FlagField): bool {
    match field
    case IsPublished => form.isPublished
    case IsFeatured => form.isFeatured
  }

  /** `{ ...prev, [field]: value }` for a text field: that field changes and no other. */
  function SetText(form: PostFormData, field: TextField, value: string): (r: PostFormData)
    ensures TextOf(r, field) == value
    ensures forall g :: g != field ==> TextOf(r, g) == TextOf(form, g)
    ensures r.tags == form.tags && r.isPublished == form.isPublished && r.isFeatured == form.isFeatured
  {
    match field
    case Title => form.(title := value)
    case Content => form.(content := value)
    case Excerpt => form.(excerpt := value)
    case Category => form.(category := value)
    case FeaturedImage => form.(featuredImage := value)
    case ReadTime => form.(readTime := value)
  }

  /** `{ ...prev, [field]: value }` for a switch. */
  function SetFlag(form: PostFormData, field: FlagField, value: bool): (r: PostFormData)
    ensures FlagOf(r, field) == value
    ensures forall g :: g != field ==> FlagOf(r, g) == FlagOf(form, g)
    ensures forall g :: TextOf(r, g) == TextOf(form, g)
    ensures r.tags == form.tags
  {
    match field
    case IsPublished => form.(isPublished := value)
    case IsFeatured => form.(isFeatured := value)
  }

  // ---------------------------------------------------------------------------
  // The tag list

  /** A tag list the form can build: no empty tag, none with surrounding whitespace, none twice. */
  predicate CleanTags(tags: seq<string>) {
    && (forall i :: 0 <= i < |tags| ==> tags[i] != "" && Trim(tags[i]) == tags[i])
    && (forall i, j :: 0 <= i < j < |tags| ==> tags[i] != tags[j])
  }

  /**
   * `handleAddTag`: the trimmed input joins the tags, and the input is
   * cleared, when it is not blank and not already a tag; otherwise nothing
   * changes.
   */
  function AddTag(form: PostFormData, newTag: string): (r: (PostFormData, string))
    ensures var t := Trim(newTag);
            && (t != "" && t !in form.tags ==> r.0 == form.(tags := form.tags + [t]) && r.1 == "")
            && (t == "" || t in form.tags ==> r == (form, newTag))
  {
    var t := Trim(newTag);
    if t != "" && t !in form.tags then (form.(tags := form.tags + [t]), "") else (form, newTag)
  }

  predicate IsNot(tag: string, t: string) { t != tag }

  function OtherThan(tag: string): string -> bool {
    (t: string) => IsNot(tag, t)
  }

  /** `handleRemoveTag`: every copy of the tag goes, the other tags stay in their order. */
  function RemoveTag(form: PostFormData, tag: string): (r: PostFormData)
    ensures r == form.(tags := r.tags)
    ensures IsSubsequence(r.tags, form.tags)
    ensures forall t :: t in r.tags <==> t in form.tags && t != tag
  {
    var kept := Filter(OtherThan(tag), form.tags);
    FilterIsSubsequence(OtherThan(tag), form.tags);
    assert forall t :: t in kept <==> t in form.tags && t != tag by {
      forall t
        ensures t in kept <==> t in form.tags && t != tag
      {
        FilterMembers(OtherThan(tag), form.tags, t);
      }
    }
    form.(tags := kept)
  }

  /** Adding a tag keeps the list clean. */
  lemma AddTagKeepsClean(form: PostFormData, newTag: string)
    requires CleanTags(form.tags)
    ensures CleanTags(AddTag(form, newTag).0.tags)
  {
    var t := Trim(newTag);
    if t != "" && t !in form.tags {
      var tags := form.tags + [t];
      assert AddTag(form, newTag).0.tags == tags;
      TrimIdempotent(newTag);
      forall i | 0 <= i < |tags| ensures tags[i] != "" && Trim(tags[i]) == tags[i] {
        if i < |form.tags| {
          assert tags[i] == form.tags[i];
        }
      }
      forall i, j | 0 <= i < j < |tags| ensures tags[i] != tags[j] {
        assert tags[i] == form.tags[i];
        if j < |form.tags| {
          assert tags[j] == form.tags[j];
        }
      }
    }
  }

  /** Removing a tag keeps the list clean. */
  lemma RemoveTagKeepsClean(form: PostFormData, tag: string)
    requires CleanTags(form.tags)
    ensures CleanTags(RemoveTag(form, tag).tags)
  {
    var r := RemoveTag(form, tag).tags;
    var idx :| SubsequenceAt(r, form.tags, idx);
    forall i, j | 0 <= i < j < |r|
      ensures r[i] != r[j]
    {
      assert idx[i] < idx[j];
    }
  }

  /** Removing the tag just added gives back the form as it was. */
  lemma RemoveUndoesAdd(form: PostFormData, newTag: string)
    requires Trim(newTag) != "" && Trim(newTag) !in form.tags
    ensures RemoveTag(AddTag(form, newTag).0, Trim(newTag)) == form
  {
    var t := Trim(newTag);
    FilterAppend(OtherThan(t), form.tags, [t]);
    assert Filter(OtherThan(t), [t]) == [] by {
      assert [t][..0] == [];
    }
    FilterAll(OtherThan(t), form.tags);
    assert form.tags + [t] == AddTag(form, newTag).0.tags;
  }

  // ---------------------------------------------------------------------------
  // Loading, enabling and sending

  /** `loadPostForEdit`: the post's fields, with a missing reading time read as five minutes. */
  function EditForm(p: Post): (f: PostFormData)
    ensures && f.title == p.title && f.content == p.content && f.excerpt == p.excerpt
            && f.category == p.category && f.tags == p.tags && f.featuredImage == p.featuredImage
            && f.isPublished == p.isPublished && f.isFeatured == p.isFeatured
    ensures f.readTime == if p.readTime != "" then p.readTime else DefaultReadTime
  {
    PostFormData(p.title, p.content, p.excerpt, p.category, p.tags, p.featuredImage,
                 p.isPublished, p.isFeatured, if p.readTime != "" then p.readTime else DefaultReadTime)
  }

  /** The submit button is disabled while sending and until the title, content and category are filled in. */
  predicate SubmitDisabled(isSubmitting: bool, form: PostFormData) {
    isSubmitting || form.title == "" || form.content == "" || form.category == ""
  }

  /** The emptied form cannot be submitted again until it is filled in. */
  lemma EmptyFormDisabled(isSubmitting: bool)
    ensures SubmitDisabled(isSubmitting, EmptyForm)
  {
  }

  /** The `CreatePostData` the form sends, its fields in declaration order. */
  function FormEntries(form: PostFormData): Entries {
    [("title", Str(form.title)), ("content", Str(form.content)), ("excerpt", Str(form.excerpt)),
     ("category", Str(form.category)), ("tags", Strings(form.tags)), ("featuredImage", Str(form.featuredImage)),
     ("isPublished", Bool(form.isPublished)), ("isFeatured", Bool(form.isFeatured)), ("readTime", Str(form.readTime))]
  }

  lemma FormEntriesHaveNoId(form: PostFormData)
    ensures "id" !in KeySet(FormEntries(form))
  {
    KeyAbsent(FormEntries(form), "id");
  }

  /** The `UpdatePostData` for the post stored under `id`. */
  function UpdateEntries(id: string, form: PostFormData): Entries {
    [("id", Str(id))] + FormEntries(form)
  }

  /** As written: `id: originalPost.id!`, which is `undefined` when the loaded post has no `id` field. */
  function UpdateEntriesAsWritten(originalPost: Post, form: PostFormData): Entries {
    [("id", if originalPost.id.Some? then Str(originalPost.id.value) else Undefined)] + FormEntries(form)
  }

  /** The update goes to the loaded post's path and carries the form's fields without the id. */
  lemma UpdateTargetsLoadedPost(id: string, form: PostFormData)
    ensures UpdatePostCall(UpdateEntries(id, form)).options.url == PostsPath + "/" + id
    ensures UpdatePostCall(UpdateEntries(id, form)).options.body == Some(FormEntries(form))
  {
    var o := UpdateEntries(id, form);
    assert o[1..] == FormEntries(form);
    FormEntriesHaveNoId(form);
    OmitAbsent(FormEntries(form), "id");
  }

  /**
   * A post the server's `createPost` stored has no `id` field, and reading it
   * back by id returns the stored fields, so the as-written update of such a
   * post is sent to `/api/posts/undefined`.
   */
  lemma UpdateOfNewPostAsWritten(data: CreatePostData, user: UserProfile, now: Time, form: PostFormData)
    ensures UpdatePostCall(UpdateEntriesAsWritten(NewPost(data, user, now), form)).options.url ==
            PostsPath + "/" + "undefined"
  {
  }

  /** The page state the handlers change; the edit id comes from the page's `?edit=` parameter. */
  class CreatePostPage {
    var formData: PostFormData
    var newTag: string
    var isEditMode: bool
    var originalPost: Option<Post>
    var editId: string
    var error: Option<string>
    var isSuccess: bool
    var isSubmitting: bool

    constructor ()
      ensures formData == EmptyForm && newTag == "" && !isEditMode && originalPost.None?
      ensures error.None? && !isSuccess && !isSubmitting
    {
      formData, newTag, isEditMode, originalPost, editId := EmptyForm, "", false, None, "";
      error, isSuccess, isSubmitting := None, false, false;
    }

    method InputText(field: TextField, value: string)
      modifies this
      ensures formData == SetText(old(formData), field, value)
      ensures newTag == old(newTag) && isEditMode == old(isEditMode) && originalPost == old(originalPost)
      ensures editId == old(editId) && error == old(error) && isSuccess == old(isSuccess) && isSubmitting == old(isSubmitting)
    {
      formData := SetText(formData, field, value);
    }

    method InputFlag(field: FlagField, value: bool)
      modifies this
      ensures formData == SetFlag(old(formData), field, value)
      ensures newTag == old(newTag) && isEditMode == old(isEditMode) && originalPost == old(originalPost)
      ensures editId == old(editId) && error == old(error) && isSuccess == old(isSuccess) && isSubmitting == old(isSubmitting)
    {
      formData := SetFlag(formData, field, value);
    }

    /** `setNewTag`: the text in the tag box. */
    method TypeTag(value: string)
      modifies this
      ensures newTag == value && formData == old(formData)
      ensures isEditMode == old(isEditMode) && originalPost == old(originalPost)
      ensures editId == old(editId) && error == old(error) && isSuccess == old(isSuccess) && isSubmitting == old(isSubmitting)
    {
      newTag := value;
    }

    method AddTagClicked()
      modifies this
      ensures formData == AddTag(old(formData), old(newTag)).0 && newTag == AddTag(old(formData), old(newTag)).1
      ensures isEditMode == old(isEditMode) && originalPost == old(originalPost)
      ensures editId == old(editId) && error == old(error) && isSuccess == old(isSuccess) && isSubmitting == old(isSubmitting)
    {
      var added := AddTag(formData, newTag);
      formData, newTag := added.0, added.1;
    }

    method RemoveTagClicked(tag: string)
      modifies this
      ensures formData == RemoveTag(old(formData), tag) && newTag == old(newTag)
      ensures isEditMode == old(isEditMode) && originalPost == old(originalPost)
      ensures editId == old(editId) && error == old(error) && isSuccess == old(isSuccess) && isSubmitting == old(isSubmitting)
    {
      formData := RemoveTag(formData, tag);
    }

    /**
     * `loadPostForEdit(postId)` given what `getPostById` gave: the post
     * fills the form and switches to edit mode; an error is shown instead.
     */
    method LoadPostForEdit(postId: string, loaded: Result<Post, string>)
      modifies this
      ensures loaded.Success? ==>
                && originalPost == Some(loaded.value) && isEditMode && editId == postId
                && formData == EditForm(loaded.value) && error.None?
      ensures loaded.Failure? ==>
                && originalPost == old(originalPost) && isEditMode == old(isEditMode) && editId == old(editId)
                && formData == old(formData) && error == Some(loaded.error)
      ensures newTag == old(newTag) && isSuccess == old(isSuccess) && isSubmitting == old(isSubmitting)
    {
      error := None;
      if loaded.Failure? {
        error := Some(loaded.error);
        return;
      }
      originalPost, isEditMode, editId := Some(loaded.value), true, postId;
      formData := EditForm(loaded.value);
    }

    /**
     * `handleSubmit`: without a signed-in user nothing is sent; in edit mode
     * the form updates the loaded post (addressed by the id it was loaded
     * under), otherwise it creates a post and the form is emptied.
     */
    method Submit(signedIn: bool, service: ClientPostService, send: Call -> Result<PostResponse, Thrown>)
      returns (sent: Option<Call>)
      modifies this
      ensures !signedIn ==> sent.None? && error == Some(NotAuthenticated) && !isSuccess && formData == old(formData)
      ensures signedIn && old(isEditMode) && old(originalPost).Some? ==>
                && sent == Some(UpdatePostCall(UpdateEntries(old(editId), old(formData))))
                && formData == old(formData)
                && var r := PostOutcome(send(sent.value), UpdateFailed, UpdateFailed);
                   && (r.Success? ==> isSuccess && error.None?)
                   && (r.Failure? ==> !isSuccess && error == Some(r.error))
      ensures signedIn && !(old(isEditMode) && old(originalPost).Some?) ==>
                && sent == Some(CreatePostCall(FormEntries(old(formData))))
                && var r := PostOutcome(send(sent.value), CreateFailed, CreateFailed);
                   && (r.Success? ==> isSuccess && error.None? && formData == EmptyForm)
                   && (r.Failure? ==> !isSuccess && error == Some(r.error) && formData == old(formData))
      ensures !isSubmitting && newTag == old(newTag) && isEditMode == old(isEditMode)
      ensures originalPost == old(originalPost) && editId == old(editId)
    {
      isSubmitting, error, isSuccess := true, None, false;
      if !signedIn {
        error, isSubmitting, sent := Some(NotAuthenticated), false, None;
        return;
      }
      var r;
      if isEditMode && originalPost.Some? {
        var entries := UpdateEntries(editId, formData);
        sent := Some(UpdatePostCall(entries));
        r := service.UpdatePost(entries, send);
      } else {
        var entries := FormEntries(formData);
        sent := Some(CreatePostCall(entries));
        r := service.CreatePost(entries, send);
        if r.Success? {
          formData := EmptyForm;
        }
      }
      if r.Failure? {
        error := Some(r.error);
      } else {
        isSuccess := true;
      }
      isSubmitting := false;
    }
  }
}
