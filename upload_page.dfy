/**
 * The upload page: the form state, the checks made before publishing, the body it posts to
 * `/api/videos`, and what it does with the answer.
 */
module UploadPage {
  import opened Wrappers
  import opened JsString
  import opened UiFeedback
  import opened FileUpload
  import opened Auth
  import opened VideoSchema
  import opened VideosRoute

  /** The transformation the page always sends. */
  const PageTransformation := TransformationInput(Some(1920), Some(1080), Some(80))

  const NoFileMessage := "Please upload a video first"
  const NoTitleMessage := "Please enter a title"

  /** The body the page sends once its checks pass, for a title and description already trimmed. */
  function PageBody(title: string, description: string, controls: bool, file: UploadedFile): PostBody {
    PostBody(Some(title), Some(description), Some(file.url), Some(file.thumbnailUrl), Some(controls), Some(PageTransformation))
  }

  /**
   * The checks and the body of `handleSubmit`: an upload must have finished, then the title
   * must not be blank; the body carries both texts trimmed, the uploaded file's URLs, the
   * checkbox and the fixed transformation. (The page's `thumbnailUrl || ""` changes nothing:
   * the upload widget already hands over "" for a missing thumbnail.)
   */
  function BuildPayload(title: string, description: string, controls: bool,
                        file: Option<UploadedFile>): (r: Result<PostBody, string>)
    ensures file.None? ==> r == Err(NoFileMessage)
    ensures file.Some? ==> (r.Err? <==> Trim(title) == "")
    ensures r.Err? ==> r.error in {NoFileMessage, NoTitleMessage}
    ensures r.Ok? ==>
      && r.value.title == Some(Trim(title)) && Trim(title) != ""
      && r.value.description == Some(Trim(description))
      && r.value.videoUrl == Some(file.value.url)
      && r.value.thumbnailUrl == Some(file.value.thumbnailUrl)
      && r.value.controls == Some(controls)
      && r.value.transformation == Some(PageTransformation)
  {
    match file
    case None => Err(NoFileMessage)
    case Some(f) =>
      if Trim(title) == "" then Err(NoTitleMessage)
      else Ok(PageBody(Trim(title), Trim(description), controls, f))
  }

  /** A title made only of whitespace is refused on the page, before any request. */
  lemma {:induction false} BlankTitleRefused(title: string, description: string, controls: bool, file: UploadedFile)
    requires AllWhitespace(title)
    ensures BuildPayload(title, description, controls, Some(file)) == Err("Please enter a title")
  {
    TrimEmptyIffBlank(title);
  }

  /** The visible result of one submission: the body sent, if any, the notification and the navigation. */
  datatype UploadOutcome = UploadOutcome(request: Option<PostBody>, toast: Toast, navigateTo: Option<string>)

  /**
   * `handleSubmit`, with `post` standing for the server's answer: a request is sent exactly
   * when the checks pass, and only success goes to the feed at "/".
   */
  function SubmitOutcome(title: string, description: string, controls: bool,
                         file: Option<UploadedFile>, post: PostBody -> ApiResult): (o: UploadOutcome)
    ensures o.request.Some? <==> BuildPayload(title, description, controls, file).Ok?
    ensures o.request.Some? ==> o.request.value == BuildPayload(title, description, controls, file).value
    ensures o.request.None? ==> o.toast == ToastError(BuildPayload(title, description, controls, file).error)
    ensures o.navigateTo.Some? <==> o.request.Some? && post(o.request.value) == ApiOk
    ensures o.navigateTo.Some? ==> o.navigateTo.value == "/" && o.toast == ToastSuccess("Reel published successfully!")
    ensures o.request.Some? && post(o.request.value).ApiFailed? ==>
      o.toast == ToastError(OrElse(post(o.request.value).message, "Failed to publish reel"))
  {
    match BuildPayload(title, description, controls, file)
    case Err(message) => UploadOutcome(None, ToastError(message), None)
    case Ok(body) =>
      match post(body)
      case ApiOk => UploadOutcome(Some(body), ToastSuccess("Reel published successfully!"), Some("/"))
      case ApiFailed(message) => UploadOutcome(Some(body), ToastError(OrElse(message, "Failed to publish reel")), None)
  }

  /** The server stores a page body whose texts are already trimmed and within the limits exactly as sent. */
  lemma StoredAsSent(title: string, description: string, controls: bool,
                     file: UploadedFile, token: Claims, id: nat, now: int)
    requires Trim(title) == title != "" && |title| <= TitleMaxLength
    requires Trim(description) == description && |description| <= DescriptionMaxLength
    requires token.id.Some? && file.url != ""
    ensures HandlePost(Some(token), Some(PageBody(title, description, controls, file)), true, id, now).created
      == Some(Video(id, title, Some(description), file.url, file.thumbnailUrl, controls,
                    Transformation(1920, 1080, 80), token.id.value, now, now))
  {
    var body := PageBody(title, description, controls, file);
    assert !IsFalsy(body.title) && !IsFalsy(body.videoUrl);
    var input := CreateInput(body, token);
    assert input == VideoInput(Some(title), Some(description), Some(file.url), Some(file.thumbnailUrl),
                               Some(controls), Some(PageTransformation), token.id);
    assert Violations(input) == [] by {
      assert TitleViolations(input.title) == [];
      assert DescriptionViolations(input.description) == [];
      assert QualityViolations(ApplyTransformationDefaults(input.transformation).quality) == [];
    }
    CreateStoresInput(input, id, now);
  }

  /**
   * A body the page builds, posted by a signed-in user, is stored as the page showed it:
   * the trimmed title and description, the uploaded URLs, the checkbox and the fixed
   * transformation, provided the lengths are within the schema's limits and the upload
   * produced a URL.
   */
  lemma PublishedReelStored(title: string, description: string, controls: bool,
                            file: UploadedFile, token: Claims, id: nat, now: int)
    requires BuildPayload(title, description, controls, Some(file)).Ok?
    requires token.id.Some? && file.url != ""
    requires |Trim(title)| <= TitleMaxLength && |Trim(description)| <= DescriptionMaxLength
    ensures var body := BuildPayload(title, description, controls, Some(file)).value;
      var r := HandlePost(Some(token), Some(body), true, id, now);
      && r.created.Some?
      && r.created.value.title == Trim(title)
      && r.created.value.description == Some(Trim(description))
      && r.created.value.videoUrl == file.url
      && r.created.value.thumbnailUrl == file.thumbnailUrl
      && r.created.value.controls == controls
      && r.created.value.transformation == Transformation(1920, 1080, 80)
      && Some(r.created.value.user) == token.id
  {
    TrimIdempotent(title);
    TrimIdempotent(description);
    StoredAsSent(Trim(title), Trim(description), controls, file, token, id, now);
  }

  /** One change event of the form: a text field's new value or the checkbox's new state. */
  datatype ChangeEvent = TitleInput(value: string) | DescriptionInput(value: string) | ControlsCheckbox(checked: bool)

  /** The upload page's component state. */
  class UploadForm {
    var title: string
    var description: string
    var controls: bool
    var uploadedFile: Option<UploadedFile>
    var isSubmitting: bool

    constructor ()
      ensures title == "" && description == "" && controls
      ensures uploadedFile.None? && !isSubmitting
    {
      title, description, controls := "", "", true;
      uploadedFile := None;
      isSubmitting := false;
    }

    /** The publish button is disabled while submitting and until an upload has finished. */
    predicate SubmitEnabled(): (b: bool)
      reads this
      ensures b ==> uploadedFile.Some? && !isSubmitting
      ensures b ==> (BuildPayload(title, description, controls, uploadedFile).Err? <==> Trim(title) == "")
    {
      !isSubmitting && uploadedFile.Some?
    }

    /** `handleChange`: the named field takes the input's value, or the checkbox its checked state. */
    method HandleChange(e: ChangeEvent)
      modifies this
      ensures e.TitleInput? ==> title == e.value && description == old(description) && controls == old(controls)
      ensures e.DescriptionInput? ==> description == e.value && title == old(title) && controls == old(controls)
      ensures e.ControlsCheckbox? ==> controls == e.checked && title == old(title) && description == old(description)
      ensures uploadedFile == old(uploadedFile) && isSubmitting == old(isSubmitting)
    {
      match e {
        case TitleInput(v) => title := v;
        case DescriptionInput(v) => description := v;
        case ControlsCheckbox(c) => controls := c;
      }
    }

    /** `handleUploadSuccess`: remembers the finished upload, replacing any earlier one. */
    method HandleUploadSuccess(file: UploadedFile)
      modifies this
      ensures uploadedFile == Some(file)
      ensures title == old(title) && description == old(description) && controls == old(controls)
      ensures isSubmitting == old(isSubmitting)
    {
      uploadedFile := Some(file);
    }

    /** `handleSubmit`: submitting is flagged only once the checks pass, and is cleared after the request. */
    method HandleSubmit(post: PostBody -> ApiResult) returns (outcome: UploadOutcome)
      modifies this
      ensures outcome == SubmitOutcome(old(title), old(description), old(controls), old(uploadedFile), post)
      ensures outcome.request.None? ==> isSubmitting == old(isSubmitting)
      ensures outcome.request.Some? ==> !isSubmitting
      ensures title == old(title) && description == old(description) && controls == old(controls)
      ensures uploadedFile == old(uploadedFile)
    {
      if BuildPayload(title, description, controls, uploadedFile).Err? {
        outcome := SubmitOutcome(title, description, controls, uploadedFile, post);
        return;
      }
      isSubmitting := true;
      outcome := SubmitOutcome(title, description, controls, uploadedFile, post);
      isSubmitting := false;
    }
  }

  /**
   * While no upload has finished the publish button is disabled, and a submit would send
   * nothing anyway: it asks for a video first.
   */
  lemma DisabledWithoutUploadSendsNothing(form: UploadForm, post: PostBody -> ApiResult)
    requires !form.isSubmitting && !form.SubmitEnabled()
    ensures form.uploadedFile.None?
    ensures var o := SubmitOutcome(form.title, form.description, form.controls, form.uploadedFile, post);
      o.request.None? && o.toast == ToastError(NoFileMessage)
  {
  }
}
