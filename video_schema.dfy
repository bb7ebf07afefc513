/**
 * The video document schema: what `Video.create` stores for the fields it is given, after
 * trimming, defaults and validation, or the list of paths that fail validation (in which
 * case nothing is stored and the call throws).
 */
module VideoSchema {
  import opened Wrappers
  import opened JsString

  const TitleMaxLength: nat := 100
  const DescriptionMaxLength: nat := 500
  const DefaultHeight: int := 1920
  const DefaultWidth: int := 1080
  const DefaultQuality: int := 80
  const QualityMin: int := 1
  const QualityMax: int := 100

  /** A transformation object as supplied; each field may be missing. */
  datatype TransformationInput = TransformationInput(height: Option<int>, width: Option<int>, quality: Option<int>)

  datatype Transformation = Transformation(height: int, width: int, quality: int)

  /** The fields handed to `Video.create`; any may be `undefined`. `user` is the owner's id text. */
  datatype VideoInput = VideoInput(
    title: Option<string>,
    description: Option<string>,
    videoUrl: Option<string>,
    thumbnailUrl: Option<string>,
    controls: Option<bool>,
    transformation: Option<TransformationInput>,
    user: Option<string>)

  /** A stored video document; `id` stands for the generated `_id`. */
  datatype Video = Video(
    id: nat,
    title: string,
    description: Option<string>,
    videoUrl: string,
    thumbnailUrl: string,
    controls: bool,
    transformation: Transformation,
    user: string,
    createdAt: int,
    updatedAt: int)

  /** One failing schema path. */
  datatype Violation =
    | TitleRequired | TitleTooLong | DescriptionTooLong | VideoUrlRequired
    | QualityBelowMin | QualityAboveMax | UserRequired
  {
    /** The message the schema declares for the path, or `None` where the library's built-in message applies. */
    function Message(): (r: Option<string>)
      ensures r.Some? <==> !(QualityBelowMin? || QualityAboveMax? || UserRequired?)
      ensures r.Some? ==> r.value != ""
    {
      match this
      case TitleRequired => Some("Title is required")
      case TitleTooLong => Some("Title cannot exceed 100 characters")
      case DescriptionTooLong => Some("Description cannot exceed 500 characters")
      case VideoUrlRequired => Some("Video URL is required")
      case QualityBelowMin => None
      case QualityAboveMax => None
      case UserRequired => None
    }
  }

  /** Each transformation field takes its default independently when it is missing. */
  function ApplyTransformationDefaults(t: Option<TransformationInput>): Transformation {
    match t
    case None => Transformation(DefaultHeight, DefaultWidth, DefaultQuality)
    case Some(x) =>
      Transformation(x.height.GetOr(DefaultHeight), x.width.GetOr(DefaultWidth), x.quality.GetOr(DefaultQuality))
  }

  /** `trim: true` applies to a string that is present. */
  function TrimmedField(s: Option<string>): Option<string> {
    match s
    case None => None
    case Some(v) => Some(Trim(v))
  }

  /** `required` on a string path: present and not the empty string. */
  predicate PresentString(s: Option<string>) {
    s.Some? && s.value != ""
  }

  function TitleViolations(title: Option<string>): seq<Violation> {
    var t := TrimmedField(title);
    if !PresentString(t) then [TitleRequired]
    else if |t.value| > TitleMaxLength then [TitleTooLong]
    else []
  }

  function DescriptionViolations(description: Option<string>): seq<Violation> {
    var d := TrimmedField(description);
    if d.Some? && |d.value| > DescriptionMaxLength then [DescriptionTooLong] else []
  }

  function QualityViolations(quality: int): seq<Violation> {
    if quality < QualityMin then [QualityBelowMin]
    else if quality > QualityMax then [QualityAboveMax]
    else []
  }

  /** Every failing path of a document, in schema order. */
  function Violations(input: VideoInput): seq<Violation> {
    TitleViolations(input.title)
    + DescriptionViolations(input.description)
    + (if PresentString(input.videoUrl) then [] else [VideoUrlRequired])
    + QualityViolations(ApplyTransformationDefaults(input.transformation).quality)
    + (if input.user.Some? then [] else [UserRequired])
  }

  /** The invariant every stored document satisfies. */
  predicate WellFormed(v: Video) {
    && v.title != [] && |v.title| <= TitleMaxLength
    && !IsWhitespace(v.title[0]) && !IsWhitespace(v.title[|v.title| - 1])
    && (v.description.Some? ==> |v.description.value| <= DescriptionMaxLength)
    && v.videoUrl != ""
    && QualityMin <= v.transformation.quality <= QualityMax
    && v.createdAt == v.updatedAt
  }

  /**
   * `Video.create(input)` at time `now` with generated id `id`: the document, or every
   * violation when there is at least one. A stored document is always well formed.
   */
  function Create(input: VideoInput, id: nat, now: int): (r: Result<Video, seq<Violation>>)
    ensures r.Err? <==> Violations(input) != []
    ensures r.Err? ==> r.error == Violations(input)
    ensures r.Ok? ==> WellFormed(r.value) && r.value.id == id && r.value.createdAt == now
  {
    var errors := Violations(input);
    if errors != [] then Err(errors)
    else
      var title := Trim(input.title.value);
      Ok(Video(
        id, title, TrimmedField(input.description), input.videoUrl.value,
        input.thumbnailUrl.GetOr(""), input.controls.GetOr(true),
        ApplyTransformationDefaults(input.transformation), input.user.value, now, now))
  }

  /** `Video.create` succeeds exactly when every schema rule holds of the trimmed, defaulted input. */
  lemma CreateSucceedsIff(input: VideoInput, id: nat, now: int)
    ensures Create(input, id, now).Ok? <==>
      && input.title.Some? && Trim(input.title.value) != "" && |Trim(input.title.value)| <= TitleMaxLength
      && (input.description.Some? ==> |Trim(input.description.value)| <= DescriptionMaxLength)
      && PresentString(input.videoUrl)
      && QualityMin <= ApplyTransformationDefaults(input.transformation).quality <= QualityMax
      && input.user.Some?
  {
  }

  /** What a stored document holds, field by field, in terms of what was given. */
  lemma CreateStoresInput(input: VideoInput, id: nat, now: int)
    requires Create(input, id, now).Ok?
    ensures var v := Create(input, id, now).value;
      && input.title.Some? && v.title == Trim(input.title.value)
      && v.description == TrimmedField(input.description)
      && input.videoUrl == Some(v.videoUrl)
      && v.thumbnailUrl == (if input.thumbnailUrl.Some? then input.thumbnailUrl.value else "")
      && v.controls == (if input.controls.Some? then input.controls.value else true)
      && input.user == Some(v.user)
      && v.transformation == ApplyTransformationDefaults(input.transformation)
      && v.id == id && v.createdAt == now && v.updatedAt == now
  {
  }

  /** A title made only of whitespace trims to "" and fails `required`. */
  lemma {:induction false} BlankTitleRejected(input: VideoInput, id: nat, now: int)
    requires input.title.Some? && AllWhitespace(input.title.value)
    ensures Create(input, id, now).Err?
    ensures TitleRequired in Create(input, id, now).error
  {
    TrimEmptyIffBlank(input.title.value);
  }

  /** A title longer than 100 characters once trimmed is rejected, not cut. */
  lemma LongTitleRejected(input: VideoInput, id: nat, now: int)
    requires input.title.Some? && |Trim(input.title.value)| > TitleMaxLength
    ensures Create(input, id, now).Err?
    ensures TitleTooLong in Create(input, id, now).error
  {
  }

  /** A description longer than 500 characters once trimmed is rejected. */
  lemma LongDescriptionRejected(input: VideoInput, id: nat, now: int)
    requires input.description.Some? && |Trim(input.description.value)| > DescriptionMaxLength
    ensures Create(input, id, now).Err?
    ensures DescriptionTooLong in Create(input, id, now).error
  {
    assert DescriptionViolations(input.description) == [DescriptionTooLong];
  }

  /** A missing or empty video URL, or a missing owner, is rejected. */
  lemma RequiredPathsRejected(input: VideoInput, id: nat, now: int)
    requires !PresentString(input.videoUrl) || input.user.None?
    ensures Create(input, id, now).Err?
    ensures !PresentString(input.videoUrl) ==> VideoUrlRequired in Create(input, id, now).error
    ensures input.user.None? ==> UserRequired in Create(input, id, now).error
  {
  }

  /** Quality outside 1..100 is rejected; inside it, it is stored exactly as given. */
  lemma QualityRejectedNotClamped(input: VideoInput, id: nat, now: int, q: int)
    requires input.transformation.Some? && input.transformation.value.quality == Some(q)
    ensures q < QualityMin ==> Create(input, id, now).Err? && QualityBelowMin in Create(input, id, now).error
    ensures q > QualityMax ==> Create(input, id, now).Err? && QualityAboveMax in Create(input, id, now).error
    ensures Create(input, id, now).Ok? ==>
      QualityMin <= q <= QualityMax && Create(input, id, now).value.transformation.quality == q
  {
    var tv := TitleViolations(input.title) + DescriptionViolations(input.description)
      + (if PresentString(input.videoUrl) then [] else [VideoUrlRequired]);
    var qv := QualityViolations(q);
    assert Violations(input) == tv + qv + (if input.user.Some? then [] else [UserRequired]);
    if q < QualityMin {
      assert qv == [QualityBelowMin];
      assert Violations(input)[|tv|] == QualityBelowMin;
    }
    if q > QualityMax {
      assert qv == [QualityAboveMax];
      assert Violations(input)[|tv|] == QualityAboveMax;
    }
  }

  /** With no transformation at all the defaults are 1920 x 1080 at quality 80; a partial one is completed field by field. */
  lemma TransformationDefaults(t: TransformationInput)
    ensures ApplyTransformationDefaults(None) == Transformation(1920, 1080, 80)
    ensures ApplyTransformationDefaults(Some(t)).height == (if t.height.Some? then t.height.value else 1920)
    ensures ApplyTransformationDefaults(Some(t)).width == (if t.width.Some? then t.width.value else 1080)
    ensures ApplyTransformationDefaults(Some(t)).quality == (if t.quality.Some? then t.quality.value else 80)
  {
  }
}
