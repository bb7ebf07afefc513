/**
 * The `/api/videos` handlers. POST checks the session token, validates the body, fills
 * defaults and creates a document; GET lists every document newest first with its owner's
 * email. The collection is a class holding the documents in insertion order.
 */
module VideosRoute {
  import opened Wrappers
  import opened JsString
  import opened Auth
  import opened VideoSchema

  /** The parsed JSON body of a POST; any field may be missing. */
  datatype PostBody = PostBody(
    title: Option<string>,
    description: Option<string>,
    videoUrl: Option<string>,
    thumbnailUrl: Option<string>,
    controls: Option<bool>,
    transformation: Option<TransformationInput>)

  /** A video as listed: `populate("user", "email")` replaces the owner id by `{_id, email}`. */
  datatype Owner = Owner(id: string, email: string)
  datatype ListedVideo = ListedVideo(video: Video, owner: Option<Owner>)

  datatype Payload =
    | ErrorMessage(error: string)
    | CreatedVideo(message: string, video: Video)
    | VideoList(videos: seq<ListedVideo>)

  datatype Response = Response(status: int, payload: Payload)

  /** What one POST answers and, on 201, the document it stores. */
  datatype PostResult = PostResult(response: Response, created: Option<Video>)

  const Unauthorized := Response(401, ErrorMessage("Unauthorized"))
  const MissingFields := Response(400, ErrorMessage("Title and video URL are required"))
  const CreateFailed := Response(500, ErrorMessage("Failed to create video"))
  const FetchFailed := Response(500, ErrorMessage("Failed to fetch videos"))

  const DefaultTransformation := TransformationInput(Some(1920), Some(1080), Some(80))

  /** The object the handler passes to `Video.create`: `||` defaults, `controls` only when undefined, the owner from the token. */
  function CreateInput(body: PostBody, token: Claims): (r: VideoInput)
    ensures r.title == body.title && r.videoUrl == body.videoUrl && r.user == token.id
    ensures r.description.Some? && r.thumbnailUrl.Some? && r.controls.Some? && r.transformation.Some?
    ensures !IsFalsy(body.description) ==> r.description == body.description
    ensures !IsFalsy(body.thumbnailUrl) ==> r.thumbnailUrl == body.thumbnailUrl
    ensures body.controls.Some? ==> r.controls == body.controls
    ensures body.transformation.Some? ==> r.transformation == body.transformation
  {
    VideoInput(
      body.title,
      Some(OrElse(body.description, "")),
      body.videoUrl,
      Some(OrElse(body.thumbnailUrl, "")),
      Some(body.controls.GetOr(true)),
      Some(body.transformation.GetOr(DefaultTransformation)),
      token.id)
  }

  /**
   * `POST(request)`. `body` is `None` when the request body is not valid JSON, or is null
   * (a JSON primitive or array gives a body whose fields are all missing), and
   * `dbAvailable` is false when connecting or inserting throws; `id` and `now` are the
   * generated `_id` and the clock. Something is stored exactly when the answer is 201.
   */
  function HandlePost(token: Option<Claims>, body: Option<PostBody>, dbAvailable: bool,
                      id: nat, now: int): (r: PostResult)
    ensures r.created.Some? <==> r.response.status == 201
    ensures r.response.status in {201, 400, 401, 500}
    ensures r.created.Some? ==>
      && token.Some? && body.Some? && dbAvailable
      && r.response == Response(201, CreatedVideo("Video created successfully", r.created.value))
      && Create(CreateInput(body.value, token.value), id, now) == Ok(r.created.value)
    ensures r.created.Some? ==> r.created.value.id == id && WellFormed(r.created.value)
  {
    if token.None? then PostResult(Unauthorized, None)
    else if body.None? then PostResult(CreateFailed, None)
    else if IsFalsy(body.value.title) || IsFalsy(body.value.videoUrl) then PostResult(MissingFields, None)
    else if !dbAvailable then PostResult(CreateFailed, None)
    else
      match Create(CreateInput(body.value, token.value), id, now)
      case Err(_) => PostResult(CreateFailed, None)
      case Ok(v) => PostResult(Response(201, CreatedVideo("Video created successfully", v)), Some(v))
  }

  /** Without a token the answer is 401 and nothing is created, whatever the body. */
  lemma NoTokenUnauthorized(body: Option<PostBody>, dbAvailable: bool, id: nat, now: int)
    ensures HandlePost(None, body, dbAvailable, id, now) == PostResult(Response(401, ErrorMessage("Unauthorized")), None)
  {
  }

  /** With a token, a falsy title or video URL is answered 400 and nothing is created. */
  lemma MissingFieldsBadRequest(token: Claims, body: PostBody, dbAvailable: bool, id: nat, now: int)
    requires IsFalsy(body.title) || IsFalsy(body.videoUrl)
    ensures HandlePost(Some(token), Some(body), dbAvailable, id, now)
      == PostResult(Response(400, ErrorMessage("Title and video URL are required")), None)
  {
  }

  /**
   * A whitespace-only title passes the handler's `!title` test but the schema trims it to ""
   * and rejects it, so the request fails with 500 rather than 400.
   */
  lemma BlankTitleServerError(token: Claims, body: PostBody, id: nat, now: int)
    requires body.title.Some? && body.title.value != "" && AllWhitespace(body.title.value)
    requires !IsFalsy(body.videoUrl)
    ensures HandlePost(Some(token), Some(body), true, id, now)
      == PostResult(Response(500, ErrorMessage("Failed to create video")), None)
  {
    var input := CreateInput(body, token);
    BlankTitleRejected(input, id, now);
    assert Create(input, id, now).Err?;
    assert !IsFalsy(body.title);
  }

  /** Any failure after the token check other than missing fields is a generic 500. */
  lemma FailuresAreGeneric(token: Claims, body: Option<PostBody>, dbAvailable: bool, id: nat, now: int)
    requires body.None? || !dbAvailable
      || Violations(CreateInput(body.value, token)) != []
    requires body.Some? ==> !IsFalsy(body.value.title) && !IsFalsy(body.value.videoUrl)
    ensures HandlePost(Some(token), body, dbAvailable, id, now)
      == PostResult(Response(500, ErrorMessage("Failed to create video")), None)
  {
  }

  /**
   * The messages the schema declares never reach the client: a document the schema rejects
   * is answered with the handler's own generic text instead.
   */
  lemma SchemaMessagesHidden(token: Claims, body: PostBody, id: nat, now: int, v: Violation)
    requires !IsFalsy(body.title) && !IsFalsy(body.videoUrl)
    requires v in Violations(CreateInput(body, token))
    ensures HandlePost(Some(token), Some(body), true, id, now).response == CreateFailed
    ensures v.Message().Some? ==>
      HandlePost(Some(token), Some(body), true, id, now).response.payload != ErrorMessage(v.Message().value)
  {
  }

  /**
   * A created video keeps the owner from the token and the handler's defaults: a missing
   * description or thumbnail is "", `controls` is true only when it was not given, and a
   * missing transformation is 1920 x 1080 at quality 80.
   */
  lemma CreatedVideoFields(token: Claims, body: PostBody, id: nat, now: int)
    requires HandlePost(Some(token), Some(body), true, id, now).created.Some?
    ensures var v := HandlePost(Some(token), Some(body), true, id, now).created.value;
      && token.id == Some(v.user)
      && v.title == Trim(body.title.value)
      && v.description == Some(Trim(OrElse(body.description, "")))
      && (IsFalsy(body.description) ==> v.description == Some(""))
      && v.thumbnailUrl == OrElse(body.thumbnailUrl, "")
      && (body.controls.None? ==> v.controls)
      && (body.controls == Some(false) ==> !v.controls)
      && (body.transformation.None? ==> v.transformation == Transformation(1920, 1080, 80))
      && (body.transformation.Some? ==> v.transformation == ApplyTransformationDefaults(body.transformation))
      && v.createdAt == now && WellFormed(v)
  {
    CreateStoresInput(CreateInput(body, token), id, now);
    assert Trim("") == "";
  }

  /** A POST is created exactly when there is a token, both fields are truthy and the schema accepts the document. */
  lemma CreatedIff(token: Option<Claims>, body: Option<PostBody>, id: nat, now: int)
    ensures HandlePost(token, body, true, id, now).response.status == 201 <==>
      token.Some? && body.Some? && !IsFalsy(body.value.title) && !IsFalsy(body.value.videoUrl)
      && Violations(CreateInput(body.value, token.value)) == []
  {
  }

  /** Newest first: `createdAt` never increases along the list. */
  predicate NewestFirst(vs: seq<Video>) {
    forall i, j :: 0 <= i < j < |vs| ==> vs[i].createdAt >= vs[j].createdAt
  }

  /** No video of `vs` was created after `t`. */
  predicate NoneNewerThan(t: int, vs: seq<Video>) {
    forall k :: 0 <= k < |vs| ==> vs[k].createdAt <= t
  }

  /** A video no older than the head of a newest-first list can go in front of it. */
  lemma PrependKeepsOrder(x: Video, vs: seq<Video>)
    requires NewestFirst(vs) && NoneNewerThan(x.createdAt, vs)
    ensures NewestFirst([x] + vs)
  {
  }

  /** The bound carries over to any rearrangement of the same videos. */
  lemma NoneNewerThanPermutation(t: int, vs: seq<Video>, ws: seq<Video>)
    requires NoneNewerThan(t, vs) && multiset(ws) == multiset(vs)
    ensures NoneNewerThan(t, ws)
  {
    forall k | 0 <= k < |ws|
      ensures ws[k].createdAt <= t
    {
      assert ws[k] in multiset(vs);
    }
  }

  /** Places `v` in a newest-first list ahead of every video no newer than it. */
  function InsertByDate(v: Video, vs: seq<Video>): (r: seq<Video>)
    requires NewestFirst(vs)
    ensures NewestFirst(r)
    ensures multiset(r) == multiset(vs) + multiset{v}
    ensures |r| == |vs| + 1
  {
    if vs == [] || v.createdAt >= vs[0].createdAt then
      PrependKeepsOrder(v, vs);
      [v] + vs
    else
      var rest := InsertByDate(v, vs[1..]);
      assert vs == [vs[0]] + vs[1..];
      NoneNewerThanPermutation(vs[0].createdAt, vs[1..] + [v], rest);
      PrependKeepsOrder(vs[0], rest);
      [vs[0]] + rest
  }

  /** `.sort({ createdAt: -1 })`: the same videos, newest first. */
  function SortNewestFirst(vs: seq<Video>): (r: seq<Video>)
    ensures NewestFirst(r)
    ensures multiset(r) == multiset(vs)
    ensures |r| == |vs|
  {
    if vs == [] then []
    else
      assert vs == [vs[0]] + vs[1..];
      InsertByDate(vs[0], SortNewestFirst(vs[1..]))
  }

  /** `populate("user", "email")`: the owner's id and email when the user exists, else null. */
  function Populate(v: Video, emails: map<string, string>): (l: ListedVideo)
    ensures l.video == v
    ensures l.owner.Some? <==> v.user in emails
    ensures l.owner.Some? ==> l.owner.value == Owner(v.user, emails[v.user])
  {
    ListedVideo(v, if v.user in emails then Some(Owner(v.user, emails[v.user])) else None)
  }

  /** The GET listing: every stored video once, newest first, each with its owner. */
  function ListNewestFirst(vs: seq<Video>, emails: map<string, string>): (r: seq<ListedVideo>)
    ensures |r| == |vs|
    ensures NewestFirst(seq(|r|, i requires 0 <= i < |r| => r[i].video))
    ensures multiset(seq(|r|, i requires 0 <= i < |r| => r[i].video)) == multiset(vs)
    ensures forall i :: 0 <= i < |r| ==> r[i] == Populate(r[i].video, emails)
  {
    var sorted := SortNewestFirst(vs);
    var r := seq(|sorted|, i requires 0 <= i < |sorted| => Populate(sorted[i], emails));
    assert seq(|r|, i requires 0 <= i < |r| => r[i].video) == sorted;
    r
  }

  function Reverse(vs: seq<Video>): (r: seq<Video>)
    ensures |r| == |vs|
  {
    if vs == [] then [] else Reverse(vs[1..]) + [vs[0]]
  }

  /** Videos created one after another at strictly increasing times. */
  predicate Chronological(vs: seq<Video>) {
    forall i, j :: 0 <= i < j < |vs| ==> vs[i].createdAt < vs[j].createdAt
  }

  /** A video older than every video of a newest-first list goes to its end. */
  lemma {:induction false} InsertOldestAppends(v: Video, vs: seq<Video>)
    requires NewestFirst(vs)
    requires forall k :: 0 <= k < |vs| ==> v.createdAt < vs[k].createdAt
    ensures InsertByDate(v, vs) == vs + [v]
  {
    if vs != [] {
      InsertOldestAppends(v, vs[1..]);
      assert vs == [vs[0]] + vs[1..];
    }
  }

  /** Videos created in sequence are listed in exactly the reverse order of creation. */
  lemma {:induction false} SequentialCreatesListedNewestFirst(vs: seq<Video>)
    requires Chronological(vs)
    ensures SortNewestFirst(vs) == Reverse(vs)
  {
    if vs != [] {
      SequentialCreatesListedNewestFirst(vs[1..]);
      var sorted := SortNewestFirst(vs[1..]);
      forall k | 0 <= k < |sorted|
        ensures vs[0].createdAt < sorted[k].createdAt
      {
        assert sorted[k] in multiset(vs[1..]);
        var j :| 0 <= j < |vs[1..]| && vs[1..][j] == sorted[k];
        assert vs[j + 1] == sorted[k];
      }
      InsertOldestAppends(vs[0], sorted);
    }
  }

  /** Each document's generated id is its insertion position, so ids are unique, and each is well formed. */
  predicate ValidDocuments(vs: seq<Video>) {
    forall i :: 0 <= i < |vs| ==> vs[i].id == i && WellFormed(vs[i])
  }

  /** Every video a listing of valid documents shows is well formed. */
  lemma ListedAreWellFormed(vs: seq<Video>, emails: map<string, string>)
    requires ValidDocuments(vs)
    ensures forall i :: 0 <= i < |ListNewestFirst(vs, emails)| ==> WellFormed(ListNewestFirst(vs, emails)[i].video)
  {
    var r := ListNewestFirst(vs, emails);
    var ws := seq(|r|, i requires 0 <= i < |r| => r[i].video);
    forall i | 0 <= i < |r|
      ensures WellFormed(r[i].video)
    {
      assert ws[i] in multiset(ws);
      assert ws[i] in vs;
    }
  }

  lemma AppendKeepsValid(vs: seq<Video>, v: Video)
    requires ValidDocuments(vs) && v.id == |vs| && WellFormed(v)
    ensures ValidDocuments(vs + [v])
  {
  }

  /** The video collection, in insertion order. */
  class VideoStore {
    var videos: seq<Video>

    ghost predicate Valid()
      reads this
    {
      ValidDocuments(videos)
    }

    constructor ()
      ensures Valid() && videos == []
    {
      videos := [];
    }

    /** `POST`: answers as `HandlePost` does and appends the created document, if any. */
    method Post(token: Option<Claims>, body: Option<PostBody>, dbAvailable: bool, now: int)
      returns (response: Response)
      requires Valid()
      modifies this
      ensures Valid()
      ensures var r := HandlePost(token, body, dbAvailable, |old(videos)|, now);
        response == r.response
        && videos == old(videos) + (if r.created.Some? then [r.created.value] else [])
    {
      var r := HandlePost(token, body, dbAvailable, |videos|, now);
      if r.created.Some? {
        var v := r.created.value;
        AppendKeepsValid(videos, v);
        videos := videos + [v];
      }
      response := r.response;
    }

    /** `GET`: every document newest first with its owner's email, or 500 when the database fails. */
    method Get(dbAvailable: bool, emails: map<string, string>) returns (response: Response)
      ensures dbAvailable ==> response == Response(200, VideoList(ListNewestFirst(videos, emails)))
      ensures !dbAvailable ==> response == Response(500, ErrorMessage("Failed to fetch videos"))
      ensures Valid() && dbAvailable ==>
        forall i :: 0 <= i < |response.payload.videos| ==> WellFormed(response.payload.videos[i].video)
    {
      if !dbAvailable {
        return FetchFailed;
      }
      if Valid() {
        ListedAreWellFormed(videos, emails);
      }
      response := Response(200, VideoList(ListNewestFirst(videos, emails)));
    }
  }
}
