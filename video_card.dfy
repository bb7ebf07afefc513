/**
 * The video card: how it derives the player's file path, transformation and `controls`
 * from a listed video, and how its play and mute buttons drive the player element.
 */
module VideoCard {
  import opened Wrappers
  import opened JsString

  /** A transformation object as it reaches the card; any field may be missing. */
  datatype CardTransformation = CardTransformation(height: Option<int>, width: Option<int>, quality: Option<int>)

  /** The fields of a listed video the card reads; any may be missing. */
  datatype CardVideo = CardVideo(
    title: Option<string>,
    description: Option<string>,
    videoUrl: Option<string>,
    thumbnailUrl: Option<string>,
    controls: Option<bool>,
    transformation: Option<CardTransformation>)

  /**
   * `getFilePath(url)`: "" for a falsy URL; otherwise the URL with the ImageKit endpoint
   * (the environment setting, "" when unset) replaced by "" when it starts with it.
   */
  function FilePath(url: Option<string>, endpointEnv: Option<string>): (r: string)
    ensures IsFalsy(url) ==> r == ""
    ensures !IsFalsy(url) && !StartsWith(url.value, OrElse(endpointEnv, "")) ==> r == url.value
  {
    if IsFalsy(url) then ""
    else
      var endpoint := OrElse(endpointEnv, "");
      if StartsWith(url.value, endpoint) then ReplaceFirst(url.value, endpoint, "") else url.value
  }

  /**
   * A URL under the endpoint loses exactly that prefix: putting the endpoint back in front
   * of the path gives the URL again.
   */
  lemma {:induction false} FilePathStripsEndpoint(url: string, endpointEnv: Option<string>)
    requires url != "" && StartsWith(url, OrElse(endpointEnv, ""))
    ensures FilePath(Some(url), endpointEnv) == url[|OrElse(endpointEnv, "")|..]
    ensures OrElse(endpointEnv, "") + FilePath(Some(url), endpointEnv) == url
  {
    var endpoint := OrElse(endpointEnv, "");
    ReplacePrefixDropsIt(url, endpoint);
    assert url == url[..|endpoint|] + url[|endpoint|..];
  }

  /** With no endpoint configured every URL is used as it is. */
  lemma {:induction false} NoEndpointKeepsUrl(url: Option<string>, endpointEnv: Option<string>)
    requires IsFalsy(endpointEnv)
    ensures FilePath(url, endpointEnv) == OrElse(url, "")
  {
    if !IsFalsy(url) {
      assert StartsWith(url.value, "");
      FilePathStripsEndpoint(url.value, endpointEnv);
    }
  }

  /** A rendered transformation value: the stored number, or the string fallback. */
  datatype Dimension = Number(n: int) | Text(s: string)

  /** `value || fallback` for a number that may be missing: 0 is falsy too. */
  function NumberOr(value: Option<int>, fallback: string): (d: Dimension)
    ensures d == Text(fallback) <==> value.None? || value == Some(0)
    ensures d.Number? ==> value == Some(d.n) && d.n != 0
  {
    if value.None? || value == Some(0) then Text(fallback) else Number(value.value)
  }

  datatype RenderedTransformation = RenderedTransformation(height: Dimension, width: Dimension, quality: Dimension)

  /** The transformation handed to the player: `transformation = {}` when missing, then each field `|| "1920"`, `|| "1080"`, `|| "80"`. */
  function PlayerTransformation(t: Option<CardTransformation>): (r: RenderedTransformation)
    ensures t.None? ==> r == RenderedTransformation(Text("1920"), Text("1080"), Text("80"))
    ensures t.Some? ==> r.height == NumberOr(t.value.height, "1920")
    ensures t.Some? ==> r.width == NumberOr(t.value.width, "1080")
    ensures t.Some? ==> r.quality == NumberOr(t.value.quality, "80")
  {
    var given := t.GetOr(CardTransformation(None, None, None));
    RenderedTransformation(NumberOr(given.height, "1920"), NumberOr(given.width, "1080"), NumberOr(given.quality, "80"))
  }

  /**
   * `||` treats 0 as missing: a height or width of 0, which the schema accepts and stores, is
   * shown at the fallback "1920" or "1080"; a quality of 0 reaching the card (the schema never
   * stores one) would be shown as "80"; any non-zero value is passed on as it is.
   */
  lemma ZeroFallsBack(h: int, w: int, q: int)
    ensures PlayerTransformation(Some(CardTransformation(Some(0), Some(w), Some(q)))).height == Text("1920")
    ensures PlayerTransformation(Some(CardTransformation(Some(h), Some(0), Some(q)))).width == Text("1080")
    ensures PlayerTransformation(Some(CardTransformation(Some(h), Some(w), Some(0)))).quality == Text("80")
    ensures h != 0 ==> PlayerTransformation(Some(CardTransformation(Some(h), Some(w), Some(q)))).height == Number(h)
    ensures w != 0 ==> PlayerTransformation(Some(CardTransformation(Some(h), Some(w), Some(q)))).width == Number(w)
    ensures q != 0 ==> PlayerTransformation(Some(CardTransformation(Some(h), Some(w), Some(q)))).quality == Number(q)
  {
  }

  /** `controls = true` in the destructuring: the default applies only when the field is missing. */
  function PlayerControls(v: CardVideo): (c: bool)
    ensures v.controls.None? ==> c
    ensures v.controls.Some? ==> c == v.controls.value
  {
    v.controls.GetOr(true)
  }

  /** `poster={thumbnailUrl || undefined}`: no poster for a missing or empty thumbnail. */
  function Poster(v: CardVideo): (p: Option<string>)
    ensures p.None? <==> IsFalsy(v.thumbnailUrl)
    ensures p.Some? ==> p == v.thumbnailUrl
  {
    if IsFalsy(v.thumbnailUrl) then None else v.thumbnailUrl
  }

  /** The player element behind `videoRef`. */
  class VideoElement {
    var muted: bool
    var paused: bool

    constructor (muted: bool)
      ensures this.muted == muted && paused
    {
      this.muted := muted;
      paused := true;
    }

    method Play()
      modifies this
      ensures !paused && muted == old(muted)
    {
      paused := false;
    }

    method Pause()
      modifies this
      ensures paused && muted == old(muted)
    {
      paused := true;
    }
  }

  /** The card's component state; `videoRef` is null until the player has mounted. */
  class VideoCardState {
    const videoRef: VideoElement?
    var isPlaying: bool
    var isMuted: bool

    constructor (videoRef: VideoElement?)
      ensures this.videoRef == videoRef && !isPlaying && isMuted
    {
      this.videoRef := videoRef;
      isPlaying, isMuted := false, true;
    }

    /** The element's sound matches the card's `isMuted` flag. */
    predicate MuteInSync()
      reads this, videoRef
    {
      videoRef != null ==> videoRef.muted == isMuted
    }

    /** `handlePlayPause`: with a mounted player, pauses it if playing, else plays it, and flips the flag. */
    method HandlePlayPause()
      modifies this, videoRef
      ensures videoRef == null ==> isPlaying == old(isPlaying)
      ensures videoRef != null ==> isPlaying == !old(isPlaying) && videoRef.paused == old(isPlaying)
      ensures isMuted == old(isMuted)
      ensures videoRef != null ==> videoRef.muted == old(videoRef.muted)
    {
      if videoRef != null {
        if isPlaying {
          videoRef.Pause();
        } else {
          videoRef.Play();
        }
        isPlaying := !isPlaying;
      }
    }

    /** `handleMuteToggle`: with a mounted player, flips the flag and sets the element to match. */
    method HandleMuteToggle()
      modifies this, videoRef
      ensures videoRef == null ==> isMuted == old(isMuted)
      ensures videoRef != null ==> isMuted == !old(isMuted) && MuteInSync()
      ensures isPlaying == old(isPlaying)
      ensures videoRef != null ==> videoRef.paused == old(videoRef.paused)
    {
      if videoRef != null {
        videoRef.muted := !isMuted;
        isMuted := !isMuted;
      }
    }

    /** The player's `onPlay` and `onPause` events set the flag to what the player did. */
    method OnPlay()
      modifies this
      ensures isPlaying && isMuted == old(isMuted)
    {
      isPlaying := true;
    }

    method OnPause()
      modifies this
      ensures !isPlaying && isMuted == old(isMuted)
    {
      isPlaying := false;
    }
  }
}
