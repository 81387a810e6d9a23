/**
 * The podcast page: the feed request made once at mount, sorted into a feed,
 * a feed error or a connection error, and the play/pause toggle over the
 * page's single hidden audio element.
 */
module Podcast {
  import opened Wrappers

  datatype Enclosure = Enclosure(link: string, mediaType: string, length: int, duration: Option<int>)

  datatype FeedItem = FeedItem(
    title: string, pubDate: string, link: string, guid: string, author: string,
    thumbnail: string, description: string, content: string, enclosure: Enclosure)

  datatype FeedInfo = FeedInfo(url: string, title: string, link: string, author: string, description: string, image: string)

  /** The JSON body the feed converter answers with. */
  datatype FeedData = FeedData(status: string, feed: FeedInfo, items: seq<FeedItem>)

  /** How the feed request settled: a decoded body, or a rejected promise (network or JSON decoding). */
  datatype FetchResult = Responded(data: FeedData) | Rejected

  datatype FeedOutcome = Loaded(feed: FeedData) | Failed(message: string)

  /** The feed URL the site is configured with: empty, so the page shows its preview instead. */
  const CastosRssUrl := ""
  const OkStatus := "ok"
  const FeedErrorMessage := "Could not load podcast feed."
  const ConnectErrorMessage := "Failed to connect to podcast service."

  /** The settled request as the page sorts it: only an "ok" body becomes the feed. */
  function Classify(r: FetchResult): (o: FeedOutcome)
    ensures o.Loaded? <==> r.Responded? && r.data.status == OkStatus
    ensures o.Loaded? ==> o.feed == r.data
    ensures r.Responded? && r.data.status != OkStatus ==> o == Failed(FeedErrorMessage)
    ensures r.Rejected? ==> o == Failed(ConnectErrorMessage)
  {
    match r
    case Responded(data) => if data.status == OkStatus then Loaded(data) else Failed(FeedErrorMessage)
    case Rejected => Failed(ConnectErrorMessage)
  }

  /** The part of an HTML audio element the page uses. */
  class AudioElement {
    var src: string
    var paused: bool

    constructor ()
      ensures src == "" && paused
    {
      src := "";
      paused := true;
    }

    /** `play()`: playback starts; the returned promise is ignored by the page. */
    method Play()
      modifies this
      ensures src == old(src) && !paused
    {
      paused := false;
    }

    method Pause()
      modifies this
      ensures src == old(src) && paused
    {
      paused := true;
    }
  }

  datatype PlayerState = PlayerState(
    feed: Option<FeedData>, loading: bool, error: string, activeEpisodeUrl: Option<string>, fetchPending: bool)

  class Player {
    var feed: Option<FeedData>
    var loading: bool
    var error: string
    var activeEpisodeUrl: Option<string>
    /** The feed request has started and not yet settled. */
    var fetchPending: bool
    /** The audio element; the page renders it only when a feed URL is configured. */
    var audio: AudioElement?

    ghost function State(): PlayerState
      reads this
    {
      PlayerState(feed, loading, error, activeEpisodeUrl, fetchPending)
    }

    /**
     * Only an "ok" body is ever kept as the feed; the spinner shows exactly
     * while the request is outstanding; the error is one of the two messages;
     * the episode marked active is the one loaded into the audio element.
     */
    ghost predicate Valid()
      reads this, audio
    {
      (feed.Some? ==> feed.value.status == OkStatus) &&
      (loading <==> fetchPending) &&
      (error == "" || error == FeedErrorMessage || error == ConnectErrorMessage) &&
      (activeEpisodeUrl.Some? ==> audio != null && audio.src == activeEpisodeUrl.value)
    }

    /** Mounting the page with the feed URL `rssUrl`; the request starts only when it is not empty. */
    constructor (rssUrl: string)
      ensures Valid()
      ensures State() == PlayerState(None, rssUrl != "", "", None, rssUrl != "")
      ensures (audio != null) == (rssUrl != "") && (audio != null ==> fresh(audio))
    {
      feed := None;
      error := "";
      activeEpisodeUrl := None;
      if rssUrl != "" {
        audio := new AudioElement();
      } else {
        audio := null;
      }
      loading := rssUrl != "";
      fetchPending := loading;
    }

    /** The feed request settles. */
    method FetchSettled(r: FetchResult)
      requires Valid() && fetchPending
      modifies this
      ensures Valid() && !loading
      ensures match Classify(r)
        case Loaded(f) => State() == old(State()).(feed := Some(f), loading := false, fetchPending := false)
        case Failed(m) => State() == old(State()).(error := m, loading := false, fetchPending := false)
      ensures audio == old(audio)
    {
      match r {
        case Responded(data) =>
          if data.status == OkStatus {
            feed := Some(data);
          } else {
            error := FeedErrorMessage;
          }
        case Rejected =>
          error := ConnectErrorMessage;
      }
      loading := false;
      fetchPending := false;
    }

    /** The play/pause button of the episode whose audio is at `url`. */
    method ToggleAudio(url: string)
      requires Valid()
      modifies this, audio
      ensures Valid() && audio == old(audio)
      ensures audio == null ==> State() == old(State())
      ensures audio != null && old(activeEpisodeUrl) == Some(url) && old(audio.paused) ==>
        State() == old(State()) && audio.src == old(audio.src) && !audio.paused
      ensures audio != null && old(activeEpisodeUrl) == Some(url) && !old(audio.paused) ==>
        State() == old(State()).(activeEpisodeUrl := None) && audio.src == old(audio.src) && audio.paused
      ensures audio != null && old(activeEpisodeUrl) != Some(url) ==>
        State() == old(State()).(activeEpisodeUrl := Some(url)) && audio.src == url && !audio.paused
    {
      if audio == null {
        return;
      }
      if activeEpisodeUrl == Some(url) {
        if audio.paused {
          audio.Play();
        } else {
          audio.Pause();
          activeEpisodeUrl := None;
        }
      } else {
        audio.src := url;
        audio.Play();
        activeEpisodeUrl := Some(url);
      }
    }

    /**
     * The audio element's `ended` event: playback has stopped at the end, so
     * the element is paused, and the page clears the active episode. The event
     * fires only on an element that exists.
     */
    method OnEnded()
      requires Valid() && audio != null
      modifies this, audio
      ensures Valid() && audio == old(audio)
      ensures State() == old(State()).(activeEpisodeUrl := None)
      ensures audio.paused && audio.src == old(audio.src)
    {
      audio.Pause();
      activeEpisodeUrl := None;
    }

    /**
     * The element pauses without the page's buttons (media keys, a system
     * interruption). The element has no pause handler, so the active episode
     * stays; its next toggle resumes it.
     */
    method OnExternalPause()
      requires Valid() && audio != null
      modifies audio
      ensures Valid()
      ensures State() == old(State())
      ensures audio.paused && audio.src == old(audio.src)
    {
      audio.Pause();
    }
  }

  /** After an outside pause, the active episode's button resumes it where it was. */
  method ResumeAfterExternalPause(p: Player, url: string)
    requires p.Valid() && p.audio != null && p.activeEpisodeUrl == Some(url)
    modifies p, p.audio
    ensures p.Valid() && p.audio == old(p.audio)
    ensures p.activeEpisodeUrl == Some(url) && !p.audio.paused && p.audio.src == url
  {
    p.OnExternalPause();
    p.ToggleAudio(url);
  }

  /** With the configured empty feed URL no request starts and nothing is loading. */
  method MountConfigured() returns (p: Player)
    ensures p.Valid() && !p.loading && !p.fetchPending && p.audio == null
  {
    p := new Player(CastosRssUrl);
  }
}
