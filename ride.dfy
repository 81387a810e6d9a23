/**
 * The ride booking page: pickup and drop-off capture, a simulated dispatch
 * search that always succeeds, a simulated driver marker that approaches the
 * map centre, the locate-me button and the assistant chat.
 */
module Ride {
  import opened Wrappers
  import opened Reals
  import opened Strings

  datatype Status = Idle | Searching | Confirmed

  /** A marker position, in percent of the map's width and height. */
  datatype Pos = Pos(x: real, y: real)

  datatype Role = User | Model
  datatype ChatMessage = ChatMessage(role: Role, text: string)

  /** A venue the assistant suggests. */
  datatype Suggestion = Suggestion(name: string, address: string, description: string, url: Option<string>)

  const Target := Pos(50.0, 50.0)
  /** Where the driver marker is put when a booking is confirmed. */
  const StartPos := Pos(80.0, 20.0)
  const InitialPos := Pos(10.0, 10.0)
  const InitialMapQuery := "Nightlife Seattle WA"
  /** Distance, on both axes, below which the marker has arrived. */
  const ArrivalRadius: real := 0.5
  /** Share of the remaining distance covered per tick. */
  const Rate: real := 0.05
  const CurrentLocation := "Current Location"
  const MissingLocations := "Please enter both pickup and drop-off locations."
  const GeolocationUnsupported := "Geolocation is not supported by your browser."
  const GeolocationFailed := "I couldn't get your location. Please check your browser permissions."
  const SuggestionsFound := "I've found some premium spots for you tonight. Which one feels like the right vibe?"
  const AssistantUnavailable := "I'm having trouble connecting to the nightlife grid. Try again in a moment?"

  predicate Arrived(p: Pos) {
    Abs(Target.x - p.x) < ArrivalRadius && Abs(Target.y - p.y) < ArrivalRadius
  }

  /**
   * One tick of the driver marker: once within the arrival radius on both
   * axes it stays put; otherwise the remaining distance on each axis shrinks
   * to 95% of what it was.
   */
  function Approach(p: Pos): (q: Pos)
    ensures Arrived(p) ==> q == p
    ensures !Arrived(p) ==> Target.x - q.x == 0.95 * (Target.x - p.x) && Target.y - q.y == 0.95 * (Target.y - p.y)
  {
    var dx := Target.x - p.x;
    var dy := Target.y - p.y;
    if Abs(dx) < ArrivalRadius && Abs(dy) < ArrivalRadius then p
    else Pos(p.x + dx * Rate, p.y + dy * Rate)
  }

  /** A tick never overshoots the target: the distance does not grow and keeps its sign, on each axis. */
  lemma ApproachNeverOvershoots(p: Pos)
    ensures Abs(Target.x - Approach(p).x) <= Abs(Target.x - p.x)
    ensures Abs(Target.y - Approach(p).y) <= Abs(Target.y - p.y)
    ensures (Target.x - Approach(p).x) * (Target.x - p.x) >= 0.0
    ensures (Target.y - Approach(p).y) * (Target.y - p.y) >= 0.0
  {
  }

  /** The marker after `n` ticks from `p`. */
  function Track(p: Pos, n: nat): Pos {
    if n == 0 then p else Approach(Track(p, n - 1))
  }

  /** Later ticks are never farther from the target, on either axis. */
  lemma {:induction false} TrackMonotone(p: Pos, m: nat, n: nat)
    requires m <= n
    ensures Abs(Target.x - Track(p, n).x) <= Abs(Target.x - Track(p, m).x)
    ensures Abs(Target.y - Track(p, n).y) <= Abs(Target.y - Track(p, m).y)
  {
    if m < n {
      TrackMonotone(p, m, n - 1);
      ApproachNeverOvershoots(Track(p, n - 1));
    }
  }

  /** Once arrived, the marker stays where it is. */
  lemma {:induction false} TrackStaysArrived(p: Pos, m: nat, n: nat)
    requires m <= n && Arrived(Track(p, m))
    ensures Track(p, n) == Track(p, m)
  {
    if m < n {
      TrackStaysArrived(p, m, n - 1);
    }
  }

  /** The factor by which the distance left after `n` ticks is at least divided, until arrival. */
  function Slowdown(n: nat): real { 1.0 + n as real / 20.0 }

  /** A distance `d` left after `n` ticks is within the bound for a starting distance `start`. */
  predicate WithinBound(d: real, n: nat, start: real) { d * Slowdown(n) <= start }

  /**
   * Until it arrives, the distance left after `n` ticks is at most the
   * starting distance divided by `1 + n/20` on each axis.
   */
  lemma {:induction false} TrackBound(p: Pos, n: nat)
    ensures Arrived(Track(p, n)) ||
      (WithinBound(Abs(Target.x - Track(p, n).x), n, Abs(Target.x - p.x)) &&
       WithinBound(Abs(Target.y - Track(p, n).y), n, Abs(Target.y - p.y)))
  {
    if n > 0 {
      TrackBound(p, n - 1);
      var t := Track(p, n - 1);
      if !Arrived(t) {
        ShrinkStep(Target.x - t.x, Target.x - Track(p, n).x, n, Abs(Target.x - p.x));
        ShrinkStep(Target.y - t.y, Target.y - Track(p, n).y, n, Abs(Target.y - p.y));
      }
    } else {
      assert Slowdown(0) == 1.0;
    }
  }

  /** The arithmetic step of TrackBound: shrinking by 0.95 pays for one more tick in the bound. */
  lemma ShrinkStep(d: real, d': real, n: nat, start: real)
    requires n > 0 && d' == 0.95 * d
    requires WithinBound(Abs(d), n - 1, start)
    ensures WithinBound(Abs(d'), n, start)
  {
    var k := (n - 1) as real;
    assert Slowdown(n - 1) == 1.0 + k / 20.0;
    assert Slowdown(n) == 1.0 + (k + 1.0) / 20.0;
    assert Abs(d') == 0.95 * Abs(d);
    assert Abs(d') * Slowdown(n) == Abs(d) * (0.9975 + 0.0475 * k);
    assert Abs(d) * (0.9975 + 0.0475 * k) <= Abs(d) * (1.0 + k / 20.0);
  }

  /** The marker arrives within any number of ticks whose slowdown exceeds twice the starting distance on each axis. */
  lemma ArrivesWithin(p: Pos, n: nat)
    requires 2.0 * Abs(Target.x - p.x) < Slowdown(n) && 2.0 * Abs(Target.y - p.y) < Slowdown(n)
    ensures Arrived(Track(p, n))
  {
    TrackBound(p, n);
    var q := Track(p, n);
    BelowHalf(Abs(Target.x - q.x), n, Abs(Target.x - p.x));
    BelowHalf(Abs(Target.y - q.y), n, Abs(Target.y - p.y));
  }

  /** A distance within the bound is below the arrival radius once the slowdown exceeds twice the start. */
  lemma BelowHalf(d: real, n: nat, start: real)
    requires d >= 0.0 && 2.0 * start < Slowdown(n)
    ensures WithinBound(d, n, start) ==> d < ArrivalRadius
  {
    var s := Slowdown(n);
    if d >= 0.5 {
      assert (d - 0.5) * s >= 0.0;
      assert d * s >= 0.5 * s;
    }
  }

  /** From the starting point of a confirmed booking, the marker has arrived after 1200 ticks and stays there. */
  lemma ArrivesFromStart(n: nat)
    requires n >= 1200
    ensures Arrived(Track(StartPos, n))
  {
    assert Slowdown(n) >= 61.0;
    ArrivesWithin(StartPos, n);
  }

  /**
   * The validation of a ride request: it is refused exactly when the pickup
   * or the drop-off is blank after trimming.
   */
  function RequestError(pickup: string, dropoff: string): (r: Option<string>)
    ensures r == None <==> HasContent(pickup) && HasContent(dropoff)
    ensures r != None ==> r == Some(MissingLocations)
  {
    if IsBlank(pickup) || IsBlank(dropoff) then Some(MissingLocations) else None
  }

  /** The complete state of the page, for stating what a handler changes. */
  datatype BookingState = BookingState(
    pickup: string, dropoff: string, mapQuery: string, chatInput: string, isAiLoading: bool,
    aiSuggestions: seq<Suggestion>, chatHistory: seq<ChatMessage>, bookingStatus: Status,
    errorMessage: string, driverPos: Pos, isLocating: bool, pendingLocates: nat, pendingConsults: nat)

  class Booking {
    var pickup: string
    var dropoff: string
    /** What the background map is centred on. */
    var mapQuery: string
    var chatInput: string
    var isAiLoading: bool
    var aiSuggestions: seq<Suggestion>
    /** The chat log; handlers only ever append to it. */
    var chatHistory: seq<ChatMessage>
    var bookingStatus: Status
    var errorMessage: string
    var driverPos: Pos
    var isLocating: bool
    /** Geolocation requests whose callback has not yet run. */
    var pendingLocates: nat
    /** Assistant requests that have not yet settled. */
    var pendingConsults: nat

    ghost function State(): BookingState
      reads this
    {
      BookingState(pickup, dropoff, mapQuery, chatInput, isAiLoading, aiSuggestions, chatHistory,
        bookingStatus, errorMessage, driverPos, isLocating, pendingLocates, pendingConsults)
    }

    /** A spinner shows only while its request is outstanding. */
    ghost predicate Valid()
      reads this
    {
      (isLocating ==> pendingLocates > 0) && (isAiLoading ==> pendingConsults > 0)
    }

    constructor ()
      ensures Valid()
      ensures State() == BookingState("", "", InitialMapQuery, "", false, [], [], Idle, "", InitialPos, false, 0, 0)
    {
      pickup := "";
      dropoff := "";
      mapQuery := InitialMapQuery;
      chatInput := "";
      isAiLoading := false;
      aiSuggestions := [];
      chatHistory := [];
      bookingStatus := Idle;
      errorMessage := "";
      driverPos := InitialPos;
      isLocating := false;
      pendingLocates := 0;
      pendingConsults := 0;
    }

    method EditPickup(s: string)
      requires Valid()
      modifies this
      ensures Valid() && State() == old(State()).(pickup := s)
    {
      pickup := s;
    }

    /**
     * A new drop-off text; the effect on `dropoff` runs only when the value
     * changed, and re-centres the map when the text is longer than 5 characters.
     */
    method EditDropoff(s: string)
      requires Valid()
      modifies this
      ensures Valid()
      ensures State() == old(State()).(dropoff := s,
        mapQuery := if s != old(dropoff) && |s| > 5 then s else old(mapQuery))
    {
      var changed := s != dropoff;
      dropoff := s;
      if changed && s != "" && |s| > 5 {
        mapQuery := s;
      }
    }

    /** Picking a suggested venue makes "name, address" the drop-off. */
    method SelectDestination(s: Suggestion)
      requires Valid()
      modifies this
      ensures Valid() && dropoff == s.name + ", " + s.address
      ensures State() == old(State()).(dropoff := s.name + ", " + s.address,
        mapQuery := if dropoff != old(dropoff) && |dropoff| > 5 then dropoff else old(mapQuery))
    {
      var fullAddress := s.name + ", " + s.address;
      EditDropoff(fullAddress);
    }

    method EditChatInput(s: string)
      requires Valid()
      modifies this
      ensures Valid() && State() == old(State()).(chatInput := s)
    {
      chatInput := s;
    }

    /** The locate-me button; `supported` says whether the browser offers geolocation. */
    method LocateMe(supported: bool)
      requires Valid()
      modifies this
      ensures Valid()
      ensures !supported ==>
        State() == old(State()).(chatHistory := old(chatHistory) + [ChatMessage(Model, GeolocationUnsupported)])
      ensures supported ==>
        State() == old(State()).(isLocating := true, pendingLocates := old(pendingLocates) + 1)
    {
      if !supported {
        chatHistory := chatHistory + [ChatMessage(Model, GeolocationUnsupported)];
        return;
      }
      isLocating := true;
      pendingLocates := pendingLocates + 1;
    }

    /**
     * The geolocation success callback; `latitude` and `longitude` are the
     * coordinates as JavaScript renders them in a template string.
     */
    method LocateSucceeded(latitude: string, longitude: string)
      requires Valid() && pendingLocates > 0
      modifies this
      ensures Valid()
      ensures State() == old(State()).(pickup := CurrentLocation, mapQuery := latitude + "," + longitude,
        isLocating := false, pendingLocates := old(pendingLocates) - 1)
    {
      var coordsString := latitude + "," + longitude;
      pickup := CurrentLocation;
      mapQuery := coordsString;
      isLocating := false;
      pendingLocates := pendingLocates - 1;
    }

    /** The geolocation error callback: one advisory message, the form is left alone. */
    method LocateFailed()
      requires Valid() && pendingLocates > 0
      modifies this
      ensures Valid()
      ensures State() == old(State()).(isLocating := false, pendingLocates := old(pendingLocates) - 1,
        chatHistory := old(chatHistory) + [ChatMessage(Model, GeolocationFailed)])
    {
      isLocating := false;
      chatHistory := chatHistory + [ChatMessage(Model, GeolocationFailed)];
      pendingLocates := pendingLocates - 1;
    }

    /** "Request Ubar", shown only while idle. */
    method RequestRide()
      requires Valid() && bookingStatus == Idle
      modifies this
      ensures Valid()
      ensures match RequestError(old(pickup), old(dropoff))
        case Some(message) => State() == old(State()).(errorMessage := message)
        case None => State() == old(State()).(errorMessage := "", bookingStatus := Searching)
    {
      if IsBlank(pickup) || IsBlank(dropoff) {
        errorMessage := MissingLocations;
        return;
      }
      errorMessage := "";
      bookingStatus := Searching;
    }

    /**
     * The simulated dispatch answers: the search always confirms, and entering
     * the confirmed status puts the driver marker at its starting point.
     */
    method CompleteSearch()
      requires Valid() && bookingStatus == Searching
      modifies this
      ensures Valid()
      ensures State() == old(State()).(bookingStatus := Confirmed, driverPos := StartPos)
    {
      bookingStatus := Confirmed;
      driverPos := StartPos;
    }

    /** One period of the tracking interval, which runs only while confirmed. */
    method Tick()
      requires Valid() && bookingStatus == Confirmed
      modifies this
      ensures Valid()
      ensures State() == old(State()).(driverPos := Approach(old(driverPos)))
    {
      driverPos := Approach(driverPos);
    }

    /** "Cancel Ride", shown only while confirmed. */
    method Cancel()
      requires Valid() && bookingStatus == Confirmed
      modifies this
      ensures Valid()
      ensures State() == old(State()).(bookingStatus := Idle)
    {
      bookingStatus := Idle;
    }

    /**
     * Sending the chat input (button or Enter): a blank input does nothing;
     * otherwise the input moves into the log and the assistant is asked.
     */
    method SubmitChat()
      requires Valid()
      modifies this
      ensures Valid()
      ensures IsBlank(old(chatInput)) ==> State() == old(State())
      ensures !IsBlank(old(chatInput)) ==>
        State() == old(State()).(chatInput := "", chatHistory := old(chatHistory) + [ChatMessage(User, old(chatInput))],
          isAiLoading := true, pendingConsults := old(pendingConsults) + 1)
    {
      if IsBlank(chatInput) {
        return;
      }
      var userMessage := chatInput;
      chatInput := "";
      chatHistory := chatHistory + [ChatMessage(User, userMessage)];
      isAiLoading := true;
      pendingConsults := pendingConsults + 1;
    }

    /** The assistant answered with a list of venues. */
    method ConsultAnswered(suggestions: seq<Suggestion>)
      requires Valid() && pendingConsults > 0
      modifies this
      ensures Valid()
      ensures State() == old(State()).(aiSuggestions := suggestions,
        chatHistory := old(chatHistory) + [ChatMessage(Model, SuggestionsFound)],
        isAiLoading := false, pendingConsults := old(pendingConsults) - 1)
    {
      aiSuggestions := suggestions;
      chatHistory := chatHistory + [ChatMessage(Model, SuggestionsFound)];
      isAiLoading := false;
      pendingConsults := pendingConsults - 1;
    }

    /** The assistant call or the parsing of its answer failed. */
    method ConsultFailed()
      requires Valid() && pendingConsults > 0
      modifies this
      ensures Valid()
      ensures State() == old(State()).(chatHistory := old(chatHistory) + [ChatMessage(Model, AssistantUnavailable)],
        isAiLoading := false, pendingConsults := old(pendingConsults) - 1)
    {
      chatHistory := chatHistory + [ChatMessage(Model, AssistantUnavailable)];
      isAiLoading := false;
      pendingConsults := pendingConsults - 1;
    }
  }
}
