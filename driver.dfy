/**
 * The driver portal: a session machine over the views loading, login,
 * register and dashboard, with key-value persistence, a simulated login and
 * application, an online toggle and a GPS jitter tick.
 *
 * Each delayed callback of the page is a completion method; the callback of
 * a login captures the id and pin typed at the moment of submission, so the
 * pending work records them.
 */
module Driver {
  import opened Wrappers
  import opened Reals
  import opened MockDb

  datatype View = Loading | Login | Register | Dashboard

  datatype LatLng = LatLng(lat: real, lng: real)

  /** A stored value: plain text, or the serialized form of a driver profile. */
  datatype Stored = Text(text: string) | ProfileJson(profile: DriverProfile)

  type Storage = map<string, Stored>

  datatype Credentials = Credentials(id: string, pin: string)

  /** The delayed callback currently scheduled, if any. */
  datatype Pending = NoPending | LoginPending(captured: Credentials) | RegistrationPending

  const SessionKey := "ubar_driver_session"
  const DataKey := "ubar_driver_data"
  const SessionMarker := "active"
  const DeniedMessage := "Invalid Credentials. Access Denied."
  const StartLocation := LatLng(32.7767, -96.7970)
  /** The amplitude of one jitter draw: `(r - 0.5) * JitterScale`. */
  const JitterScale: real := 0.0005
  const MaxJitter: real := 0.00025

  /** The value of `localStorage.getItem(key)` is truthy: present and, as text, not empty. */
  predicate Truthy(storage: Storage, key: string) {
    key in storage && storage[key] != Text("")
  }

  /** What the session check decides. `ParseFailure`: the stored data is not a profile, `JSON.parse` throws and nothing is set. */
  datatype RestoreOutcome = ToLogin | ToDashboard(driver: DriverProfile) | ParseFailure

  /** The session check at mount: marker and stored profile restore the dashboard, otherwise login. */
  function Restore(storage: Storage): (o: RestoreOutcome)
    ensures o.ToDashboard? <==> Truthy(storage, SessionKey) && DataKey in storage && storage[DataKey].ProfileJson?
    ensures o.ToDashboard? ==> storage[DataKey] == ProfileJson(o.driver)
    ensures o == ToLogin <==> !Truthy(storage, SessionKey) || !Truthy(storage, DataKey)
  {
    if !Truthy(storage, SessionKey) then ToLogin
    else if !Truthy(storage, DataKey) then ToLogin
    else match storage[DataKey]
      case ProfileJson(p) => ToDashboard(p)
      case Text(_) => ParseFailure
  }

  /** The writes of a successful login; a later session check restores the same driver. */
  function SignIn(storage: Storage, p: DriverProfile): (r: Storage)
    ensures Restore(r) == ToDashboard(p)
    ensures r[SessionKey] == Text(SessionMarker) && r[DataKey] == ProfileJson(p)
    ensures forall k :: k != SessionKey && k != DataKey ==> (k in r <==> k in storage)
    ensures forall k :: k in storage && k != SessionKey && k != DataKey ==> r[k] == storage[k]
  {
    storage[SessionKey := Text(SessionMarker)][DataKey := ProfileJson(p)]
  }

  /** The removals of a logout; a later session check goes to login. */
  function SignOut(storage: Storage): (r: Storage)
    ensures Restore(r) == ToLogin
    ensures SessionKey !in r && DataKey !in r
    ensures forall k :: k != SessionKey && k != DataKey ==> (k in r <==> k in storage)
    ensures forall k :: k in r ==> r[k] == storage[k]
  {
    storage - {SessionKey, DataKey}
  }

  /** One coordinate offset of a jitter tick, for a draw `r` of `Math.random()`. */
  function Jitter(r: real): (d: real)
    requires 0.0 <= r < 1.0
    ensures -MaxJitter <= d < MaxJitter
  {
    (r - 0.5) * JitterScale
  }

  /** The location after one jitter tick with the draws `r1` (latitude) and `r2` (longitude). */
  function JitterStep(loc: LatLng, r1: real, r2: real): (next: LatLng)
    requires 0.0 <= r1 < 1.0 && 0.0 <= r2 < 1.0
    ensures -MaxJitter <= next.lat - loc.lat < MaxJitter
    ensures -MaxJitter <= next.lng - loc.lng < MaxJitter
  {
    LatLng(loc.lat + Jitter(r1), loc.lng + Jitter(r2))
  }

  /** Every draw of `Math.random()` lies in [0, 1). */
  ghost predicate ValidDraws(draws: seq<(real, real)>) {
    forall i :: 0 <= i < |draws| ==> 0.0 <= draws[i].0 < 1.0 && 0.0 <= draws[i].1 < 1.0
  }

  /** The location after one jitter tick per pair of draws, in order. */
  function Drift(loc: LatLng, draws: seq<(real, real)>): LatLng
    requires ValidDraws(draws)
    decreases |draws|
  {
    if draws == [] then loc
    else Drift(JitterStep(loc, draws[0].0, draws[0].1), draws[1..])
  }

  /** After N ticks each coordinate lies within N times the largest offset of where it started. */
  lemma {:induction false} DriftBound(loc: LatLng, draws: seq<(real, real)>)
    requires ValidDraws(draws)
    ensures Abs(Drift(loc, draws).lat - loc.lat) <= |draws| as real * MaxJitter
    ensures Abs(Drift(loc, draws).lng - loc.lng) <= |draws| as real * MaxJitter
    decreases |draws|
  {
    if draws != [] {
      var next := JitterStep(loc, draws[0].0, draws[0].1);
      assert ValidDraws(draws[1..]) by {
        forall i | 0 <= i < |draws[1..]| ensures 0.0 <= draws[1..][i].0 < 1.0 && 0.0 <= draws[1..][i].1 < 1.0 {
          assert draws[1..][i] == draws[i + 1];
        }
      }
      DriftBound(next, draws[1..]);
    }
  }

  /** The complete state of the portal, for stating what a handler changes. */
  datatype PortalState = PortalState(
    view: View, isOnline: bool, location: LatLng, isLoading: bool, error: string,
    currentDriver: Option<DriverProfile>, driverId: string, password: string,
    isApplicationSent: bool, storage: Storage, pending: Pending, sessionCheckPending: bool)

  class Portal {
    var view: View
    var isOnline: bool
    var location: LatLng
    var isLoading: bool
    var error: string
    var currentDriver: Option<DriverProfile>
    var driverId: string
    var password: string
    var isApplicationSent: bool
    /** `localStorage`, which outlives the page. */
    var storage: Storage
    /** The login or application callback scheduled and not yet run. */
    var pending: Pending
    /** The session check scheduled at mount has not yet run. */
    var sessionCheckPending: bool

    ghost function State(): PortalState
      reads this
    {
      PortalState(view, isOnline, location, isLoading, error, currentDriver, driverId, password,
        isApplicationSent, storage, pending, sessionCheckPending)
    }

    /**
     * A driver is signed in exactly on the dashboard; only the dashboard can be
     * online; the spinner of a submit button shows exactly while its callback
     * is scheduled; nothing else happens before the session check.
     */
    ghost predicate Valid()
      reads this
    {
      (currentDriver.Some? <==> view == Dashboard) &&
      (isOnline ==> view == Dashboard) &&
      (isLoading <==> pending != NoPending) &&
      (sessionCheckPending ==> view == Loading && pending == NoPending)
    }

    /** Mounting the page over a storage that survives from earlier visits. */
    constructor (saved: Storage)
      ensures Valid()
      ensures State() == PortalState(Loading, false, StartLocation, false, "", None, "", "",
        false, saved, NoPending, true)
    {
      view := Loading;
      isOnline := false;
      location := StartLocation;
      isLoading := false;
      error := "";
      currentDriver := None;
      driverId := "";
      password := "";
      isApplicationSent := false;
      storage := saved;
      pending := NoPending;
      sessionCheckPending := true;
    }

    /** The session check that runs once, shortly after mount. */
    method CheckSession()
      requires Valid() && sessionCheckPending
      modifies this
      ensures Valid() && !sessionCheckPending
      ensures match Restore(old(storage))
        case ToLogin => State() == old(State()).(view := Login, sessionCheckPending := false)
        case ToDashboard(p) =>
          State() == old(State()).(view := Dashboard, currentDriver := Some(p), sessionCheckPending := false)
        case ParseFailure => State() == old(State()).(sessionCheckPending := false)
    {
      sessionCheckPending := false;
      if Truthy(storage, SessionKey) {
        if Truthy(storage, DataKey) {
          match storage[DataKey] {
            case ProfileJson(p) =>
              currentDriver := Some(p);
              view := Dashboard;
            case Text(_) =>
          }
        } else {
          view := Login;
        }
      } else {
        view := Login;
      }
    }

    method EditDriverId(s: string)
      requires Valid() && view == Login
      modifies this
      ensures Valid() && State() == old(State()).(driverId := s)
    {
      driverId := s;
    }

    method EditPassword(s: string)
      requires Valid() && view == Login
      modifies this
      ensures Valid() && State() == old(State()).(password := s)
    {
      password := s;
    }

    /** Submitting the login form (its button is disabled while a callback is scheduled). */
    method SubmitLogin()
      requires Valid() && view == Login && !isLoading
      modifies this
      ensures Valid()
      ensures State() == old(State()).(error := "", isLoading := true,
        pending := LoginPending(Credentials(old(driverId), old(password))))
    {
      error := "";
      isLoading := true;
      pending := LoginPending(Credentials(driverId, password));
    }

    /** The simulated API call of a login resolves, with the credentials captured at submission. */
    method CompleteLogin()
      requires Valid() && pending.LoginPending?
      modifies this
      ensures Valid() && !isLoading
      ensures match CheckCredentials(old(pending).captured.id, old(pending).captured.pin)
        case Some(d) =>
          State() == old(State()).(storage := SignIn(old(storage), d), currentDriver := Some(d),
            view := Dashboard, isLoading := false, pending := NoPending)
        case None =>
          State() == old(State()).(error := DeniedMessage, isLoading := false, pending := NoPending)
    {
      var c := pending.captured;
      var driver := CheckCredentials(c.id, c.pin);
      ApplyLogin(driver);
    }

    /** The body of the login callback once the lookup has answered `driver`. */
    method ApplyLogin(driver: Option<DriverProfile>)
      requires Valid() && pending.LoginPending?
      modifies this
      ensures Valid() && !isLoading
      ensures match driver
        case Some(d) =>
          State() == old(State()).(storage := SignIn(old(storage), d), currentDriver := Some(d),
            view := Dashboard, isLoading := false, pending := NoPending)
        case None =>
          State() == old(State()).(error := DeniedMessage, isLoading := false, pending := NoPending)
    {
      match driver {
        case Some(d) =>
          storage := SignIn(storage, d);
          currentDriver := Some(d);
          view := Dashboard;
        case None =>
          error := DeniedMessage;
      }
      isLoading := false;
      pending := NoPending;
    }

    /** Submitting the application form. */
    method SubmitApplication()
      requires Valid() && view == Register && !isApplicationSent && !isLoading
      modifies this
      ensures Valid()
      ensures State() == old(State()).(isLoading := true, pending := RegistrationPending)
    {
      isLoading := true;
      pending := RegistrationPending;
    }

    /** The simulated submission resolves; it always succeeds. */
    method CompleteApplication()
      requires Valid() && pending == RegistrationPending
      modifies this
      ensures Valid() && isApplicationSent && !isLoading
      ensures State() == old(State()).(isApplicationSent := true, isLoading := false, pending := NoPending)
    {
      isApplicationSent := true;
      isLoading := false;
      pending := NoPending;
    }

    /** "Return to Login" on the confirmation of a sent application. */
    method DismissApplication()
      requires Valid() && view == Register && isApplicationSent
      modifies this
      ensures Valid()
      ensures State() == old(State()).(isApplicationSent := false, view := Login)
    {
      isApplicationSent := false;
      view := Login;
    }

    /** The "Login" tab, shown on the forms until an application is sent. */
    method ShowLoginTab()
      requires Valid() && (view == Login || view == Register) && !isApplicationSent
      modifies this
      ensures Valid()
      ensures State() == old(State()).(view := Login, error := "")
    {
      view := Login;
      error := "";
    }

    /** The "Apply" tab. */
    method ShowRegisterTab()
      requires Valid() && (view == Login || view == Register) && !isApplicationSent
      modifies this
      ensures Valid()
      ensures State() == old(State()).(view := Register, error := "")
    {
      view := Register;
      error := "";
    }

    /** Logging out from the dashboard. */
    method Logout()
      requires Valid() && view == Dashboard
      modifies this
      ensures Valid()
      ensures State() == old(State()).(storage := SignOut(old(storage)), isOnline := false,
        currentDriver := None, view := Login, driverId := "", password := "")
    {
      storage := storage - {SessionKey};
      storage := storage - {DataKey};
      isOnline := false;
      currentDriver := None;
      view := Login;
      driverId := "";
      password := "";
    }

    /** "Go Online" / "Go Offline" on the dashboard. */
    method ToggleOnline()
      requires Valid() && view == Dashboard
      modifies this
      ensures Valid()
      ensures State() == old(State()).(isOnline := !old(isOnline))
    {
      isOnline := !isOnline;
    }

    /**
     * One period of the GPS polling interval, with the two draws of
     * `Math.random()`; the interval exists only while online on the dashboard.
     */
    method GpsTick(r1: real, r2: real)
      requires Valid() && 0.0 <= r1 < 1.0 && 0.0 <= r2 < 1.0
      modifies this
      ensures Valid()
      ensures old(isOnline && view == Dashboard) ==>
        State() == old(State()).(location := JitterStep(old(location), r1, r2))
      ensures !old(isOnline && view == Dashboard) ==> State() == old(State())
    {
      if isOnline && view == Dashboard {
        location := JitterStep(location, r1, r2);
      }
    }
  }

  /** A restore after a logout, on a fresh page over the same storage, shows the login form. */
  method RestoreAfterLogout(p: Portal) returns (page: Portal)
    requires p.Valid() && p.view == Dashboard
    modifies p
    ensures page.view == Login && page.currentDriver == None
  {
    p.Logout();
    page := new Portal(p.storage);
    page.CheckSession();
  }

  /** A successful login followed by a fresh page over the same storage restores the same driver. */
  method RestoreAfterLogin(p: Portal) returns (page: Portal)
    requires p.Valid() && p.pending.LoginPending?
    requires CheckCredentials(p.pending.captured.id, p.pending.captured.pin).Some?
    modifies p
    ensures p.view == Dashboard
    ensures page.view == Dashboard && page.currentDriver == p.currentDriver
  {
    p.CompleteLogin();
    page := new Portal(p.storage);
    page.CheckSession();
  }
}
