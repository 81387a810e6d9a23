/**
 * The simulated driver database: a constant table of authorized driver
 * profiles and the credential lookup over it.
 */
module MockDb {
  import opened Wrappers
  import opened Strings

  datatype DriverProfile = DriverProfile(
    id: string,
    pin: string,
    name: string,
    vehicle: string,
    rating: real,
    totalRides: nat,
    earnings: string,
    onlineTime: string,
    avatar: string)

  const AdminAvatar := "https://images.unsplash.com/photo-1570295999919-56ceb5ecca61?ixlib=rb-4.0.3&auto=format&fit=crop&w=150&q=80"
  const JenkinsAvatar := "https://images.unsplash.com/photo-1494790108377-be9c29b29330?ixlib=rb-4.0.3&auto=format&fit=crop&w=150&q=80"
  const FordAvatar := "https://images.unsplash.com/photo-1507003211169-0a1dd7228f2d?ixlib=rb-4.0.3&auto=format&fit=crop&w=150&q=80"

  const AuthorizedDrivers: seq<DriverProfile> := [
    DriverProfile("UB-ADMIN", "2026", "Neon Dave (Lead)", "Sprinter VIP Lounge X1", 5.0, 1420, "$450.00", "6h 30m",
      AdminAvatar),
    DriverProfile("UB-8842", "1234", "Sarah Jenkins", "Cadillac Escalade ESV", 4.9, 842, "$142.50", "4h 12m",
      JenkinsAvatar),
    DriverProfile("UB-9901", "7777", "Marcus Ford", "Mercedes Sprinter Party Bus", 4.8, 120, "$85.00", "1h 05m",
      FordAvatar)
  ]

  /** The lookup's test: the id matches ignoring case, the pin matches exactly. */
  predicate Matches(d: DriverProfile, id: string, pin: string) {
    Upper(d.id) == Upper(id) && d.pin == pin
  }

  /** Entry `k` is the first entry of `drivers` that matches. */
  ghost predicate FirstMatchAt(drivers: seq<DriverProfile>, id: string, pin: string, k: int) {
    0 <= k < |drivers| && Matches(drivers[k], id, pin) &&
    forall j :: 0 <= j < k ==> !Matches(drivers[j], id, pin)
  }

  /** `Array.prototype.find` with the lookup's test: the first matching entry in table order, if any. */
  function Find(drivers: seq<DriverProfile>, id: string, pin: string): (r: Option<DriverProfile>)
    ensures r.None? <==> forall k :: 0 <= k < |drivers| ==> !Matches(drivers[k], id, pin)
    ensures r.Some? ==> exists k :: FirstMatchAt(drivers, id, pin, k) && drivers[k] == r.value
  {
    if drivers == [] then None
    else if Matches(drivers[0], id, pin) then
      assert FirstMatchAt(drivers, id, pin, 0);
      Some(drivers[0])
    else
      var r := Find(drivers[1..], id, pin);
      assert r.Some? ==> exists k :: FirstMatchAt(drivers, id, pin, k) && drivers[k] == r.value by {
        if r.Some? {
          var k :| FirstMatchAt(drivers[1..], id, pin, k) && drivers[1..][k] == r.value;
          assert FirstMatchAt(drivers, id, pin, k + 1);
        }
      }
      r
  }

  /** `checkCredentials(id, pin)`: the lookup over the authorized table. */
  function CheckCredentials(id: string, pin: string): (r: Option<DriverProfile>)
    ensures r.Some? ==> exists k :: FirstMatchAt(AuthorizedDrivers, id, pin, k) && AuthorizedDrivers[k] == r.value
    ensures r.Some? ==> Matches(r.value, id, pin)
    ensures r.None? <==> forall k :: 0 <= k < |AuthorizedDrivers| ==> !Matches(AuthorizedDrivers[k], id, pin)
  {
    Find(AuthorizedDrivers, id, pin)
  }

  /** No two entries of the table have ids that are equal ignoring case. */
  lemma IdsDistinctIgnoringCase()
    ensures forall i, j :: 0 <= i < j < |AuthorizedDrivers| ==>
      Upper(AuthorizedDrivers[i].id) != Upper(AuthorizedDrivers[j].id)
  {
    forall i, j | 0 <= i < j < |AuthorizedDrivers|
      ensures Upper(AuthorizedDrivers[i].id) != Upper(AuthorizedDrivers[j].id)
    {
      assert Upper(AuthorizedDrivers[i].id)[3] == AuthorizedDrivers[i].id[3];
      assert Upper(AuthorizedDrivers[j].id)[3] == AuthorizedDrivers[j].id[3];
    }
  }

  /** Hence at most one entry matches any credentials, and the lookup returns that one. */
  lemma AtMostOneMatch(id: string, pin: string)
    ensures forall i, j ::
      (0 <= i < |AuthorizedDrivers| && 0 <= j < |AuthorizedDrivers| &&
       Matches(AuthorizedDrivers[i], id, pin) && Matches(AuthorizedDrivers[j], id, pin)) ==> i == j
    ensures forall i :: 0 <= i < |AuthorizedDrivers| && Matches(AuthorizedDrivers[i], id, pin) ==>
      CheckCredentials(id, pin) == Some(AuthorizedDrivers[i])
  {
    IdsDistinctIgnoringCase();
  }

  /** The administrator logs in with the id in either case. */
  lemma AdminIdIgnoresCase()
    ensures CheckCredentials("UB-ADMIN", "2026") == Some(AuthorizedDrivers[0])
    ensures CheckCredentials("ub-admin", "2026") == Some(AuthorizedDrivers[0])
    ensures AuthorizedDrivers[0].id == "UB-ADMIN"
  {
    assert Upper("ub-admin") == "UB-ADMIN";
    assert Upper("UB-ADMIN") == "UB-ADMIN";
    assert Matches(AuthorizedDrivers[0], "ub-admin", "2026");
    assert Matches(AuthorizedDrivers[0], "UB-ADMIN", "2026");
    AtMostOneMatch("ub-admin", "2026");
    AtMostOneMatch("UB-ADMIN", "2026");
  }

  /** `toUpperCase` maps the dotless i (U+0131) to 'I', so the admin id typed with it logs in too. */
  lemma DotlessIAdminLogsIn()
    ensures CheckCredentials("ub-adm\U{0131}n", "2026") == Some(AuthorizedDrivers[0])
  {
    assert Upper("ub-adm\U{0131}n") == "UB-ADMIN";
    assert Matches(AuthorizedDrivers[0], "ub-adm\U{0131}n", "2026");
    AtMostOneMatch("ub-adm\U{0131}n", "2026");
  }

  /** The pin is compared exactly: a wrong pin is refused even with the right id. */
  lemma WrongPinRefused()
    ensures CheckCredentials("UB-ADMIN", "0000") == None
  {
  }
}
