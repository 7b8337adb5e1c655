/** The Android backend (HybridMunimWifi.kt). Platform services are inputs:
    a `Device` snapshot of the manager, permissions, radio and API level,
    the platform's raw scan records, the outcome of the scan trigger, and an
    oracle of poll readings taken while waiting for a scan to complete. */
module AndroidWifi {
  import opened Wrappers
  import opened WifiTypes
  import opened ChannelCodec
  import opened Sequences

  /** A raw platform scan record: the fields the backend reads. */
  datatype ScanResult = ScanResult(
    ssid: Option<string>,
    bssid: Option<string>,
    level: int,
    frequency: int,
    capabilities: string)

  /** What the backend can observe of the platform on one call. */
  datatype Device = Device(
    hasManager: bool,      // a WifiManager could be obtained
    fineLocation: bool,    // ACCESS_FINE_LOCATION granted
    coarseLocation: bool,  // ACCESS_COARSE_LOCATION granted
    wifiEnabled: bool,     // the radio is on
    sdkAtLeastM: bool)     // API level >= 23

  /** The outcome of asking the platform to start a scan. */
  datatype StartOutcome = Started | Refused | StartThrew

  /** What reading the platform's result list yields: the list, or an
      exception (such as a SecurityException). */
  datatype Fetch = Fetched(results: seq<ScanResult>) | Threw

  /** One pass of the wait loop: the milliseconds elapsed since the scan
      was triggered when the loop condition is evaluated, whether fine
      location is granted at that moment, and what reading the result list
      would yield. The oracle ending stands for the deadline being reached. */
  datatype Poll = Poll(elapsed: nat, fineLocation: bool, fetch: Fetch)

  /** Why a scan degraded to the empty list. */
  datatype Degradation =
    | NoManager
    | NoLocationPermission
    | WifiDisabled
    | StartRefused
    | Exception
    | Timeout

  /** How a scan attempt ends: degraded, or with the first non-empty
      result list it observed. */
  datatype ScanEnd = Degraded(reason: Degradation) | Found(results: seq<ScanResult>)

  /** Hard ceiling and default of the wait, in milliseconds. */
  const MaxWaitCeiling: int := 10000

  /** Either location permission suffices for the scan gate. */
  predicate HasLocationPermission(d: Device) {
    d.fineLocation || d.coarseLocation
  }

  /** From API 23 on, results are only readable with fine location. */
  predicate ResultsReadable(d: Device, fineLocation: bool) {
    !d.sdkAtLeastM || fineLocation
  }

  /** The result list a query sees: empty when it is not readable. */
  function VisibleResults(d: Device, raw: seq<ScanResult>): (rs: seq<ScanResult>)
    ensures rs == (if ResultsReadable(d, d.fineLocation) then raw else [])
  {
    if d.sdkAtLeastM then (if d.fineLocation then raw else []) else raw
  }

  /** The security rule: the capabilities string names WPA, WEP or EAP. */
  ghost predicate SecureCapabilities(capabilities: string) {
    HasSubstring(capabilities, "WPA") || HasSubstring(capabilities, "WEP") || HasSubstring(capabilities, "EAP")
  }

  /** A raw record as reported to callers, stamped with `now`. */
  function ConvertScanResult(r: ScanResult, now: int): (n: WifiNetwork)
    ensures n.ssid == r.ssid.GetOr("") && n.bssid == r.bssid.GetOr("")
    ensures n.rssi == Some(r.level) && n.capabilities == Some(r.capabilities)
    ensures n.frequency == Some(r.frequency)
    ensures n.channel.Some? && n.channel.value == FrequencyChannel(n.frequency.value)
    ensures n.isSecure == Some(SecureCapabilities(r.capabilities))
    ensures n.timestamp == Some(now)
  {
    var isSecure := Contains(r.capabilities, "WPA")
      || Contains(r.capabilities, "WEP")
      || Contains(r.capabilities, "EAP");
    WifiNetwork(
      ssid := r.ssid.GetOr(""),
      bssid := r.bssid.GetOr(""),
      rssi := Some(r.level),
      frequency := Some(r.frequency),
      channel := Some(FrequencyChannel(r.frequency)),
      capabilities := Some(r.capabilities),
      isSecure := Some(isSecure),
      timestamp := Some(now))
  }

  /** Every raw record converted, in order, without de-duplication. */
  function ConvertAll(rs: seq<ScanResult>, now: int): (ns: seq<WifiNetwork>)
    ensures |ns| == |rs|
    ensures forall i :: 0 <= i < |rs| ==> ns[i] == ConvertScanResult(rs[i], now)
  {
    seq(|rs|, i requires 0 <= i < |rs| => ConvertScanResult(rs[i], now))
  }

  // ---------------------------------------------------------------------
  // The result map of a scan

  /** The key a record is stored under: its SSID, or "" when it has none. */
  function SsidKey(r: ScanResult): string {
    r.ssid.GetOr("")
  }

  /** The distinct non-empty SSIDs among `rs`. */
  function NonEmptySsids(rs: seq<ScanResult>): set<string> {
    set i | 0 <= i < |rs| && SsidKey(rs[i]) != "" :: SsidKey(rs[i])
  }

  /** The map a scan builds from `rs`: records visited in order, those with
      an empty SSID skipped, each stored under its SSID so that a later
      record overwrites an earlier one with the same SSID. */
  function KeyedBySsid(rs: seq<ScanResult>): map<string, ScanResult> {
    if |rs| == 0 then map[]
    else
      var m := KeyedBySsid(rs[..|rs| - 1]);
      var r := rs[|rs| - 1];
      if SsidKey(r) != "" then m[SsidKey(r) := r] else m
  }

  /** The map's keys are exactly the distinct non-empty SSIDs. */
  lemma {:induction false} KeyedBySsidKeys(rs: seq<ScanResult>)
    ensures KeyedBySsid(rs).Keys == NonEmptySsids(rs)
    ensures |KeyedBySsid(rs)| == |NonEmptySsids(rs)|
  {
    if |rs| > 0 {
      var p := rs[..|rs| - 1];
      KeyedBySsidKeys(p);
      NonEmptySsidsSnoc(p, rs[|rs| - 1]);
      assert rs == p + [rs[|rs| - 1]];
    }
  }

  /** Appending a record adds its SSID, when it has a non-empty one. */
  lemma NonEmptySsidsSnoc(p: seq<ScanResult>, r: ScanResult)
    ensures NonEmptySsids(p + [r]) == NonEmptySsids(p) + (if SsidKey(r) != "" then {SsidKey(r)} else {})
  {
    var rs := p + [r];
    forall k | k in NonEmptySsids(rs)
      ensures k in NonEmptySsids(p) || (SsidKey(r) != "" && k == SsidKey(r))
    {
      var i :| 0 <= i < |rs| && SsidKey(rs[i]) != "" && SsidKey(rs[i]) == k;
      if i < |p| {
        assert rs[i] == p[i];
      }
    }
    forall k | k in NonEmptySsids(p) ensures k in NonEmptySsids(rs) {
      var i :| 0 <= i < |p| && SsidKey(p[i]) != "" && SsidKey(p[i]) == k;
      assert rs[i] == p[i];
    }
    if SsidKey(r) != "" {
      assert rs[|p|] == r;
    }
  }

  /** Each key maps to the LAST record carrying that SSID. */
  lemma {:induction false} KeyedBySsidLastWins(rs: seq<ScanResult>, k: string)
    requires k in KeyedBySsid(rs)
    ensures exists i :: (0 <= i < |rs| && rs[i] == KeyedBySsid(rs)[k] && SsidKey(rs[i]) == k
                         && forall j :: i < j < |rs| ==> SsidKey(rs[j]) != k)
  {
    assert |rs| > 0;
    KeyedBySsidKeys(rs);
    var p := rs[..|rs| - 1];
    var r := rs[|rs| - 1];
    assert KeyedBySsid(rs) == if SsidKey(r) != "" then KeyedBySsid(p)[SsidKey(r) := r] else KeyedBySsid(p);
    if SsidKey(r) == k {
      assert rs[|rs| - 1] == KeyedBySsid(rs)[k];
    } else {
      KeyedBySsidLastWins(p, k);
      var i :| 0 <= i < |p| && p[i] == KeyedBySsid(p)[k] && SsidKey(p[i]) == k
        && forall j :: i < j < |p| ==> SsidKey(p[j]) != k;
      assert rs[i] == p[i];
      assert forall j :: i < j < |rs| - 1 ==> rs[j] == p[j];
    }
  }

  /** Every stored record carries the SSID it is stored under. */
  lemma KeyedBySsidSelfKeyed(rs: seq<ScanResult>, k: string)
    requires k in KeyedBySsid(rs)
    ensures k != "" && KeyedBySsid(rs)[k].ssid == Some(k)
  {
    KeyedBySsidLastWins(rs, k);
    KeyedBySsidKeys(rs);
  }

  /** The number of entries `take(maxResults)` keeps out of `available`;
      a negative count makes `take` throw, and the exception is caught and
      turned into the empty list. */
  function TakeCount(maxResults: Option<int>, available: nat): (n: nat)
    ensures n <= available
    ensures maxResults.None? ==> n == available
    ensures maxResults.Some? && maxResults.value < 0 ==> n == 0
    ensures maxResults.Some? && 0 <= maxResults.value ==>
      n == if maxResults.value < available then maxResults.value else available
  {
    match maxResults
    case None => available
    case Some(max) => if max < 0 then 0 else if max < available then max else available
  }

  /** `networks` holds the converted values of `m`, in some order, with no
      SSID twice, and as many of them as `take(maxResults)` keeps. */
  ghost predicate TakenFrom(networks: seq<WifiNetwork>, m: map<string, ScanResult>,
                            maxResults: Option<int>, now: int) {
    && |networks| == TakeCount(maxResults, |m|)
    && (forall i :: 0 <= i < |networks| ==>
          networks[i].ssid in m && networks[i] == ConvertScanResult(m[networks[i].ssid], now))
    && (forall i, j :: 0 <= i < j < |networks| ==> networks[i].ssid != networks[j].ssid)
  }

  /** The state a scan leaves when a poll found `results`: the map holds
      exactly those records keyed by SSID (nothing from an earlier scan),
      and `networks` is `take(maxResults)` of its converted values: as many
      as there are distinct non-empty SSIDs, up to `maxResults`, each with a
      distinct non-empty SSID. */
  ghost predicate FoundPostState(results: seq<ScanResult>, networks: seq<WifiNetwork>,
                                 m: map<string, ScanResult>, maxResults: Option<int>, now: int) {
    && m == KeyedBySsid(results)
    && TakenFrom(networks, m, maxResults, now)
    && |networks| == TakeCount(maxResults, |NonEmptySsids(results)|)
    && forall i :: 0 <= i < |networks| ==> networks[i].ssid != ""
  }

  /** When nothing is cut off, every stored SSID is reported. */
  lemma TakenFromCoversAll(networks: seq<WifiNetwork>, m: map<string, ScanResult>,
                           maxResults: Option<int>, now: int)
    requires TakenFrom(networks, m, maxResults, now)
    requires maxResults.None? || maxResults.value >= |m|
    ensures forall k :: k in m ==> exists i :: 0 <= i < |networks| && networks[i].ssid == k
  {
    var ssids := seq(|networks|, i requires 0 <= i < |networks| => networks[i].ssid);
    assert Elements(ssids) <= m.Keys;
    DistinctCard(ssids);
    if Elements(ssids) != m.Keys {
      SubsetCard(Elements(ssids), m.Keys);
    }
    forall k | k in m ensures exists i :: 0 <= i < |networks| && networks[i].ssid == k {
      assert k in Elements(ssids);
      var i :| 0 <= i < |ssids| && ssids[i] == k;
      assert networks[i].ssid == k;
    }
  }

  /** A sequence without repetitions has as many elements as its set. */
  lemma {:induction false} DistinctCard(s: seq<string>)
    requires forall i, j :: 0 <= i < j < |s| ==> s[i] != s[j]
    ensures |Elements(s)| == |s|
  {
    if |s| > 0 {
      var p := s[1..];
      DistinctCard(p);
      assert Elements(s) == {s[0]} + Elements(p);
      assert s[0] !in Elements(p);
    }
  }

  /** A proper subset is strictly smaller. */
  lemma {:induction false} SubsetCard(a: set<string>, b: set<string>)
    requires a <= b && a != b
    ensures |a| < |b|
    decreases a
  {
    var x :| x in b && x !in a;
    if a == {} {
      assert x in b;
    } else {
      var y :| y in a;
      assert a - {y} <= b - {y} && a - {y} != b - {y} by { assert x in b - {y} && x !in a - {y}; }
      SubsetCard(a - {y}, b - {y});
    }
  }

  // ---------------------------------------------------------------------
  // The scan gate and the wait loop

  /** The wait bound: the caller's timeout capped at the ceiling, the
      ceiling itself when no timeout is given. */
  function MaxWait(timeout: Option<int>): (bound: int)
    ensures bound <= MaxWaitCeiling
    ensures timeout.None? ==> bound == MaxWaitCeiling
    ensures timeout.Some? && timeout.value <= MaxWaitCeiling ==> bound == timeout.value
    ensures timeout.Some? && timeout.value > MaxWaitCeiling ==> bound == MaxWaitCeiling
  {
    var t := timeout.GetOr(MaxWaitCeiling);
    if t < MaxWaitCeiling then t else MaxWaitCeiling
  }

  /** What one poll sees: the list (empty when not readable), or None when
      reading it threw. */
  function PollSees(d: Device, p: Poll): Option<seq<ScanResult>> {
    if !ResultsReadable(d, p.fineLocation) then Some([])
    else match p.fetch
      case Fetched(rs) => Some(rs)
      case Threw => None
  }

  /** How the wait loop ends on the poll readings `polls`. */
  function Settle(d: Device, polls: seq<Poll>, bound: int): (e: ScanEnd)
    ensures e.Found? ==> |e.results| > 0
    ensures e.Degraded? ==> e.reason == Timeout || e.reason == Exception
    ensures e == Degraded(Exception) ==>
      exists k :: 0 <= k < |polls| && polls[k].elapsed < bound && PollSees(d, polls[k]).None?
    decreases |polls|
  {
    if |polls| == 0 || polls[0].elapsed >= bound then Degraded(Timeout)
    else match PollSees(d, polls[0])
      case None => Degraded(Exception)
      case Some(rs) =>
        if |rs| > 0 then Found(rs)
        else
          var e := Settle(d, polls[1..], bound);
          assert e == Degraded(Exception) ==> polls[1..][0] == polls[1] && (exists k :: 1 <= k < |polls| && polls[k].elapsed < bound && PollSees(d, polls[k]).None?) by {
            if e == Degraded(Exception) {
              var k :| 0 <= k < |polls[1..]| && polls[1..][k].elapsed < bound && PollSees(d, polls[1..][k]).None?;
              assert polls[k + 1] == polls[1..][k];
            }
          }
          e
  }

  /** How a whole scan attempt ends: the gate's checks in source order, the
      scan trigger, then the wait loop. */
  function ScanOutcome(d: Device, started: StartOutcome, polls: seq<Poll>, timeout: Option<int>): (e: ScanEnd)
    ensures e.Found? ==> |e.results| > 0
    ensures e == Degraded(Timeout) ==>
      d.hasManager && HasLocationPermission(d) && d.wifiEnabled && started.Started?
  {
    if !d.hasManager then Degraded(NoManager)
    else if !HasLocationPermission(d) then Degraded(NoLocationPermission)
    else if !d.wifiEnabled then Degraded(WifiDisabled)
    else if started == StartThrew then Degraded(Exception)
    else if started == Refused then Degraded(StartRefused)
    else Settle(d, polls, MaxWait(timeout))
  }

  /** A scan finds results only when every gate passes and the trigger
      succeeded; the first failing check names the degradation. */
  lemma ScanGate(d: Device, started: StartOutcome, polls: seq<Poll>, timeout: Option<int>)
    ensures ScanOutcome(d, started, polls, timeout).Found? ==>
      d.hasManager && HasLocationPermission(d) && d.wifiEnabled && started == Started
    ensures !d.hasManager ==> ScanOutcome(d, started, polls, timeout) == Degraded(NoManager)
    ensures d.hasManager && !HasLocationPermission(d) ==>
      ScanOutcome(d, started, polls, timeout) == Degraded(NoLocationPermission)
    ensures d.hasManager && HasLocationPermission(d) && !d.wifiEnabled ==>
      ScanOutcome(d, started, polls, timeout) == Degraded(WifiDisabled)
    ensures d.hasManager && HasLocationPermission(d) && d.wifiEnabled && started == StartThrew ==>
      ScanOutcome(d, started, polls, timeout) == Degraded(Exception)
    ensures d.hasManager && HasLocationPermission(d) && d.wifiEnabled && started == Refused ==>
      ScanOutcome(d, started, polls, timeout) == Degraded(StartRefused)
  {
  }

  /** Found results are the first non-empty readable list seen before the
      deadline; every earlier poll was before the deadline and saw an empty
      list without throwing. */
  lemma {:induction false} SettleFoundIsFirstNonEmpty(d: Device, polls: seq<Poll>, bound: int)
    requires Settle(d, polls, bound).Found?
    ensures exists k :: (0 <= k < |polls|
                         && polls[k].elapsed < bound
                         && PollSees(d, polls[k]) == Some(Settle(d, polls, bound).results)
                         && |Settle(d, polls, bound).results| > 0
                         && forall j :: 0 <= j < k ==> polls[j].elapsed < bound && PollSees(d, polls[j]) == Some([]))
  {
    assert |polls| > 0 && polls[0].elapsed < bound;
    var seen := PollSees(d, polls[0]).value;
    if |seen| > 0 {
      assert Settle(d, polls, bound).results == seen;
    } else {
      assert Settle(d, polls, bound) == Settle(d, polls[1..], bound);
      SettleFoundIsFirstNonEmpty(d, polls[1..], bound);
      var k :| 0 <= k < |polls[1..]|
        && polls[1..][k].elapsed < bound
        && PollSees(d, polls[1..][k]) == Some(Settle(d, polls[1..], bound).results)
        && |Settle(d, polls[1..], bound).results| > 0
        && forall j :: 0 <= j < k ==> polls[1..][j].elapsed < bound && PollSees(d, polls[1..][j]) == Some([]);
      assert forall j :: 1 <= j < k + 1 ==> polls[j] == polls[1..][j - 1];
      assert polls[k + 1] == polls[1..][k];
    }
  }

  /** The converse: when poll `k` is the first to see a non-empty readable
      list before the deadline, and every earlier poll saw an empty one, the
      loop returns exactly that list. */
  lemma {:induction false} SettleFindsFirstNonEmpty(d: Device, polls: seq<Poll>, bound: int, k: nat, rs: seq<ScanResult>)
    requires k < |polls| && polls[k].elapsed < bound
    requires PollSees(d, polls[k]) == Some(rs) && |rs| > 0
    requires forall j :: 0 <= j < k ==> polls[j].elapsed < bound && PollSees(d, polls[j]) == Some([])
    ensures Settle(d, polls, bound) == Found(rs)
    decreases k
  {
    if k > 0 {
      assert polls[1..][k - 1] == polls[k];
      assert forall j :: 0 <= j < k - 1 ==> polls[1..][j] == polls[j + 1];
      SettleFindsFirstNonEmpty(d, polls[1..], bound, k - 1, rs);
    }
  }

  /** A readable poll that throws before the deadline, after only empty
      polls, ends the loop with the exception degradation. */
  lemma {:induction false} SettleThrowDegrades(d: Device, polls: seq<Poll>, bound: int, k: nat)
    requires k < |polls| && polls[k].elapsed < bound
    requires PollSees(d, polls[k]).None?
    requires forall j :: 0 <= j < k ==> polls[j].elapsed < bound && PollSees(d, polls[j]) == Some([])
    ensures Settle(d, polls, bound) == Degraded(Exception)
    decreases k
  {
    if k > 0 {
      assert polls[1..][k - 1] == polls[k];
      assert forall j :: 0 <= j < k - 1 ==> polls[1..][j] == polls[j + 1];
      SettleThrowDegrades(d, polls[1..], bound, k - 1);
    }
  }

  /** With a non-positive bound the loop body never runs: the scan times out. */
  lemma NonPositiveBoundTimesOut(d: Device, polls: seq<Poll>, bound: int)
    requires bound <= 0
    ensures Settle(d, polls, bound) == Degraded(Timeout)
  {
  }

  /** On API 23 and later, without fine location at any poll, nothing is
      ever found: coarse location passes the gate but every poll is empty. */
  lemma {:induction false} CoarseOnlyFindsNothing(d: Device, polls: seq<Poll>, bound: int)
    requires d.sdkAtLeastM
    requires forall k :: 0 <= k < |polls| ==> !polls[k].fineLocation
    ensures Settle(d, polls, bound) == Degraded(Timeout)
  {
    if |polls| > 0 && polls[0].elapsed < bound {
      CoarseOnlyFindsNothing(d, polls[1..], bound);
    }
  }

  // ---------------------------------------------------------------------
  // The backend object

  class HybridMunimWifi {
    /** The last scan's records keyed by SSID. */
    var scanResults: map<string, ScanResult>
    var isScanning: bool

    constructor ()
      ensures scanResults == map[] && !isScanning
    {
      scanResults := map[];
      isScanning := false;
    }

    /** Scans and returns up to `maxResults` networks; never throws: every
        gate failure, exception and timeout yields the empty list. On the
        first non-empty poll the map is cleared and refilled from it. */
    method ScanNetworks(d: Device, started: StartOutcome, polls: seq<Poll>,
                        options: ScanOptions, now: int)
      returns (networks: seq<WifiNetwork>)
      modifies this`scanResults
      ensures ScanOutcome(d, started, polls, options.timeout).Found? ==>
        FoundPostState(ScanOutcome(d, started, polls, options.timeout).results, networks, scanResults, options.maxResults, now)
      ensures ScanOutcome(d, started, polls, options.timeout).Degraded? ==>
        (networks == [] && scanResults == old(scanResults))
    {
      networks := [];
      if !d.hasManager { return; }
      if !HasLocationPermission(d) { return; }
      if !d.wifiEnabled { return; }
      if started != Started { return; }

      var maxWait := MaxWait(options.timeout);
      var i := 0;
      while i < |polls| && polls[i].elapsed < maxWait
        invariant 0 <= i <= |polls|
        invariant Settle(d, polls[i..], maxWait) == Settle(d, polls, maxWait)
        invariant scanResults == old(scanResults)
        decreases |polls| - i
      {
        var results: seq<ScanResult>;
        if d.sdkAtLeastM && !polls[i].fineLocation {
          results := [];
        } else if polls[i].fetch.Threw? {
          return;
        } else {
          results := polls[i].fetch.results;
        }

        if |results| > 0 {
          networks := RefillAndTake(results, options.maxResults, now);
          return;
        }
        assert polls[i..][1..] == polls[i + 1..];
        i := i + 1;
      }
    }

    /** The non-empty poll's handling: clear and refill the map, convert
        its values, and keep `take(maxResults)` of them (none when the
        count is negative, as the exception `take` throws is caught). */
    method RefillAndTake(results: seq<ScanResult>, maxResults: Option<int>, now: int)
      returns (networks: seq<WifiNetwork>)
      modifies this`scanResults
      ensures FoundPostState(results, networks, scanResults, maxResults, now)
    {
      Refill(results);
      forall k | k in scanResults ensures scanResults[k].ssid == Some(k) {
        KeyedBySsidSelfKeyed(results, k);
      }
      KeyedBySsidKeys(results);
      var all := ConvertedValues(now);
      if maxResults.Some? && maxResults.value < 0 {
        return [];
      }
      var max := if maxResults.Some? then maxResults.value else |all|;
      networks := if max < |all| then all[..max] else all;
    }

    /** Clears the map and stores each record with a non-empty SSID under
        that SSID, in order, so a later duplicate replaces an earlier one. */
    method Refill(results: seq<ScanResult>)
      modifies this`scanResults
      ensures scanResults == KeyedBySsid(results)
    {
      scanResults := map[];
      for j := 0 to |results|
        invariant scanResults == KeyedBySsid(results[..j])
      {
        assert results[..j + 1][..j] == results[..j];
        var ssid := results[j].ssid.GetOr("");
        if ssid != "" {
          scanResults := scanResults[ssid := results[j]];
        }
      }
      assert results[..|results|] == results;
    }

    /** Every stored record converted, in the map's (unspecified) order. */
    method ConvertedValues(now: int) returns (all: seq<WifiNetwork>)
      requires forall k :: k in scanResults ==> scanResults[k].ssid == Some(k)
      ensures TakenFrom(all, scanResults, None, now)
    {
      var keys := scanResults.Keys;
      all := [];
      while keys != {}
        invariant keys <= scanResults.Keys
        invariant |all| + |keys| == |scanResults|
        invariant forall i :: 0 <= i < |all| ==>
          all[i].ssid in scanResults.Keys - keys && all[i] == ConvertScanResult(scanResults[all[i].ssid], now)
        invariant forall i, j :: 0 <= i < j < |all| ==> all[i].ssid != all[j].ssid
        decreases keys
      {
        var k :| k in keys;
        all := all + [ConvertScanResult(scanResults[k], now)];
        keys := keys - {k};
      }
    }

    /** Marks a scan as running, then clears the mark again when the
        permission or radio check fails or triggering the scan throws. With
        no manager the mark stays set. */
    method StartScan(d: Device, started: StartOutcome)
      modifies this`isScanning
      ensures isScanning ==
        (!d.hasManager || (HasLocationPermission(d) && d.wifiEnabled && started != StartThrew))
    {
      isScanning := true;
      if !d.hasManager { return; }
      if !HasLocationPermission(d) {
        isScanning := false;
        return;
      }
      if !d.wifiEnabled {
        isScanning := false;
        return;
      }
      if started == StartThrew {
        isScanning := false;
      }
    }

    method StopScan()
      modifies this`isScanning
      ensures !isScanning
    {
      isScanning := false;
    }
  }

  // ---------------------------------------------------------------------
  // Queries: they read the platform's current result list, not the map

  /** Whether Wi-Fi is on; false without a manager. */
  function IsWifiEnabled(d: Device): (on: bool)
    ensures on ==> d.hasManager
    ensures d.hasManager ==> (on <==> d.wifiEnabled)
  {
    d.hasManager && d.wifiEnabled
  }

  /** Reports whether either location permission is granted. */
  function RequestWifiPermission(d: Device): (granted: bool)
    ensures granted <==> d.fineLocation || d.coarseLocation
  {
    HasLocationPermission(d)
  }

  /** The SSID field of a record, as a value to search or project on. */
  function SsidOf(r: ScanResult): Option<string> {
    r.ssid
  }

  /** The SSID field of each record. */
  function SsidsOf(rs: seq<ScanResult>): seq<Option<string>> {
    seq(|rs|, i requires 0 <= i < |rs| => rs[i].ssid)
  }

  /** The first record whose SSID equals `ssid`. */
  function Find(rs: seq<ScanResult>, ssid: string): Option<ScanResult> {
    FindFirst(rs, SsidOf, Some(ssid))
  }

  /** The SSIDs of the visible records, absent ones dropped, repeats
      removed keeping first occurrences. */
  function GetSsids(d: Device, raw: seq<ScanResult>): (ssids: seq<string>)
    ensures !d.hasManager ==> ssids == []
    ensures NoDuplicates(ssids)
    ensures d.hasManager ==> Elements(ssids) == Elements(Somes(SsidsOf(VisibleResults(d, raw))))
    ensures d.hasManager ==> ssids == Dedup(Somes(SsidsOf(VisibleResults(d, raw))))
  {
    if !d.hasManager then [] else Dedup(Somes(SsidsOf(VisibleResults(d, raw))))
  }

  /** Every visible record converted, duplicates kept, stamped `now`. */
  function GetWifiFingerprint(d: Device, raw: seq<ScanResult>, now: int): (fp: WifiFingerprint)
    ensures fp.timestamp == now && fp.location.None?
    ensures !d.hasManager ==> fp.networks == []
    ensures d.hasManager ==> |fp.networks| == |VisibleResults(d, raw)|
    ensures d.hasManager ==> forall i :: 0 <= i < |fp.networks| ==>
      fp.networks[i] == ConvertScanResult(VisibleResults(d, raw)[i], now)
  {
    if !d.hasManager then WifiFingerprint([], now, None)
    else WifiFingerprint(ConvertAll(VisibleResults(d, raw), now), now, None)
  }

  /** Signal level of the first visible record named `ssid`. */
  function GetRssi(d: Device, raw: seq<ScanResult>, ssid: string): (rssi: Option<int>)
    ensures rssi.Some? <==> d.hasManager && Find(VisibleResults(d, raw), ssid).Some?
    ensures rssi.Some? ==> rssi.value == Find(VisibleResults(d, raw), ssid).value.level
  {
    if !d.hasManager then None
    else match Find(VisibleResults(d, raw), ssid)
      case None => None
      case Some(r) => Some(r.level)
  }

  /** Hardware address of the first visible record named `ssid`. */
  function GetBssid(d: Device, raw: seq<ScanResult>, ssid: string): (bssid: Option<string>)
    ensures !d.hasManager || Find(VisibleResults(d, raw), ssid).None? ==> bssid.None?
    ensures d.hasManager && Find(VisibleResults(d, raw), ssid).Some? ==>
      bssid == Find(VisibleResults(d, raw), ssid).value.bssid
  {
    if !d.hasManager then None
    else match Find(VisibleResults(d, raw), ssid)
      case None => None
      case Some(r) => r.bssid
  }

  /** Channel and frequency of the first visible record named `ssid`; the
      channel is derived from the frequency. */
  function GetChannelInfo(d: Device, raw: seq<ScanResult>, ssid: string): (info: Option<ChannelInfo>)
    ensures info.Some? <==> d.hasManager && Find(VisibleResults(d, raw), ssid).Some?
    ensures info.Some? ==> info.value.frequency == Find(VisibleResults(d, raw), ssid).value.frequency
    ensures info.Some? ==> info.value.channel == FrequencyChannel(info.value.frequency)
  {
    if !d.hasManager then None
    else match Find(VisibleResults(d, raw), ssid)
      case None => None
      case Some(r) => Some(ChannelInfo(FrequencyChannel(r.frequency), r.frequency))
  }

  /** The first visible record named `ssid`, converted. */
  function GetNetworkInfo(d: Device, raw: seq<ScanResult>, ssid: string, now: int): (n: Option<WifiNetwork>)
    ensures n.Some? <==> d.hasManager && Find(VisibleResults(d, raw), ssid).Some?
    ensures n.Some? ==> n.value.ssid == ssid
    ensures n.Some? ==> n.value == ConvertScanResult(Find(VisibleResults(d, raw), ssid).value, now)
  {
    if !d.hasManager then None
    else match Find(VisibleResults(d, raw), ssid)
      case None => None
      case Some(r) => Some(ConvertScanResult(r, now))
  }

  /** Two access points sharing one SSID: the scan's map keeps only the
      later record. */
  lemma SharedSsidExample()
    ensures var a := ScanResult(Some("Cafe"), Some("AA:BB"), -40, 2437, "[WPA2-PSK-CCMP]");
            var b := ScanResult(Some("Cafe"), Some("CC:DD"), -70, 5180, "[ESS]");
            && KeyedBySsid([a, b]) == map["Cafe" := b]
            && ConvertScanResult(a, 0).channel == Some(6)
            && ConvertScanResult(b, 0).channel == Some(38)
  {
    var a := ScanResult(Some("Cafe"), Some("AA:BB"), -40, 2437, "[WPA2-PSK-CCMP]");
    var b := ScanResult(Some("Cafe"), Some("CC:DD"), -70, 5180, "[ESS]");
    assert SsidKey(a) == "Cafe" && SsidKey(b) == "Cafe";
    assert [a, b][..1] == [a];
    assert [a][..0] == [];
    assert KeyedBySsid([a]) == map["Cafe" := a];
    assert KeyedBySsid([a, b]) == KeyedBySsid([a])["Cafe" := b];
  }

  /** An SSID seen twice is listed once. */
  lemma RepeatedSsidListedOnce(d: Device, a: ScanResult, b: ScanResult, cafe: string)
    requires d.hasManager && (d.fineLocation || !d.sdkAtLeastM)
    requires a.ssid == Some(cafe) && b.ssid == Some(cafe)
    ensures GetSsids(d, [a, b]) == [cafe]
  {
    var ssids := SsidsOf([a, b]);
    assert ssids == [Some(cafe), Some(cafe)];
    var present := Somes(ssids);
    assert present == [cafe, cafe] by {
      assert ssids[1..] == [Some(cafe)];
      assert ssids[1..][1..] == [];
    }
    var once := Dedup(present);
    assert once == [cafe] by {
      DedupSnoc([], cafe);
      DedupSnoc([cafe], cafe);
      assert [] + [cafe] == [cafe] && [cafe] + [cafe] == present;
    }
    assert GetSsids(d, [a, b]) == once;
  }
}
