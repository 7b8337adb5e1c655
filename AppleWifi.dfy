/** The Apple backend (HybridMunimWifi.swift). Platform services are inputs:
    a `Device` snapshot of the interface, radio and location authorisation,
    and the outcome of each call to the platform's network scan. */
module AppleWifi {
  import opened Wrappers
  import opened WifiTypes
  import opened ChannelCodec
  import opened Sequences

  /** The channel a platform network record reports. */
  datatype WlanChannel = WlanChannel(channelNumber: int, channelBand: Band)

  /** Security kinds a network may support. */
  datatype Security =
    | SecurityNone | WEP | DynamicWEP
    | WPAPersonal | WPA2Personal | WPA3Personal | WPA3Transition
    | WPAEnterprise | WPA2Enterprise | WPA3Enterprise
    | OWE | SecurityUnknown

  /** A raw platform network record: the fields the backend reads.
      `supported` is the set of kinds for which the record answers yes to
      "supports security". */
  datatype CWNetwork = CWNetwork(
    ssid: Option<string>,
    bssid: Option<string>,
    rssiValue: int,
    wlanChannel: Option<WlanChannel>,
    iesDescription: Option<string>,
    supported: set<Security>)

  /** Location authorisation states. */
  datatype Authorization = NotDetermined | Restricted | Denied | AuthorizedAlways | AuthorizedWhenInUse

  /** What the backend can observe of the platform on one call. */
  datatype Device = Device(hasInterface: bool, powerOn: bool, authorization: Authorization)

  /** The errors a scan throws: the backend's own numbered errors, or the
      platform scan's error, rethrown. */
  datatype ScanError = MunimWifiError(code: int, description: string) | ScanFailure(reason: string)

  const InterfaceUnavailable := MunimWifiError(1, "Wi-Fi interface not available")
  const WifiNotEnabled := MunimWifiError(2, "Wi-Fi is not enabled")
  const PermissionNotGranted := MunimWifiError(3, "Location permission not granted")

  /** The kinds that make a network count as secure. WEP, WPA (first
      generation) personal, WPA2 enterprise and the rest do not. */
  const SecureKinds: set<Security> := {WPA2Personal, WPA3Personal, WPAEnterprise, WPA3Enterprise}

  predicate Authorized(a: Authorization) {
    a == AuthorizedWhenInUse || a == AuthorizedAlways
  }

  /** The first failing scan precondition, checked in order: interface,
      power, authorisation. */
  function GateError(d: Device): (e: Option<ScanError>)
    ensures e.None? <==> d.hasInterface && d.powerOn && Authorized(d.authorization)
    ensures e == Some(InterfaceUnavailable) <==> !d.hasInterface
    ensures e == Some(WifiNotEnabled) <==> d.hasInterface && !d.powerOn
    ensures e == Some(PermissionNotGranted) <==> d.hasInterface && d.powerOn && !Authorized(d.authorization)
  {
    if !d.hasInterface then Some(InterfaceUnavailable)
    else if !d.powerOn then Some(WifiNotEnabled)
    else if !Authorized(d.authorization) then Some(PermissionNotGranted)
    else None
  }

  /** A raw record as reported to callers, stamped with `now`. Without a
      channel, frequency and channel are 0 and the network is not secure;
      with one, the frequency is derived from channel and band. */
  function ConvertNetwork(n: CWNetwork, now: int): (w: WifiNetwork)
    ensures w.ssid == n.ssid.GetOr("") && w.bssid == n.bssid.GetOr("")
    ensures w.rssi == Some(n.rssiValue) && w.capabilities == Some(n.iesDescription.GetOr(""))
    ensures w.timestamp == Some(now)
    ensures w.frequency.Some? && w.channel.Some? && w.isSecure.Some?
    ensures n.wlanChannel.None? ==>
      w.frequency == Some(0) && w.channel == Some(0) && w.isSecure == Some(false)
    ensures n.wlanChannel.Some? ==>
      w.frequency == Some(ChannelFrequency(n.wlanChannel.value.channelNumber, n.wlanChannel.value.channelBand))
    ensures n.wlanChannel.Some? ==>
      w.channel == Some(n.wlanChannel.value.channelNumber)
      && (w.isSecure == Some(true) <==> exists k :: k in n.supported && k in SecureKinds)
    ensures n.wlanChannel.Some? && ValidChannel(n.wlanChannel.value.channelNumber, n.wlanChannel.value.channelBand) ==>
      FrequencyChannel(w.frequency.value) == w.channel.value
  {
    match n.wlanChannel
    case None =>
      WifiNetwork(n.ssid.GetOr(""), n.bssid.GetOr(""), Some(n.rssiValue), Some(0), Some(0),
                  Some(n.iesDescription.GetOr("")), Some(false), Some(now))
    case Some(channel) =>
      var frequency := ChannelFrequency(channel.channelNumber, channel.channelBand);
      var isSecure := WPA2Personal in n.supported || WPA3Personal in n.supported
        || WPAEnterprise in n.supported || WPA3Enterprise in n.supported;
      ChannelRoundTripIfValid(channel);
      WifiNetwork(n.ssid.GetOr(""), n.bssid.GetOr(""), Some(n.rssiValue), Some(frequency),
                    Some(channel.channelNumber), Some(n.iesDescription.GetOr("")), Some(isSecure), Some(now))
  }

  /** A channel record whose number is valid for its band gets back its
      number through the frequency it is converted to. */
  lemma ChannelRoundTripIfValid(channel: WlanChannel)
    ensures ValidChannel(channel.channelNumber, channel.channelBand) ==>
      FrequencyChannel(ChannelFrequency(channel.channelNumber, channel.channelBand)) == channel.channelNumber
  {
    if ValidChannel(channel.channelNumber, channel.channelBand) {
      ChannelRoundTrip(channel.channelNumber, channel.channelBand);
    }
  }

  /** Every raw record converted, in order. */
  function ConvertAll(ns: seq<CWNetwork>, now: int): (ws: seq<WifiNetwork>)
    ensures |ws| == |ns|
    ensures forall i :: 0 <= i < |ns| ==> ws[i] == ConvertNetwork(ns[i], now)
  {
    seq(|ns|, i requires 0 <= i < |ns| => ConvertNetwork(ns[i], now))
  }

  /** The number of converted networks a scan returns: all of them, or the
      first `maxResults`. */
  function PrefixCount(maxResults: Option<int>, available: nat): (n: nat)
    requires maxResults.Some? ==> maxResults.value >= 0
    ensures n <= available
    ensures maxResults.None? ==> n == available
    ensures maxResults.Some? ==> n == if maxResults.value < available then maxResults.value else available
  {
    match maxResults
    case None => available
    case Some(max) => if max < available then max else available
  }

  /** The SSID field of a record, as a value to search or project on. */
  function SsidOf(r: CWNetwork): Option<string> {
    r.ssid
  }

  /** The SSID field of each record. */
  function SsidsOf(ns: seq<CWNetwork>): seq<Option<string>> {
    seq(|ns|, i requires 0 <= i < |ns| => ns[i].ssid)
  }

  /** The first record whose SSID equals `ssid`. */
  function Find(ns: seq<CWNetwork>, ssid: string): Option<CWNetwork> {
    FindFirst(ns, SsidOf, Some(ssid))
  }

  /** The elements of `s` with repeats removed, first occurrences kept in
      order: a filter that inserts each element into a `seen` set and keeps
      it when the insertion was new. */
  method Unique<T(==)>(s: seq<T>) returns (r: seq<T>)
    ensures r == Dedup(s)
  {
    var seen: set<T> := {};
    r := [];
    for i := 0 to |s|
      invariant r == Dedup(s[..i])
      invariant seen == Elements(r)
    {
      var inserted := s[i] !in seen;
      seen := seen + {s[i]};
      DedupSnoc(s[..i], s[i]);
      assert s[..i + 1] == s[..i] + [s[i]];
      assert Elements(r) == Elements(s[..i]);
      if inserted {
        r := r + [s[i]];
      }
    }
    assert s[..|s|] == s;
  }

  class HybridMunimWifi {
    /** The last successful scan's records, in scan order. */
    var scanResults: seq<CWNetwork>
    var isScanning: bool

    constructor ()
      ensures scanResults == [] && !isScanning
    {
      scanResults := [];
      isScanning := false;
    }

    /** Scans: throws the first failing precondition's error, rethrows the
        platform scan's error; on success replaces the cache with the full
        scan and returns the first `maxResults` converted networks in scan
        order. The timeout is not used. */
    method ScanNetworks(d: Device, scan: Result<seq<CWNetwork>, string>,
                        options: ScanOptions, now: int)
      returns (r: Result<seq<WifiNetwork>, ScanError>)
      requires GateError(d).None? && scan.Success? && options.maxResults.Some? ==> options.maxResults.value >= 0
      modifies this`scanResults
      ensures GateError(d).Some? ==> r == Failure(GateError(d).value) && scanResults == old(scanResults)
      ensures GateError(d).None? && scan.Failure? ==>
        r == Failure(ScanFailure(scan.error)) && scanResults == old(scanResults)
      ensures GateError(d).None? && scan.Success? ==>
        scanResults == scan.value && r.Success?
        && |r.value| == PrefixCount(options.maxResults, |scan.value|)
        && forall i :: 0 <= i < |r.value| ==> r.value[i] == ConvertNetwork(scan.value[i], now)
    {
      if !d.hasInterface { return Failure(InterfaceUnavailable); }
      if !d.powerOn { return Failure(WifiNotEnabled); }
      if !Authorized(d.authorization) { return Failure(PermissionNotGranted); }
      match scan
      case Failure(e) =>
        return Failure(ScanFailure(e));
      case Success(networks) =>
        scanResults := networks;
        var wifiNetworks := ConvertAll(networks, now);
        var max := if options.maxResults.Some? then options.maxResults.value else |wifiNetworks|;
        return Success(if max < |wifiNetworks| then wifiNetworks[..max] else wifiNetworks);
    }

    /** Marks a scan as running, then clears the mark again when a
        precondition fails; the scan itself runs in the background. */
    method StartScan(d: Device)
      modifies this`isScanning
      ensures isScanning <==> GateError(d).None?
    {
      isScanning := true;
      if !d.hasInterface {
        isScanning := false;
        return;
      }
      if !d.powerOn {
        isScanning := false;
        return;
      }
      if !Authorized(d.authorization) {
        isScanning := false;
        return;
      }
    }

    /** The background scan's completion: a successful scan replaces the
        cache; either way the mark is cleared. */
    method FinishBackgroundScan(scan: Result<seq<CWNetwork>, string>)
      modifies this`scanResults, this`isScanning
      ensures !isScanning
      ensures scanResults == if scan.Success? then scan.value else old(scanResults)
    {
      match scan
      case Success(networks) =>
        scanResults := networks;
        isScanning := false;
      case Failure(_) =>
        isScanning := false;
    }

    method StopScan()
      modifies this`isScanning
      ensures !isScanning
    {
      isScanning := false;
    }

    /** The records a query works on: the cache when it is non-empty,
        otherwise a fresh scan (`rescan`; None when there is no interface or
        the scan throws), which is not stored. */
    function Networks(rescan: Option<seq<CWNetwork>>): (ns: seq<CWNetwork>)
      reads this
      ensures scanResults != [] ==> ns == scanResults
      ensures scanResults == [] && rescan.Some? ==> ns == rescan.value
      ensures scanResults == [] && rescan.None? ==> ns == []
    {
      if scanResults != [] then scanResults else rescan.GetOr([])
    }

    /** The SSIDs of the records, absent ones dropped, repeats removed
        keeping first occurrences in order. */
    method GetSsids(rescan: Option<seq<CWNetwork>>) returns (ssids: seq<string>)
      ensures ssids == Dedup(Somes(SsidsOf(Networks(rescan))))
    {
      var networks := Networks(rescan);
      ssids := Unique(Somes(SsidsOf(networks)));
    }

    /** Every record converted, stamped `now`. */
    function GetWifiFingerprint(rescan: Option<seq<CWNetwork>>, now: int): (fp: WifiFingerprint)
      reads this
      ensures fp.timestamp == now && fp.location.None?
      ensures |fp.networks| == |Networks(rescan)|
      ensures forall i :: 0 <= i < |fp.networks| ==> fp.networks[i] == ConvertNetwork(Networks(rescan)[i], now)
    {
      WifiFingerprint(ConvertAll(Networks(rescan), now), now, None)
    }

    /** Signal level of the first record named `ssid`. */
    function GetRssi(rescan: Option<seq<CWNetwork>>, ssid: string): (rssi: Option<int>)
      reads this
      ensures rssi.Some? <==> Find(Networks(rescan), ssid).Some?
      ensures rssi.Some? ==> rssi.value == Find(Networks(rescan), ssid).value.rssiValue
    {
      match Find(Networks(rescan), ssid)
      case None => None
      case Some(n) => Some(n.rssiValue)
    }

    /** Hardware address of the first record named `ssid`. */
    function GetBssid(rescan: Option<seq<CWNetwork>>, ssid: string): (bssid: Option<string>)
      reads this
      ensures Find(Networks(rescan), ssid).None? ==> bssid.None?
      ensures Find(Networks(rescan), ssid).Some? ==> bssid == Find(Networks(rescan), ssid).value.bssid
    {
      match Find(Networks(rescan), ssid)
      case None => None
      case Some(n) => n.bssid
    }

    /** Channel and frequency of the first record named `ssid`; absent when
        that record has no channel. */
    function GetChannelInfo(rescan: Option<seq<CWNetwork>>, ssid: string): (info: Option<ChannelInfo>)
      reads this
      ensures info.Some? <==> Find(Networks(rescan), ssid).Some? && Find(Networks(rescan), ssid).value.wlanChannel.Some?
      ensures info.Some? ==> info.value.channel == Find(Networks(rescan), ssid).value.wlanChannel.value.channelNumber
      ensures info.Some? ==> info.value.frequency == ChannelFrequency(
        info.value.channel, Find(Networks(rescan), ssid).value.wlanChannel.value.channelBand)
      ensures info.Some? && ValidChannel(info.value.channel, Find(Networks(rescan), ssid).value.wlanChannel.value.channelBand) ==>
        FrequencyChannel(info.value.frequency) == info.value.channel
    {
      match Find(Networks(rescan), ssid)
      case None => None
      case Some(n) =>
        match n.wlanChannel
        case None => None
        case Some(channel) =>
          ChannelRoundTripIfValid(channel);
          Some(ChannelInfo(channel.channelNumber, ChannelFrequency(channel.channelNumber, channel.channelBand)))
    }

    /** The first record named `ssid`, converted. */
    function GetNetworkInfo(rescan: Option<seq<CWNetwork>>, ssid: string, now: int): (w: Option<WifiNetwork>)
      reads this
      ensures w.Some? <==> Find(Networks(rescan), ssid).Some?
      ensures w.Some? ==> w.value.ssid == ssid
      ensures w.Some? ==> w.value == ConvertNetwork(Find(Networks(rescan), ssid).value, now)
    {
      match Find(Networks(rescan), ssid)
      case None => None
      case Some(n) => Some(ConvertNetwork(n, now))
    }
  }

  /** Whether Wi-Fi is on; false without an interface. */
  function IsWifiEnabled(d: Device): (on: bool)
    ensures on ==> d.hasInterface
    ensures d.hasInterface ==> (on <==> d.powerOn)
  {
    d.hasInterface && d.powerOn
  }

  /** Whether location use is authorised. */
  function RequestWifiPermission(d: Device): (granted: bool)
    ensures granted <==> d.authorization in {AuthorizedWhenInUse, AuthorizedAlways}
  {
    Authorized(d.authorization)
  }
}
