/** The record shapes the library hands to its callers, one datatype per
    interface of src/specs/munim-wifi.nitro.ts. Optional members are
    `Option`s; numbers are integers (the host's doubles are not modelled). */
module WifiTypes {
  import opened Wrappers

  /** Channel number and centre frequency (MHz) of one network. */
  datatype ChannelInfo = ChannelInfo(channel: int, frequency: int)

  /** An optional location hint attached to a fingerprint. */
  datatype Location = Location(latitude: Option<real>, longitude: Option<real>)

  /** One network as reported to callers. */
  datatype WifiNetwork = WifiNetwork(
    ssid: string,
    bssid: string,
    rssi: Option<int>,
    frequency: Option<int>,
    channel: Option<int>,
    capabilities: Option<string>,
    isSecure: Option<bool>,
    timestamp: Option<int>)

  /** A snapshot of the visible networks and the time it was taken. */
  datatype WifiFingerprint = WifiFingerprint(
    networks: seq<WifiNetwork>,
    timestamp: int,
    location: Option<Location>)

  /** Caller-supplied limits of a scan. */
  datatype ScanOptions = ScanOptions(maxResults: Option<int>, timeout: Option<int>)
}
