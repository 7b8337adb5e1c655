# munim-wifi scan normalisation, modelled in Dafny

This project models the Wi-Fi scan-normalisation logic of the munim-wifi
library's two native backends. It covers the Android backend
(`HybridMunimWifi.kt`) and the Apple backend (`HybridMunimWifi.swift`). Both
backends turn raw platform scan records into the library's `WifiNetwork`,
`ChannelInfo` and `WifiFingerprint` records. Both gate scans behind location
permission and radio state. Both keep the last scan's records, and both
answer lookups by SSID. The Apple lookups read the kept records, falling
back to a fresh scan when none are kept. The Android lookups read the
platform's current result list instead, not the kept map.

Platform services are modelled as inputs:

- a `Device` value describing the manager or interface, the permission or
  authorisation state, the radio power and the API level;
- the raw record sequences the platform returns;
- the outcome of each scan trigger;
- on Android, an oracle of poll readings for the wait loop;
- a timestamp `now`.

Modules:

- `Wrappers`: `Option` and `Result`, which stand for nullable returns and
  thrown errors.
- `WifiTypes`: the record shapes declared in `src/specs/munim-wifi.nitro.ts`.
- `ChannelCodec`: the conversion between frequency and channel. It follows
  the code's arithmetic, which anchors at 2412 MHz = channel 1 and
  5170 MHz = channel 36. It therefore differs from the channel numbering of
  IEEE Std 802.11-2016 (sections 15.4.4.3 and 17.3.8.4.2). Under this code,
  2484 MHz gives channel 15 and 5180 MHz gives 38.
- `Sequences`: first-index search, order-preserving de-duplication (Kotlin
  `distinct`, Swift `unique()`), dropping absent values, and substring
  search.
- `AndroidWifi`: the Kotlin backend.
  - Its scan gate, poll loop and result handling.
  - The class `HybridMunimWifi`. Its `scanResults` map is cleared and
    refilled in place. Its `isScanning` flag is driven by `StartScan` and
    `StopScan`.
  - The queries. They read the platform's current result list.
- `AppleWifi`: the Swift backend.
  - Its numbered gate errors.
  - The class `HybridMunimWifi`. Its `scanResults` array is replaced
    wholesale on each successful scan.
  - The flag, and the queries, which read the cache or rescan when the
    cache is empty.
  - The `unique()` filter, written as a loop with a `seen` set.

The model follows what the code does. Where that differs from IEEE 802.11
channel numbering or from what a caller might expect, the code wins:

- An Android scan keys its results by SSID, and the last duplicate wins.
  Two access points sharing an SSID therefore give one network, not two
  (`AndroidWifi.SharedSsidExample`).
- 5180 MHz maps to channel 38, not 36 (IEEE numbering).
- Lookups return the first record with the SSID, not the strongest one.
- The Apple backend scans for networks. It is not limited to the current
  connection.
- The Apple backend's scan throws numbered errors instead of degrading to
  an empty result.

## Model

| member | source | states |
|---|---|---|
| ChannelCodec.FrequencyChannel | android/src/main/java/com/munimwifi/HybridMunimWifi.kt:42-48 | 2412..2484 MHz map into channels 1..15 and 5170..5825 MHz into 36..167. The result is the sentinel 0 exactly when the frequency is outside both ranges, and never an error. |
| ChannelCodec.ChannelFrequency | ios/HybridMunimWifi.swift:45-51 | The frequency of a valid 2 GHz channel lies in the 2.4 GHz range the codec recognises. For any other band it lies in the 5 GHz range. |
| ChannelCodec.ChannelRoundTrip | ios/HybridMunimWifi.swift:184-190 | Channel, then frequency, then channel returns the original channel: for 1..15 on the 2 GHz band and for 36..167 on every other band. |
| ChannelCodec.FrequencyRoundTrip | android/src/main/java/com/munimwifi/HybridMunimWifi.kt:44-45 | Frequency, then channel, then frequency rounds down to the band's 5 MHz grid. It is exact on grid points. |
| ChannelCodec.FrequencyChannelInjectiveOnGrid | android/src/main/java/com/munimwifi/HybridMunimWifi.kt:44-45 | Distinct grid frequencies in one band get distinct channels. |
| ChannelCodec.CodecValues | android/src/main/java/com/munimwifi/HybridMunimWifi.kt:42-48 | The code's values at the band edges: 2412 gives 1, 2484 gives 15, 5170 gives 36, 5180 gives 38, 5825 gives 167, and 3000 gives 0. |
| Sequences.FindFirst | android/src/main/java/com/munimwifi/HybridMunimWifi.kt:219 | Returns the first element whose SSID equals the query: it matches, and no earlier element does. It is absent exactly when no element matches. Swift `first(where:)` (ios/HybridMunimWifi.swift:167) is modelled by the same member. |
| Sequences.Dedup | android/src/main/java/com/munimwifi/HybridMunimWifi.kt:181 | De-duplication leaves no element twice and keeps the same set of elements. |
| Sequences.DedupKeepsFirstOccurrenceOrder | ios/HybridMunimWifi.swift:217-222 | De-duplicated elements appear in the order of their first occurrences in the input. |
| Sequences.Somes | ios/HybridMunimWifi.swift:152 | Every kept value was present in the input, and every present value is kept. |
| Sequences.SomesConcat | ios/HybridMunimWifi.swift:152 | Dropping absent values commutes with concatenation. Together with SomesSingletons this pins the result: the present values, in input order, repeats included. |
| Sequences.SomesSingletons | android/src/main/java/com/munimwifi/HybridMunimWifi.kt:181 | An absent value is dropped and a present one is kept, as `mapNotNull` does per element. |
| Sequences.Contains | android/src/main/java/com/munimwifi/HybridMunimWifi.kt:52-54 | The substring search is true exactly when the substring occurs at some index. |
| AndroidWifi.VisibleResults | android/src/main/java/com/munimwifi/HybridMunimWifi.kt:171-179 | From API 23 on, the result list reads as empty unless fine location is granted. |
| AndroidWifi.ConvertScanResult | android/src/main/java/com/munimwifi/HybridMunimWifi.kt:50-66 | The record's channel is FrequencyChannel of its own frequency. It is secure exactly when the capabilities contain "WPA", "WEP" or "EAP". A missing SSID or BSSID becomes "". |
| AndroidWifi.KeyedBySsidKeys | android/src/main/java/com/munimwifi/HybridMunimWifi.kt:114-120 | The refilled map's keys are exactly the distinct non-empty SSIDs of the poll. Empty SSIDs are skipped. |
| AndroidWifi.KeyedBySsidLastWins | android/src/main/java/com/munimwifi/HybridMunimWifi.kt:115-119 | Each key maps to the last record carrying that SSID. A later duplicate overwrites an earlier one. |
| AndroidWifi.KeyedBySsidSelfKeyed | android/src/main/java/com/munimwifi/HybridMunimWifi.kt:116-118 | Every stored record carries the non-empty SSID it is stored under. |
| AndroidWifi.TakeCount | android/src/main/java/com/munimwifi/HybridMunimWifi.kt:123-124 | `take` keeps min(maxResults, available), or all entries when no maximum is given. A negative count throws, which is caught, so nothing is kept. |
| AndroidWifi.TakenFromCoversAll | android/src/main/java/com/munimwifi/HybridMunimWifi.kt:122-124 | When nothing is cut off, every SSID in the map is reported. |
| AndroidWifi.MaxWait | android/src/main/java/com/munimwifi/HybridMunimWifi.kt:100 | The wait bound is the timeout when it is at most 10000, exactly 10000 when it is larger, and 10000 when no timeout is given. |
| AndroidWifi.Settle | android/src/main/java/com/munimwifi/HybridMunimWifi.kt:102-128 | The poll loop ends in one of three ways: found results, which are never empty; a timeout; or an exception, which happens only when some readable poll before the deadline threw. |
| AndroidWifi.ScanOutcome | android/src/main/java/com/munimwifi/HybridMunimWifi.kt:80-137 | A whole scan attempt never returns an empty found list. It times out only after every check passed and the trigger succeeded. |
| AndroidWifi.ScanGate | android/src/main/java/com/munimwifi/HybridMunimWifi.kt:80-97 | Results are found only when all of these hold: the manager is present, either location permission is granted, Wi-Fi is on and the trigger succeeded. The first failing check names the degradation: no manager, no permission, Wi-Fi off, a trigger that threw, or a refused trigger. |
| AndroidWifi.SettleFoundIsFirstNonEmpty | android/src/main/java/com/munimwifi/HybridMunimWifi.kt:102-125 | The results the loop returns are those of the first non-empty, readable poll before the deadline. Every earlier poll saw an empty list without throwing. |
| AndroidWifi.SettleFindsFirstNonEmpty | android/src/main/java/com/munimwifi/HybridMunimWifi.kt:102-124 | The converse: when poll k is the first to see a non-empty readable list before the deadline, after only empty polls, the loop returns exactly that list. |
| AndroidWifi.SettleThrowDegrades | android/src/main/java/com/munimwifi/HybridMunimWifi.kt:102-110 | A readable poll that throws before the deadline, after only empty polls, ends the scan with the exception degradation, as the scan's catch clauses do. |
| AndroidWifi.NonPositiveBoundTimesOut | android/src/main/java/com/munimwifi/HybridMunimWifi.kt:100-102 | With a bound of 0 or less the loop body never runs, and the scan times out. |
| AndroidWifi.CoarseOnlyFindsNothing | android/src/main/java/com/munimwifi/HybridMunimWifi.kt:103-108 | On API 23 and later, coarse location alone passes the gate, but every poll is empty, so the scan times out. |
| AndroidWifi.HybridMunimWifi.constructor | android/src/main/java/com/munimwifi/HybridMunimWifi.kt:18-19 | The backend starts with an empty result map and is not scanning. |
| AndroidWifi.HybridMunimWifi.ScanNetworks | android/src/main/java/com/munimwifi/HybridMunimWifi.kt:76-139 | It never throws. On every gate failure, exception or timeout it returns [] and leaves the map unchanged. When a poll finds results, the map becomes exactly those records keyed by SSID, and the result is take(maxResults) of the map's converted values with distinct non-empty SSIDs. |
| AndroidWifi.HybridMunimWifi.RefillAndTake | android/src/main/java/com/munimwifi/HybridMunimWifi.kt:113-124 | The map is rebuilt from the poll alone. The result has min(maxResults, distinct non-empty SSIDs) elements, each a converted map value. |
| AndroidWifi.HybridMunimWifi.Refill | android/src/main/java/com/munimwifi/HybridMunimWifi.kt:114-120 | Clearing and refilling in order leaves exactly KeyedBySsid of the poll. |
| AndroidWifi.HybridMunimWifi.ConvertedValues | android/src/main/java/com/munimwifi/HybridMunimWifi.kt:122 | Every map value is converted exactly once, in some order, with no SSID twice. |
| AndroidWifi.HybridMunimWifi.StartScan | android/src/main/java/com/munimwifi/HybridMunimWifi.kt:141-163 | The flag ends true when the manager is missing, or when the gate passes and the trigger does not throw. It ends false on a permission failure, Wi-Fi off, or an exception. |
| AndroidWifi.HybridMunimWifi.StopScan | android/src/main/java/com/munimwifi/HybridMunimWifi.kt:165-167 | The flag is always false afterwards. |
| AndroidWifi.IsWifiEnabled | android/src/main/java/com/munimwifi/HybridMunimWifi.kt:68-70 | Without a manager Wi-Fi reads as off. With one, it reads as on exactly when the radio is enabled. |
| AndroidWifi.RequestWifiPermission | android/src/main/java/com/munimwifi/HybridMunimWifi.kt:37-40 | True exactly when fine or coarse location is granted. |
| AndroidWifi.GetSsids | android/src/main/java/com/munimwifi/HybridMunimWifi.kt:169-182 | The SSIDs of the visible records, with null SSIDs dropped and no SSID twice. It equals Dedup of the present SSIDs, so it keeps first-occurrence order (Sequences.DedupKeepsFirstOccurrenceOrder, Sequences.SomesConcat). The list is empty without a manager. |
| AndroidWifi.GetWifiFingerprint | android/src/main/java/com/munimwifi/HybridMunimWifi.kt:184-205 | Every visible record is converted, in order and without de-duplication. The list is empty without a manager. The fingerprint is stamped with the call time. |
| AndroidWifi.GetRssi | android/src/main/java/com/munimwifi/HybridMunimWifi.kt:207-221 | The level of the first visible record with the SSID, or null when there is none or no manager. |
| AndroidWifi.GetBssid | android/src/main/java/com/munimwifi/HybridMunimWifi.kt:223-237 | The BSSID of the first visible record with the SSID, or null. |
| AndroidWifi.GetChannelInfo | android/src/main/java/com/munimwifi/HybridMunimWifi.kt:239-258 | The first match's frequency, with its channel derived by FrequencyChannel, or null. |
| AndroidWifi.GetNetworkInfo | android/src/main/java/com/munimwifi/HybridMunimWifi.kt:260-274 | The first match converted, with the queried SSID, or null. |
| AndroidWifi.SharedSsidExample | android/src/main/java/com/munimwifi/HybridMunimWifi.kt:113-122 | Two records sharing SSID "Cafe" at 2437 and 5180 MHz leave one map entry, the later record. Their channels are 6 and 38. |
| AndroidWifi.RepeatedSsidListedOnce | android/src/main/java/com/munimwifi/HybridMunimWifi.kt:181 | Any SSID carried by two visible records is listed once. |
| AppleWifi.GateError | ios/HybridMunimWifi.swift:84-97 | The checks run in order: interface present (else code 1), power on (else code 2), then when-in-use or always authorisation (else code 3). There is no error exactly when all three hold. |
| AppleWifi.ConvertNetwork | ios/HybridMunimWifi.swift:31-68 | With no channel, the frequency is 0, the channel 0 and the network is not secure. With a channel, the channel is reported and the frequency is ChannelFrequency of channel and band: 2412+(c-1)*5 on the 2 GHz band, 5170+(c-36)*5 on any other. For valid channels it maps back to the channel under FrequencyChannel. It is secure exactly when it supports WPA2/WPA3 personal or WPA/WPA3 enterprise. |
| AppleWifi.PrefixCount | ios/HybridMunimWifi.swift:104-105 | prefix(maxResults) keeps min(maxResults, n) networks, or all n when no maximum is given. |
| AppleWifi.Unique | ios/HybridMunimWifi.swift:217-222 | The seen-set filter computes exactly Dedup: each element's first occurrence, in the original order. |
| AppleWifi.HybridMunimWifi.constructor | ios/HybridMunimWifi.swift:16-17 | The backend starts with an empty cache and is not scanning. |
| AppleWifi.HybridMunimWifi.ScanNetworks | ios/HybridMunimWifi.swift:83-109 | It throws the first failing gate's numbered error and rethrows scan errors, leaving the cache unchanged in both cases. On success the cache is replaced by the full scan, and the result is the first min(maxResults, n) converted networks in scan order. |
| AppleWifi.HybridMunimWifi.StartScan | ios/HybridMunimWifi.swift:111-131 | The flag ends true exactly when the interface, power and authorisation checks all pass. |
| AppleWifi.HybridMunimWifi.FinishBackgroundScan | ios/HybridMunimWifi.swift:133-143 | The background scan clears the flag. A successful scan replaces the cache, and a failed one leaves it unchanged. |
| AppleWifi.HybridMunimWifi.StopScan | ios/HybridMunimWifi.swift:146-148 | The flag is always false afterwards. |
| AppleWifi.HybridMunimWifi.Networks | ios/HybridMunimWifi.swift:151 | Queries use the cache when it is non-empty. Otherwise they use a fresh scan, or [] when that scan is unavailable or throws. |
| AppleWifi.HybridMunimWifi.GetSsids | ios/HybridMunimWifi.swift:150-153 | The query's SSIDs with nil dropped, de-duplicated keeping first occurrences in order. |
| AppleWifi.HybridMunimWifi.GetWifiFingerprint | ios/HybridMunimWifi.swift:155-163 | Every network the query sees is converted, in order, and stamped with the call time. |
| AppleWifi.HybridMunimWifi.GetRssi | ios/HybridMunimWifi.swift:165-169 | The RSSI of the first network with the SSID, or nil. |
| AppleWifi.HybridMunimWifi.GetBssid | ios/HybridMunimWifi.swift:171-175 | The BSSID of the first network with the SSID, or nil. |
| AppleWifi.HybridMunimWifi.GetChannelInfo | ios/HybridMunimWifi.swift:177-196 | The first match's channel and the frequency derived from channel and band. The two agree under FrequencyChannel for valid channels. It is nil when there is no match or the match has no channel. |
| AppleWifi.HybridMunimWifi.GetNetworkInfo | ios/HybridMunimWifi.swift:198-204 | The first network with the SSID, converted, or nil. |
| AppleWifi.IsWifiEnabled | ios/HybridMunimWifi.swift:70-72 | Without an interface Wi-Fi reads as off. With one, it reads as on exactly when the interface's power is on. |
| AppleWifi.RequestWifiPermission | ios/HybridMunimWifi.swift:74-81 | True exactly for when-in-use or always authorisation. |

## Left out

- Platform services are inputs, not behaviour:
  - `WifiManager`, `ActivityCompat`, `CWWiFiClient`, `scanForNetworks`,
    `CLLocationManager` and `supportsSecurity`;
  - the `ies` description, which is an opaque optional string.
- Wall-clock time and sleeping:
  - Timestamps are one `now` input per call. In both the Kotlin and the
    Swift code each converted record reads the clock separately
    (`convertNetwork` at ios/HybridMunimWifi.swift:41 and :66).
  - The Android wait loop reads elapsed times from an oracle. The end of
    the oracle stands for the deadline passing.
  - The 100 ms sleep, and an interruption during it, are not modelled.
- Concurrency:
  - the thread-safety of the `ConcurrentHashMap`;
  - the Swift background `DispatchQueue`. It is modelled only by the state
    it leaves (`FinishBackgroundScan`), and the case where the object has
    already been released is not modelled.
- CoreWLAN's `scanForNetworks(withName:)` returns a `Set<CWNetwork>`, and
  Android's scan list has no documented order. "Scan order" and "first
  match" in this model mean the platform's iteration order, which the model
  takes as an input sequence.
- The order of the Android map's values is unspecified. The model picks
  keys in an arbitrary order, and its contracts state count, membership and
  distinctness only.
- The Kotlin manager handle is cached lazily. A missing application
  context is folded into the `hasManager` and permission inputs.
- Exceptions thrown while the Android queries read the platform list: the
  source does not catch them, and the model does not raise them.
- The Swift `requestWifiPermission` also stores the `CLLocationManager` it
  creates. That field is not modelled.
- `maxResults` and `timeout` are integers. Converting them from the host's
  doubles (NaN, infinity, truncation) is not modelled.
- AppleWifi.Unique, AppleWifi.Find and AppleWifi.HybridMunimWifi.GetSsids compare
  SSIDs as exact character sequences. Swift's `String ==` and `Set<String>`
  use Unicode canonical equivalence, so a precomposed "é" and "e" followed
  by a combining accent are one SSID in Swift and two in the model. The
  Kotlin side compares exactly, as the model does.
- AppleWifi.HybridMunimWifi.ScanNetworks requires a non-negative `maxResults`
  on the path that reaches `prefix`. A negative count traps there; it does
  not throw an error that could be modelled as a result.
- Not modelled:
  - logging;
  - the `addListener` and `removeListeners` stubs;
  - `getCurrentNetwork`, `connectToNetwork`, `disconnect` and
    `getIPAddress`, which are declared in the interface but have no
    implementation in either backend file;
  - the one-line bridge in `src/index.ts`.
