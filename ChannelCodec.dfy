/** Conversion between a radio frequency in MHz and a Wi-Fi channel number,
    as both backends compute it. The arithmetic is the code's own: it is
    anchored at 2412 MHz = channel 1 and 5170 MHz = channel 36, so it
    differs from IEEE Std 802.11-2016 channel numbering (2484 MHz gives 15,
    5180 MHz gives 38). */
module ChannelCodec {

  /** Lower and upper edge (inclusive) of each band the codec recognises. */
  const Low24: int := 2412
  const High24: int := 2484
  const Low5: int := 5170
  const High5: int := 5825

  /** The channel band a platform reports alongside a channel number. */
  datatype Band = Band2GHz | Band5GHz | Band6GHz | BandUnknown

  predicate In24(frequency: int) { Low24 <= frequency <= High24 }
  predicate In5(frequency: int) { Low5 <= frequency <= High5 }

  /** Frequency to channel: the 2.4 GHz range counts up from channel 1,
      the 5 GHz range from channel 36, anything else is the sentinel 0. */
  function FrequencyChannel(frequency: int): (channel: int)
    ensures In24(frequency) ==> 1 <= channel <= 15
    ensures In5(frequency) ==> 36 <= channel <= 167
    ensures channel == 0 <==> !In24(frequency) && !In5(frequency)
  {
    if In24(frequency) then (frequency - Low24) / 5 + 1
    else if In5(frequency) then (frequency - Low5) / 5 + 36
    else 0
  }

  /** The channel numbers whose frequency, computed for `band`, falls back
      inside the range FrequencyChannel recognises. */
  predicate ValidChannel(channel: int, band: Band) {
    if band == Band2GHz then 1 <= channel <= 15 else 36 <= channel <= 167
  }

  /** Channel to frequency: the 2 GHz band counts from 2412 MHz, every
      other band from 5170 MHz, in 5 MHz steps. */
  function ChannelFrequency(channel: int, band: Band): (frequency: int)
    ensures ValidChannel(channel, band) && band == Band2GHz ==> In24(frequency)
    ensures ValidChannel(channel, band) && band != Band2GHz ==> In5(frequency)
  {
    if band == Band2GHz then Low24 + (channel - 1) * 5
    else Low5 + (channel - 36) * 5
  }

  /** Channel -> frequency -> channel gives back the channel on every valid
      (channel, band) pair. */
  lemma ChannelRoundTrip(channel: int, band: Band)
    requires ValidChannel(channel, band)
    ensures FrequencyChannel(ChannelFrequency(channel, band)) == channel
  {
  }

  /** Frequency -> channel -> frequency lands on the channel grid at or
      below the original frequency: exact on grid points, otherwise rounded
      down to the nearest lower grid point. */
  lemma FrequencyRoundTrip(frequency: int)
    requires In24(frequency) || In5(frequency)
    ensures In24(frequency) ==>
      ChannelFrequency(FrequencyChannel(frequency), Band2GHz) == frequency - (frequency - Low24) % 5
    ensures In5(frequency) ==>
      ChannelFrequency(FrequencyChannel(frequency), Band5GHz) == frequency - (frequency - Low5) % 5
  {
  }

  /** Distinct grid frequencies of one band get distinct channels. */
  lemma FrequencyChannelInjectiveOnGrid(f: int, g: int)
    requires (In24(f) && In24(g) && (f - Low24) % 5 == 0 && (g - Low24) % 5 == 0)
          || (In5(f) && In5(g) && (f - Low5) % 5 == 0 && (g - Low5) % 5 == 0)
    requires f != g
    ensures FrequencyChannel(f) != FrequencyChannel(g)
  {
  }

  /** The code's anchors, evaluated at the edges of each band. */
  lemma CodecValues()
    ensures FrequencyChannel(2412) == 1 && FrequencyChannel(2437) == 6
    ensures FrequencyChannel(2484) == 15
    ensures FrequencyChannel(5170) == 36 && FrequencyChannel(5180) == 38
    ensures FrequencyChannel(5825) == 167
    ensures FrequencyChannel(3000) == 0 && FrequencyChannel(2411) == 0
  {
  }
}
