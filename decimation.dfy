/** The rate arithmetic the three filter engines share for their
    oversampling (ladder.cpp:29-32, sallenkey.cpp:29-32, svfilter.cpp:28-31):
    the stages run at `sampleRate*oversamplingFactor`, and the decimation
    cascade passes 0.9 of the base Nyquist band. */
module Decimation {

  /** `IIR_DOWNSAMPLING_BANDWIDTH`. */
  const DownsamplingBandwidth: real := 0.9

  /** The rate the stages and the decimation cascade run at. Oversampling
      never lowers the rate. */
  function OversampledRate(sampleRate: real, oversamplingFactor: int): (r: real)
    ensures sampleRate > 0.0 && oversamplingFactor >= 1 ==> r >= sampleRate
  {
    sampleRate * oversamplingFactor as real
  }

  /** The decimation cutoff, `IIR_DOWNSAMPLING_BANDWIDTH` of the base Nyquist
      frequency: strictly inside the base band. */
  function DecimationCutoff(sampleRate: real): (c: real)
    ensures sampleRate > 0.0 ==> 0.0 < c < sampleRate / 2.0
  {
    DownsamplingBandwidth * sampleRate / 2.0
  }
}
