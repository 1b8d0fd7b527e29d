/**
 * The technical-indicator panel of the analysis page: threshold labels for RSI, stochastic %K
 * and the MACD histogram, and the per-row RSI and MACD series drawn under them.
 */
module Indicators {
  import opened Wrappers
  import opened Entities

  /** An oscillator reading's label: "Overbought", "Oversold" or "Neutral". */
  datatype Zone = Overbought | Oversold | Neutral

  /** The RSI figure's colour class: red, green or yellow text. */
  datatype Color = Red | Green | Yellow

  /** The MACD caption: "Bullish", "Bearish" or "Neutral". */
  datatype Trend = Bullish | Bearish | Flat

  /** The MACD reading; each part may be missing. */
  datatype Macd = Macd(value: Option<real>, signal: Option<real>, histogram: Option<real>)

  /** The indicator readings handed to the panel; each may be missing. */
  datatype Readings = Readings(rsi: Option<real>, macd: Option<Macd>, stochasticK: Option<real>)

  const RsiHigh: real := 70.0
  const RsiLow: real := 30.0
  const StochasticHigh: real := 80.0
  const StochasticLow: real := 20.0
  /** The value a missing (or zero) RSI or %K is coloured and labelled as. */
  const Midpoint: real := 50.0

  /** `getRSILabel`: above 70 is overbought, below 30 oversold, anything between (bounds included) neutral. */
  function RsiLabel(rsi: real): (z: Zone)
    ensures z == Overbought <==> rsi > RsiHigh
    ensures z == Oversold <==> rsi < RsiLow
    ensures z == Neutral <==> RsiLow <= rsi <= RsiHigh
  {
    if rsi > RsiHigh then Overbought
    else if rsi < RsiLow then Oversold
    else Neutral
  }

  /** `getRSIColor`: red above 70, green below 30, yellow otherwise. */
  function RsiColor(rsi: real): (c: Color)
    ensures c == Red <==> rsi > RsiHigh
    ensures c == Green <==> rsi < RsiLow
  {
    if rsi > RsiHigh then Red
    else if rsi < RsiLow then Green
    else Yellow
  }

  /** The colour that goes with each label. */
  function ZoneColor(z: Zone): Color {
    match z
    case Overbought => Red
    case Oversold => Green
    case Neutral => Yellow
  }

  /** The RSI colour and label agree case for case. */
  lemma RsiColorAgrees(rsi: real)
    ensures RsiColor(rsi) == ZoneColor(RsiLabel(rsi))
  {
  }

  /** `getStochasticLabel`: above 80 is overbought, below 20 oversold, anything between neutral. */
  function StochasticLabel(k: real): (z: Zone)
    ensures z == Overbought <==> k > StochasticHigh
    ensures z == Oversold <==> k < StochasticLow
    ensures z == Neutral <==> StochasticLow <= k <= StochasticHigh
  {
    if k > StochasticHigh then Overbought
    else if k < StochasticLow then Oversold
    else Neutral
  }

  /** Labels in increasing order of the reading. */
  function Rank(z: Zone): int {
    match z
    case Oversold => 0
    case Neutral => 1
    case Overbought => 2
  }

  /** A higher reading never gets a lower label. */
  lemma LabelsMonotone(v: real, w: real)
    requires v <= w
    ensures Rank(RsiLabel(v)) <= Rank(RsiLabel(w))
    ensures Rank(StochasticLabel(v)) <= Rank(StochasticLabel(w))
  {
  }

  /**
   * `getMACDSignal`: no MACD reading is neutral; otherwise a positive histogram is bullish, a
   * negative one bearish, and a zero or missing one neutral.
   */
  function MacdSignal(macd: Option<Macd>): (t: Trend)
    ensures t == Bullish <==> macd.Some? && macd.value.histogram.Some? && macd.value.histogram.value > 0.0
    ensures t == Bearish <==> macd.Some? && macd.value.histogram.Some? && macd.value.histogram.value < 0.0
  {
    if macd.None? then Flat
    else match macd.value.histogram
      case None => Flat
      case Some(h) => if h > 0.0 then Bullish else if h < 0.0 then Bearish else Flat
  }

  /** `x || fallback` on a number: a missing reading and a zero both give the fallback. */
  function OrElse(x: Option<real>, fallback: real): (r: real)
    ensures x.None? || x.value == 0.0 ==> r == fallback
    ensures x.Some? && x.value != 0.0 ==> r == x.value
  {
    if x.Some? && x.value != 0.0 then x.value else fallback
  }

  /**
   * The RSI reading the panel colours, labels and jitters: `indicators?.rsi || 50`. (The number
   * printed beside it is `rsi?.toFixed(1) || "50.0"`, which shows a zero reading as "0.0".)
   */
  function RatedRsi(readings: Option<Readings>): (r: real)
    ensures r != 0.0
    ensures readings.Some? && readings.value.rsi.Some? && readings.value.rsi.value != 0.0 ==> r == readings.value.rsi.value
    ensures readings.None? || readings.value.rsi.None? || readings.value.rsi.value == 0.0 ==> r == Midpoint
  {
    OrElse(if readings.Some? then readings.value.rsi else None, Midpoint)
  }

  /** The %K reading the panel labels: `indicators?.stochastic?.k || 50`. */
  function RatedStochastic(readings: Option<Readings>): real {
    OrElse(if readings.Some? then readings.value.stochasticK else None, Midpoint)
  }

  /** A missing or zero RSI or %K is rated as 50 and therefore labelled neutral, with a yellow RSI. */
  lemma MissingIsNeutral(readings: Option<Readings>)
    requires readings.None? || readings.value.rsi.None? || readings.value.rsi.value == 0.0
    ensures RsiLabel(RatedRsi(readings)) == Neutral && RsiColor(RatedRsi(readings)) == Yellow
  {
  }

  lemma MissingStochasticIsNeutral(readings: Option<Readings>)
    requires readings.None? || readings.value.stochasticK.None? || readings.value.stochasticK.value == 0.0
    ensures StochasticLabel(RatedStochastic(readings)) == Neutral
  {
  }

  // ---------------------------------------------------------------- chart series

  /** `Math.max(0, Math.min(100, x))`. */
  function Clamp(x: real): (r: real)
    ensures 0.0 <= r <= 100.0
    ensures 0.0 <= x <= 100.0 ==> r == x
    ensures x < 0.0 ==> r == 0.0
    ensures x > 100.0 ==> r == 100.0
  {
    var upper := if x < 100.0 then x else 100.0;
    if upper > 0.0 then upper else 0.0
  }

  /** Clamping twice is clamping once, and clamping keeps the order of values. */
  lemma ClampIdempotentMonotone(x: real, y: real)
    ensures Clamp(Clamp(x)) == Clamp(x)
    ensures x <= y ==> Clamp(x) <= Clamp(y)
  {
  }

  datatype RsiPoint = RsiPoint(date: string, rsi: real)
  datatype MacdPoint = MacdPoint(date: string, macd: real, signal: real, histogram: real)

  /** `Math.random()` draws for one MACD row, one per line. */
  datatype MacdNoise = MacdNoise(value: real, signal: real, histogram: real)

  /**
   * `rsiData`: one point per chart row, carrying the row's date, at the rated RSI jittered by
   * `noise[i]` (the row's `Math.random()` draw) and clamped to the chart's range.
   */
  function RsiSeries(data: seq<OhlcRow>, readings: Option<Readings>, noise: seq<real>): (r: seq<RsiPoint>)
    requires |noise| == |data|
    ensures |r| == |data|
    ensures forall i :: 0 <= i < |r| ==> r[i].date == data[i].date && 0.0 <= r[i].rsi <= 100.0
  {
    var base := RatedRsi(readings);
    seq(|data|, i requires 0 <= i < |data| => RsiPoint(data[i].date, Clamp(base + (noise[i] - 0.5) * 20.0)))
  }

  /** With draws in [0, 1], every RSI point lies within 10 of the rated reading. */
  lemma RsiSeriesNearReading(data: seq<OhlcRow>, readings: Option<Readings>, noise: seq<real>)
    requires |noise| == |data|
    requires forall i :: 0 <= i < |noise| ==> 0.0 <= noise[i] <= 1.0
    requires 10.0 <= RatedRsi(readings) <= 90.0
    ensures forall i :: 0 <= i < |data| ==>
              RatedRsi(readings) - 10.0 <= RsiSeries(data, readings, noise)[i].rsi <= RatedRsi(readings) + 10.0
  {
  }

  /** The MACD reading's parts as the series uses them: each `|| 0`. */
  function MacdBase(readings: Option<Readings>): MacdNoise {
    var m := if readings.Some? then readings.value.macd else None;
    if m.None? then MacdNoise(0.0, 0.0, 0.0)
    else MacdNoise(OrElse(m.value.value, 0.0), OrElse(m.value.signal, 0.0), OrElse(m.value.histogram, 0.0))
  }

  /**
   * `macdData`: one point per chart row, carrying the row's date, at the reading's value, signal
   * and histogram jittered by the row's draws (spread 2, 2 and 1).
   */
  function MacdSeries(data: seq<OhlcRow>, readings: Option<Readings>, noise: seq<MacdNoise>): (r: seq<MacdPoint>)
    requires |noise| == |data|
    ensures |r| == |data|
    ensures forall i :: 0 <= i < |r| ==> r[i].date == data[i].date
  {
    var base := MacdBase(readings);
    seq(|data|, i requires 0 <= i < |data| =>
      MacdPoint(data[i].date,
                base.value + (noise[i].value - 0.5) * 2.0,
                base.signal + (noise[i].signal - 0.5) * 2.0,
                base.histogram + (noise[i].histogram - 0.5) * 1.0))
  }

  /** With draws in [0, 1], each MACD line stays within 1 (the histogram within 0.5) of its reading. */
  lemma MacdSeriesNearReading(data: seq<OhlcRow>, readings: Option<Readings>, noise: seq<MacdNoise>)
    requires |noise| == |data|
    requires forall i :: 0 <= i < |noise| ==>
               && 0.0 <= noise[i].value <= 1.0 && 0.0 <= noise[i].signal <= 1.0
               && 0.0 <= noise[i].histogram <= 1.0
    ensures forall i :: 0 <= i < |data| ==>
              var p := MacdSeries(data, readings, noise)[i];
              var b := MacdBase(readings);
              && b.value - 1.0 <= p.macd <= b.value + 1.0
              && b.signal - 1.0 <= p.signal <= b.signal + 1.0
              && b.histogram - 0.5 <= p.histogram <= b.histogram + 0.5
  {
  }
}
