/** The RedLightStarter's detector: it keeps the two most recent counts of
    red pixels and fires when the count drops by more than the threshold,
    i.e. when the red start light goes off. The image filtering that yields
    the counts is computer vision and is represented by the counts alone. */
module Starter {

  const RedLightThreshold: int := 20

  /** The detector's two counters. */
  datatype Counts = Counts(previous: int, current: int)

  const Initial: Counts := Counts(0, 0)

  /** One reading: before any non-zero count the reading is first seeded as
      the current count; then the current count moves to previous and the
      reading becomes current. What this means for the start signal is
      carried by ObserveFiresOnlyOnDrop, SignalsComplete and
      LastCountIsLastReading. */
  function Observe(c: Counts, reading: int): (r: Counts)
    ensures r.current == reading
    ensures c == Initial ==> r.previous == reading
    ensures c != Initial ==> r.previous == c.current
  {
    var seeded := if c.current == 0 && c.previous == 0 then reading else c.current;
    Counts(seeded, reading)
  }

  /** Whether the light went off between the two counts. */
  predicate WentOff(c: Counts)
    ensures WentOff(c) ==> c.current < c.previous
  {
    c.previous - c.current > RedLightThreshold
  }

  /** The very first reading, and any reading that is not a drop of more
      than the threshold from the last one, never fires. */
  lemma ObserveFiresOnlyOnDrop(c: Counts, reading: int)
    ensures WentOff(Observe(c, reading)) <==> c != Initial && c.current - reading > RedLightThreshold
    ensures c == Initial ==> !WentOff(Observe(c, reading))
    ensures c != Initial && reading >= c.current ==> !WentOff(Observe(c, reading))
  {
  }

  /** The counters after a stream of readings. */
  function ObserveAll(readings: seq<int>): Counts
  {
    if |readings| == 0 then Initial else Observe(ObserveAll(readings[..|readings| - 1]), readings[|readings| - 1])
  }

  /** The indices of the readings at which the starter signals. */
  function Signals(readings: seq<int>): (r: seq<nat>)
    ensures forall k :: 0 <= k < |r| ==> r[k] < |readings|
    ensures forall k :: 0 <= k < |r| ==> WentOff(ObserveAll(readings[..r[k] + 1]))
  {
    if |readings| == 0 then []
    else
      var n := |readings|;
      var prefix := readings[..n - 1];
      assert forall j :: 0 < j < n ==> prefix[..j] == readings[..j];
      assert readings[..n] == readings;
      Signals(prefix) + (if WentOff(ObserveAll(readings)) then [n - 1] else [])
  }

  /** Every reading at which the light went off is signalled, once, in order. */
  lemma {:induction false} SignalsComplete(readings: seq<int>)
    ensures forall i :: 0 < i <= |readings| && WentOff(ObserveAll(readings[..i])) ==> i - 1 in Signals(readings)
    ensures forall k, l :: 0 <= k < l < |Signals(readings)| ==> Signals(readings)[k] < Signals(readings)[l]
  {
    if |readings| > 0 {
      var n := |readings|;
      var prefix := readings[..n - 1];
      SignalsComplete(prefix);
      assert forall j :: 0 < j < n ==> prefix[..j] == readings[..j];
      assert readings[..n] == readings;
    }
  }

  /** A stream that never falls by more than the threshold from one reading
      to the next never starts the race, whatever its first value. */
  lemma {:induction false} NoSignalWithoutDrop(readings: seq<int>)
    requires forall i :: 0 < i < |readings| ==> readings[i - 1] - readings[i] <= RedLightThreshold
    ensures Signals(readings) == []
  {
    if |readings| > 0 {
      var n := |readings|;
      NoSignalWithoutDrop(readings[..n - 1]);
      LastCountIsLastReading(readings[..n - 1]);
      if n > 1 {
        assert readings[..n - 1][n - 2] == readings[n - 2];
      }
    }
  }

  /** After at least one reading, the current count is the last reading. */
  lemma LastCountIsLastReading(readings: seq<int>)
    ensures |readings| > 0 ==> ObserveAll(readings).current == readings[|readings| - 1]
    ensures |readings| == 0 ==> ObserveAll(readings) == Initial
  {
  }

  class RedLightStarter {
    var previousNrOfPixels: int
    var currentNrOfPixels: int

    function GetCounts(): Counts
      reads this
    {
      Counts(previousNrOfPixels, currentNrOfPixels)
    }

    constructor ()
      ensures GetCounts() == Initial
    {
      previousNrOfPixels := 0;
      currentNrOfPixels := 0;
    }

    /** `redLightWentOff`: the filter of the start signal stream. */
    method RedLightWentOff(nonBlackPixels: int) returns (wentOff: bool)
      modifies this
      ensures GetCounts() == Observe(old(GetCounts()), nonBlackPixels)
      ensures wentOff <==> WentOff(GetCounts())
    {
      if currentNrOfPixels == 0 && previousNrOfPixels == 0 {
        currentNrOfPixels := nonBlackPixels;
      }
      previousNrOfPixels := currentNrOfPixels;
      currentNrOfPixels := nonBlackPixels;
      wentOff := previousNrOfPixels - currentNrOfPixels > RedLightThreshold;
    }
  }
}
