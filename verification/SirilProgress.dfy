/** Progress lines of a Siril run, mapped onto a band of the node's bar (server/siril.py). */
module SirilProgress {

  class Handler {
    const low: real
    const high: real
    const phases: int
    var last: real
    var phase: int
    var lastEmitted: real

    constructor (low: real, high: real, phases: int)
      ensures this.low == low && this.high == high && this.phases == phases
      ensures last == 0.0 && phase == 0 && lastEmitted == low
    {
      this.low, this.high, this.phases := low, high, phases;
      last, phase, lastEmitted := 0.0, 0, low;
    }

    predicate Valid()
      reads this
    {
      low <= lastEmitted <= high
    }

    function PhaseSize(): real {
      (high - low) / (if phases > 1 then phases else 1) as real
    }

    /** One parsed line; the fraction is in [0, 1]. A sharp drop means that the next command has started. */
    method Handle(frac: real) returns (emitted: real)
      requires Valid() && 0.0 <= frac <= 1.0
      modifies this
      ensures Valid() && emitted == lastEmitted && old(lastEmitted) <= emitted <= high
      ensures last == frac
      ensures phase == if frac + 0.5 < old(last) then (if old(phase) + 1 < phases - 1 then old(phase) + 1 else phases - 1) else old(phase)
      ensures low + phase as real * PhaseSize() + frac * PhaseSize() <= high ==>
        emitted >= low + phase as real * PhaseSize() + frac * PhaseSize()
    {
      if frac + 0.5 < last {
        phase := if phase + 1 < phases - 1 then phase + 1 else phases - 1;
      }
      last := frac;
      var scaled := low + phase as real * PhaseSize() + frac * PhaseSize();
      if scaled > high { scaled := high; }
      if scaled < lastEmitted { scaled := lastEmitted; }
      lastEmitted := scaled;
      emitted := scaled;
    }

    /** Whatever lines a run prints, what is shown never goes back and stays within the band. */
    method HandleAll(fracs: seq<real>) returns (emitted: seq<real>)
      requires Valid() && forall i :: 0 <= i < |fracs| ==> 0.0 <= fracs[i] <= 1.0
      modifies this
      ensures Valid() && |emitted| == |fracs|
      ensures forall i :: 0 <= i < |emitted| ==> low <= emitted[i] <= high
      ensures forall i, j :: 0 <= i <= j < |emitted| ==> emitted[i] <= emitted[j]
    {
      emitted := [];
      for k := 0 to |fracs|
        invariant Valid() && |emitted| == k
        invariant forall i :: 0 <= i < k ==> low <= emitted[i] <= lastEmitted
        invariant forall i, j :: 0 <= i <= j < k ==> emitted[i] <= emitted[j]
      {
        var e := Handle(fracs[k]);
        emitted := emitted + [e];
      }
    }
  }
}
