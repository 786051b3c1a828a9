/**
 * The voltage cell and its reader: the supply voltage the curve is evaluated
 * at. It starts at 16.0 and each voltage message that unpacks replaces it by
 * the message's element 0; a receive that yields nothing, or a message that
 * does not unpack, leaves it as it was.
 *
 * The reader runs in its own thread in the service; here the cell is a value
 * and the reader a function over it (no visibility or tearing is modelled).
 */
module VoltageCell {
  import opened Messages

  /** The cell's value before any voltage message arrives. */
  const DEFAULT_VOLTAGE: real := 16.0

  /** A receive result the reader may be handed: any array it unpacks has an element 0. */
  predicate ReadableRecv(r: Recv) {
    r.Array? ==> HasElement0(r.items)
  }

  /** One iteration of the reader loop. */
  function ReaderStep(cell: real, r: Recv): (v: real)
    requires ReadableRecv(r)
    ensures r.Array? ==> v == r.items[0].dec
    ensures !r.Array? ==> v == cell
  {
    match r
    case Array(items) => VoltageSample(items)
    case _ => cell
  }

  /** The cell after the reader has processed `rs` in order. */
  function ReaderRun(cell: real, rs: seq<Recv>): real
    requires forall i :: 0 <= i < |rs| ==> ReadableRecv(rs[i])
    decreases |rs|
  {
    if |rs| == 0 then cell else ReaderRun(ReaderStep(cell, rs[0]), rs[1..])
  }

  /**
   * Reference definition: the sample of the last message in `rs` that
   * unpacked, or `cell` when there is none.
   */
  function LastSample(cell: real, rs: seq<Recv>): real
    requires forall i :: 0 <= i < |rs| ==> ReadableRecv(rs[i])
  {
    if |rs| == 0 then cell
    else if rs[|rs| - 1].Array? then
      assert ReadableRecv(rs[|rs| - 1]);
      VoltageSample(rs[|rs| - 1].items)
    else LastSample(cell, rs[..|rs| - 1])
  }

  /** Running the reader over one more result is one more reader step. */
  lemma {:induction false} ReaderRunSnoc(cell: real, rs: seq<Recv>, r: Recv)
    requires forall i :: 0 <= i < |rs| ==> ReadableRecv(rs[i])
    requires ReadableRecv(r)
    ensures forall i :: 0 <= i < |rs + [r]| ==> ReadableRecv((rs + [r])[i])
    ensures ReaderRun(cell, rs + [r]) == ReaderStep(ReaderRun(cell, rs), r)
    decreases |rs|
  {
    if |rs| == 0 {
      assert rs + [r] == [r];
    } else {
      assert (rs + [r])[1..] == rs[1..] + [r];
      ReaderRunSnoc(ReaderStep(cell, rs[0]), rs[1..], r);
    }
  }

  /** The cell always holds the last unpacked sample, or its earlier value if none. */
  lemma {:induction false} ReaderRunIsLastSample(cell: real, rs: seq<Recv>)
    requires forall i :: 0 <= i < |rs| ==> ReadableRecv(rs[i])
    ensures ReaderRun(cell, rs) == LastSample(cell, rs)
    decreases |rs|
  {
    if |rs| > 0 {
      var front := rs[..|rs| - 1];
      var r := rs[|rs| - 1];
      assert rs == front + [r];
      ReaderRunIsLastSample(cell, front);
      ReaderRunSnoc(cell, front, r);
    }
  }

  /** Messages that never unpack leave the default voltage in place. */
  lemma {:induction false} ReaderKeepsDefaultWithoutSamples(rs: seq<Recv>)
    requires forall i :: 0 <= i < |rs| ==> !rs[i].Array?
    ensures forall i :: 0 <= i < |rs| ==> ReadableRecv(rs[i])
    ensures ReaderRun(DEFAULT_VOLTAGE, rs) == DEFAULT_VOLTAGE
    decreases |rs|
  {
    if |rs| > 0 {
      ReaderKeepsDefaultWithoutSamples(rs[1..]);
    }
  }
}
