/** VideoBitrateAllocation: a bitrate per populated (spatial, temporal) layer, with the total
 *  kept beside the cells so that reading it is constant time. */
module BitrateAllocation {

  /** A (spatial index, temporal index) pair naming one layer. */
  type LayerIndex = (nat, nat)

  datatype VideoBitrateAllocation = VideoBitrateAllocation(bitrates: map<LayerIndex, nat>, sumBps: nat)

  /** Some populated layer of a non-empty map; every call on the same map picks the same one. */
  ghost function PickLayer(m: map<LayerIndex, nat>): (k: LayerIndex)
    requires m != map[]
    ensures k in m
  {
    var k :| k in m; k
  }

  /** The sum of all cells of a map. */
  ghost function Total(m: map<LayerIndex, nat>): nat
    decreases |m|
  {
    if m == map[] then 0
    else
      var k := PickLayer(m);
      assert |m - {k}| < |m| by { assert m.Keys - {k} < m.Keys; }
      m[k] + Total(m - {k})
  }

  /** The total can be unfolded at any populated layer, not only at the one PickLayer chose. */
  lemma {:induction false} TotalRemove(m: map<LayerIndex, nat>, k: LayerIndex)
    requires k in m
    ensures Total(m) == m[k] + Total(m - {k})
    decreases |m|
  {
    var j := PickLayer(m);
    if j != k {
      var mj := m - {j};
      var mk := m - {k};
      assert |mj| < |m| by { assert mj.Keys < m.Keys; }
      TotalRemove(mj, k);
      assert |mk| < |m| by { assert mk.Keys < m.Keys; }
      TotalRemove(mk, j);
      assert mj - {k} == mk - {j};
    }
  }

  /** Writing one cell moves the total by the difference between the new and the old value. */
  lemma TotalUpdate(m: map<LayerIndex, nat>, k: LayerIndex, v: nat)
    ensures k in m ==> Total(m[k := v]) + m[k] == Total(m) + v
    ensures k !in m ==> Total(m[k := v]) == Total(m) + v
  {
    var m' := m[k := v];
    TotalRemove(m', k);
    if k in m {
      TotalRemove(m, k);
      assert m' - {k} == m - {k};
    } else {
      assert m' - {k} == m;
    }
  }

  /** The cached total agrees with the cells. */
  ghost predicate Valid(a: VideoBitrateAllocation)
  {
    a.sumBps == Total(a.bitrates)
  }

  /** An allocation with no populated layer. */
  function Empty(): (a: VideoBitrateAllocation)
    ensures Valid(a)
    ensures a.bitrates == map[]
  {
    VideoBitrateAllocation(map[], 0)
  }

  /** The bitrate of one layer, 0 when the layer is not populated. */
  function GetBitrate(a: VideoBitrateAllocation, spatial: nat, temporal: nat): nat
  {
    if (spatial, temporal) in a.bitrates then a.bitrates[(spatial, temporal)] else 0
  }

  /** Populates one layer (or overwrites it) and keeps the total in step. */
  function SetBitrate(a: VideoBitrateAllocation, spatial: nat, temporal: nat, bps: nat): (r: VideoBitrateAllocation)
    requires Valid(a)
    ensures Valid(r)
    ensures r.bitrates == a.bitrates[(spatial, temporal) := bps]
    ensures GetBitrate(r, spatial, temporal) == bps
    ensures r.sumBps + GetBitrate(a, spatial, temporal) == a.sumBps + bps
  {
    TotalUpdate(a.bitrates, (spatial, temporal), bps);
    VideoBitrateAllocation(a.bitrates[(spatial, temporal) := bps],
                           a.sumBps - GetBitrate(a, spatial, temporal) + bps)
  }

  /** Two allocations populate the same set of layers. */
  predicate SameStreamsEnabled(a: VideoBitrateAllocation, b: VideoBitrateAllocation)
  {
    a.bitrates.Keys == b.bitrates.Keys
  }

  /** No populated layer carries more than the total. */
  lemma {:induction false} CellAtMostTotal(a: VideoBitrateAllocation, k: LayerIndex)
    requires Valid(a) && k in a.bitrates
    ensures a.bitrates[k] <= a.sumBps
  {
    TotalRemove(a.bitrates, k);
  }
}
