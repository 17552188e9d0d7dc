/**
 * The host records the settings store keeps. Their fields other than the keys
 * are produced by the pairing flow and by the user, and are opaque here.
 */
module Hosts {
  import KeyOrder

  /** A 6-byte hardware address, read as one big-endian 48-bit number. */
  type Mac48 = n: nat | n < 0x1_0000_0000_0000

  datatype HostMAC = HostMAC(value: Mac48)

  /** A paired console, identified by its hardware address. */
  datatype RegisteredHost = RegisteredHost(
    serverMac: HostMAC,
    serverNickname: string,
    credentials: seq<bv8>)

  /**
   * A user-entered network address; `id` is negative before the store has
   * given the entry an id, and the entry may name the registered console it
   * belongs to.
   */
  datatype ManualHost = ManualHost(
    id: int,
    host: string,
    registered: bool,
    registeredMac: HostMAC)

  /** The addresses in `macs`, each once, in ascending order of their value. */
  function AscendingMacs(macs: set<HostMAC>): (r: seq<HostMAC>)
    ensures forall i, j :: 0 <= i < j < |r| ==> r[i].value < r[j].value
    ensures forall m :: m in r <==> m in macs
    ensures |r| == |macs|
  {
    var values := set m | m in macs :: m.value as int;
    var sorted := KeyOrder.Ascending(values);
    assert forall i :: 0 <= i < |sorted| ==> 0 <= sorted[i] < 0x1_0000_0000_0000 by {
      forall i | 0 <= i < |sorted| ensures 0 <= sorted[i] < 0x1_0000_0000_0000 {
        assert sorted[i] in values;
      }
    }
    var r := seq(|sorted|, i requires 0 <= i < |sorted| => HostMAC(sorted[i]));
    AscendingMacsCover(macs, values, sorted, r);
    r
  }

  lemma AscendingMacsCover(macs: set<HostMAC>, values: set<int>, sorted: seq<int>, r: seq<HostMAC>)
    requires values == set m | m in macs :: m.value as int
    requires KeyOrder.StrictlyIncreasing(sorted)
    requires forall x :: x in sorted <==> x in values
    requires |r| == |sorted|
    requires forall i :: 0 <= i < |r| ==> r[i].value == sorted[i]
    ensures forall m :: m in r <==> m in macs
    ensures |r| == |macs|
  {
    forall m | m in macs ensures m in r {
      assert m.value as int in values;
      var i :| 0 <= i < |sorted| && sorted[i] == m.value as int;
      assert r[i] == m;
    }
    forall m | m in r ensures m in macs {
      var i :| 0 <= i < |r| && r[i] == m;
      assert sorted[i] in values;
      var k :| k in macs && k.value as int == sorted[i];
      assert k == m;
    }
    assert KeyOrder.Distinct(r);
    KeyOrder.DistinctCardinality(r);
    assert (set m | m in r) == macs;
  }
}
