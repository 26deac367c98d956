/**
 * Host device names derived from ids: a three-letter prefix glued to the id and cut to
 * the interface-name limit.
 */
module VifNames {
  import opened Outcomes
  import opened NetworkModel

  /** `(prefix + id)[:n]`, the shape of every derived device name. */
  function PrefixedName(prefix: string, id: string, n: NameLen): (r: string)
    requires |prefix| == 3
    ensures |r| == if |prefix| + |id| <= n then |prefix| + |id| else n
    ensures r[..3] == prefix
    ensures r == (prefix + id)[..|r|]
  {
    Truncate(prefix + id, n)
  }

  /** The tap device of a VIF: its own `devname`, or one made from its id. */
  function VifDevname(vif: Vif, n: NameLen): (r: string)
    ensures vif.devname.Some? ==> r == vif.devname.value
    ensures vif.devname.None? ==>
              |r| == (if 3 + |vif.id| <= n then 3 + |vif.id| else n) && r == ("nic" + vif.id)[..|r|]
  {
    if vif.devname.Some? then vif.devname.value else PrefixedName("nic", vif.id, n)
  }

  /** The per-VIF Linux bridge of the hybrid OVS strategy. */
  function BrName(ifaceId: string, n: NameLen): (r: string)
    ensures |r| == (if 3 + |ifaceId| <= n then 3 + |ifaceId| else n) && r == ("qbr" + ifaceId)[..|r|]
  {
    PrefixedName("qbr", ifaceId, n)
  }

  /** The two ends of the veth pair linking the per-VIF bridge to Open vSwitch. */
  function VethPairNames(ifaceId: string, n: NameLen): (r: (string, string))
    ensures |r.0| == |r.1| == (if 3 + |ifaceId| <= n then 3 + |ifaceId| else n)
    ensures r.0 == ("qvb" + ifaceId)[..|r.0|] && r.1 == ("qvo" + ifaceId)[..|r.1|]
    ensures r.0 != r.1
  {
    DistinctPrefixesNeverCollide("qvb", "qvo", ifaceId, ifaceId, n);
    (PrefixedName("qvb", ifaceId, n), PrefixedName("qvo", ifaceId, n))
  }

  /** The bridge QuantumLinuxBridgeVIFDriver falls back to for a network. */
  function QuantumBridgeName(networkId: string, n: NameLen): (r: string)
    ensures |r| == (if 3 + |networkId| <= n then 3 + |networkId| else n) && r == ("brq" + networkId)[..|r|]
  {
    PrefixedName("brq", networkId, n)
  }

  /** Names with different prefixes never coincide, whatever the ids. */
  lemma DistinctPrefixesNeverCollide(p: string, q: string, a: string, b: string, n: NameLen)
    requires |p| == 3 && |q| == 3 && p != q
    ensures PrefixedName(p, a, n) != PrefixedName(q, b, n)
  {
    var x, y := PrefixedName(p, a, n), PrefixedName(q, b, n);
    assert x[..3] == p && y[..3] == q;
  }

  /** Ids short enough to escape truncation get distinct names. */
  lemma {:induction false} ShortIdsGetDistinctNames(prefix: string, a: string, b: string, n: NameLen)
    requires |prefix| == 3 && |a| + 3 <= n && |b| + 3 <= n && a != b
    ensures PrefixedName(prefix, a, n) != PrefixedName(prefix, b, n)
  {
    var x, y := PrefixedName(prefix, a, n), PrefixedName(prefix, b, n);
    assert x == prefix + a && y == prefix + b;
    assert x[3..] == a && y[3..] == b;
  }

  /** A name depends only on the first n - 3 characters of the id: longer ids that share
      them share the name. */
  lemma {:induction false} NameDependsOnIdPrefixOnly(prefix: string, a: string, b: string, n: NameLen)
    requires |prefix| == 3 && n - 3 <= |a| && n - 3 <= |b| && a[..n - 3] == b[..n - 3]
    ensures PrefixedName(prefix, a, n) == PrefixedName(prefix, b, n)
  {
    var x, y := PrefixedName(prefix, a, n), PrefixedName(prefix, b, n);
    assert |x| == n && |y| == n;
    forall i | 0 <= i < n ensures x[i] == y[i] {
      if i >= 3 {
        assert x[i] == (prefix + a)[i] == a[i - 3] == a[..n - 3][i - 3];
        assert y[i] == (prefix + b)[i] == b[i - 3] == b[..n - 3][i - 3];
      }
    }
  }

  /** The three devices of the hybrid strategy are pairwise distinct. */
  lemma HybridDevicesDistinct(ifaceId: string, n: NameLen)
    ensures BrName(ifaceId, n) != VethPairNames(ifaceId, n).0
    ensures BrName(ifaceId, n) != VethPairNames(ifaceId, n).1
    ensures VethPairNames(ifaceId, n).0 != VethPairNames(ifaceId, n).1
  {
    DistinctPrefixesNeverCollide("qbr", "qvb", ifaceId, ifaceId, n);
    DistinctPrefixesNeverCollide("qbr", "qvo", ifaceId, ifaceId, n);
  }
}
