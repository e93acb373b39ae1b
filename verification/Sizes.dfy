/** Size arithmetic on int64 (pkg/util/util.go, pkg/util/jsonrpc.go). */
module Sizes {

  const MI: int := 0x10_0000
  const TWO_63: int := 0x8000_0000_0000_0000
  const TWO_64: int := 0x1_0000_0000_0000_0000

  type Int64 = x: int | -0x8000_0000_0000_0000 <= x < 0x8000_0000_0000_0000

  /** Two's complement. */
  function Wrap(x: int): Int64 {
    (x + TWO_63) % TWO_64 - TWO_63
  }

  lemma Product(a: int, b: int)
    requires a >= 0 && b >= 0
    ensures a * b >= 0
  {
  }

  lemma Scale(q: int, b: int)
    requires b > 1
    ensures q >= 0 ==> q <= q * b
    ensures q < 0 ==> q * b <= -b
  {
  }

  lemma DivBounds(a: nat, b: int)
    requires b > 1
    ensures 0 <= a / b <= a && a / b * b <= a < a / b * b + b
  {
    var q, r := a / b, a % b;
    assert a == q * b + r;
    Scale(q, b);
  }

  function Magnitude(a: int): nat { if a >= 0 then a else -a }

  /** Go's division truncates toward zero. */
  function Quot(a: Int64, b: int): (q: Int64)
    requires b > 1
    ensures a >= 0 ==> q >= 0 && q * b <= a < q * b + b
    ensures a < 0 ==> q <= 0 && q * b - b < a <= q * b
  {
    DivBounds(Magnitude(a), b);
    if a >= 0 then a / b else -(Magnitude(a) / b)
  }

  function ToMiB(bytes: Int64): Int64 {
    Quot(Wrap(bytes + MI - 1), MI)
  }

  function ClustersToMiB(clusters: Int64, clusterSize: Int64): Int64 {
    Quot(Quot(Wrap(clusters * clusterSize), 1024), 1024)
  }

  /** The size field of bdev_lvol_create. */
  function SizeSent(sizeMiB: Int64): Int64 {
    Wrap(Wrap(sizeMiB * 1024) * 1024)
  }

  // ---------------------------------------------------------------------

  lemma WrapFits(x: int)
    requires -TWO_63 <= x < TWO_63
    ensures Wrap(x) == x
  {
  }

  lemma WrapOver(x: int)
    requires TWO_63 <= x < TWO_63 + TWO_64
    ensures Wrap(x) == x - TWO_64
  {
  }

  /** Rounding up to MiB and back to bytes is exact rounding up, exactly when the addition does not overflow. */
  lemma RoundUp(bytes: Int64)
    requires bytes >= 0
    ensures bytes <= TWO_63 - MI ==>
              bytes <= SizeSent(ToMiB(bytes)) < bytes + MI && SizeSent(ToMiB(bytes)) == ToMiB(bytes) * MI
    ensures bytes > TWO_63 - MI ==> SizeSent(ToMiB(bytes)) < 0
  {
    var up := bytes + MI - 1;
    if bytes <= TWO_63 - MI {
      WrapFits(up);
      var m := ToMiB(bytes);
      WrapFits(m * 1024);
      WrapFits(m * 1024 * 1024);
    } else {
      WrapOver(up);
      var m := ToMiB(bytes);
      WrapFits(m * 1024);
      WrapFits(m * 1024 * 1024);
    }
  }

  lemma QuotTwice(a: Int64)
    ensures Quot(Quot(a, 1024), 1024) == Quot(a, MI)
  {
  }

  /** The reported size never exceeds the store's, and is its size in whole MiB exactly when the product fits. */
  lemma ReportedSize(clusters: Int64, clusterSize: Int64)
    requires clusters >= 0 && clusterSize >= 0
    ensures var bytes, reported := clusters * clusterSize, ClustersToMiB(clusters, clusterSize);
            && bytes >= 0
            && (reported > 0 ==> reported * MI <= bytes)
            && (reported == bytes / MI <==> bytes < TWO_63)
  {
    var bytes := clusters * clusterSize;
    Product(clusters, clusterSize);
    QuotTwice(Wrap(bytes));
    ReportedBytes(bytes);
  }

  lemma ReportedBytes(bytes: int)
    requires bytes >= 0
    ensures var reported := Quot(Wrap(bytes), MI);
            (reported > 0 ==> reported * MI <= bytes) && (reported == bytes / MI <==> bytes < TWO_63)
  {
  }

  /** A request that passes the free-space test yields a volume that is large enough, tight, and fits the store. */
  lemma SizesCompose(bytes: Int64, freeClusters: Int64, clusterSize: Int64)
    requires 0 <= bytes <= TWO_63 - MI && freeClusters >= 0 && clusterSize >= 0
    requires ToMiB(bytes) <= ClustersToMiB(freeClusters, clusterSize)
    ensures var size := SizeSent(ToMiB(bytes));
            bytes <= size < bytes + MI && size <= freeClusters * clusterSize
  {
    RoundUp(bytes);
    ReportedSize(freeClusters, clusterSize);
    var m, free := ToMiB(bytes), ClustersToMiB(freeClusters, clusterSize);
    if m > 0 {
      assert m * MI <= free * MI;
    }
  }

  // ---------------------------------------------------------------------

  datatype Report = Report(freeClusters: Int64, clusterSize: Int64, totalClusters: Int64, name: string, uuid: string)

  datatype LvStore = LvStore(name: string, uuid: string, totalSizeMiB: Int64, freeSizeMiB: Int64)

  /** Every store is reported, in order, with no more MiB than it has. */
  method LvStores(result: seq<Report>) returns (lvs: array<LvStore>)
    ensures fresh(lvs) && lvs.Length == |result|
    ensures forall k :: 0 <= k < |result| ==>
              && lvs[k].name == result[k].name && lvs[k].uuid == result[k].uuid
              && lvs[k].totalSizeMiB == ClustersToMiB(result[k].totalClusters, result[k].clusterSize)
              && lvs[k].freeSizeMiB == ClustersToMiB(result[k].freeClusters, result[k].clusterSize)
  {
    lvs := new LvStore[|result|](_ => LvStore("", "", 0, 0));
    for i := 0 to |result|
      invariant forall k :: 0 <= k < i ==>
                  && lvs[k].name == result[k].name && lvs[k].uuid == result[k].uuid
                  && lvs[k].totalSizeMiB == ClustersToMiB(result[k].totalClusters, result[k].clusterSize)
                  && lvs[k].freeSizeMiB == ClustersToMiB(result[k].freeClusters, result[k].clusterSize)
    {
      var r := result[i];
      lvs[i] := lvs[i].(name := r.name);
      lvs[i] := lvs[i].(uuid := r.uuid);
      lvs[i] := lvs[i].(totalSizeMiB := Quot(Quot(Wrap(r.totalClusters * r.clusterSize), 1024), 1024));
      lvs[i] := lvs[i].(freeSizeMiB := Quot(Quot(Wrap(r.freeClusters * r.clusterSize), 1024), 1024));
    }
  }
}
