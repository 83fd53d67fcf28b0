/**
  The memory layout of arm64 (little endian, natural alignment) for the structs of an image.
 */
module ImageAbi {
  import opened Wrappers
  import opened ImageFormat

  function Pow256(k: nat): (p: nat)
    ensures p >= 1
  {
    if k == 0 then 1 else 256 * Pow256(k - 1)
  }

  function ToBytes(n: nat, k: nat): (bs: seq<byte>)
    ensures |bs| == k
  {
    if k == 0 then [] else [(n % 256) as byte] + ToBytes(n / 256, k - 1)
  }

  function FromBytes(bs: seq<byte>): nat {
    if bs == [] then 0 else bs[0] as nat + 256 * FromBytes(bs[1..])
  }

  lemma {:induction false} NumberRoundTrip(n: nat, k: nat)
    requires n < Pow256(k)
    ensures FromBytes(ToBytes(n, k)) == n
  {
    if k > 0 {
      NumberRoundTrip(n / 256, k - 1);
      assert ToBytes(n, k)[1..] == ToBytes(n / 256, k - 1);
    }
  }

  lemma Widths()
    ensures Pow256(1) == 256 && Pow256(4) == 0x1_0000_0000 && Pow256(8) == 0x1_0000_0000_0000_0000
  {
    assert Pow256(2) == 256 * Pow256(1) && Pow256(3) == 256 * Pow256(2) && Pow256(4) == 256 * Pow256(3);
    assert Pow256(5) == 256 * Pow256(4) && Pow256(6) == 256 * Pow256(5);
    assert Pow256(7) == 256 * Pow256(6) && Pow256(8) == 256 * Pow256(7);
  }

  /** The numbers of a struct one after the other, each in its own width. */
  function PrintFields(ns: seq<nat>, ws: seq<nat>): (bs: seq<byte>)
    requires |ns| == |ws|
    ensures |bs| == Total(ws)
  {
    if ns == [] then [] else ToBytes(ns[0], ws[0]) + PrintFields(ns[1..], ws[1..])
  }

  function ParseFields(bs: seq<byte>, ws: seq<nat>): (ns: seq<nat>)
    requires |bs| == Total(ws)
    ensures |ns| == |ws|
  {
    if ws == [] then [] else [FromBytes(bs[..ws[0]])] + ParseFields(bs[ws[0]..], ws[1..])
  }

  function Total(ws: seq<nat>): nat { if ws == [] then 0 else ws[0] + Total(ws[1..]) }

  lemma {:induction false} FieldsRoundTrip(ns: seq<nat>, ws: seq<nat>)
    requires |ns| == |ws| && forall i :: 0 <= i < |ns| ==> ns[i] < Pow256(ws[i])
    ensures ParseFields(PrintFields(ns, ws), ws) == ns
  {
    if ns != [] {
      var head, tail := ToBytes(ns[0], ws[0]), PrintFields(ns[1..], ws[1..]);
      assert (head + tail)[..ws[0]] == head && (head + tail)[ws[0]..] == tail;
      NumberRoundTrip(ns[0], ws[0]);
      FieldsRoundTrip(ns[1..], ws[1..]);
    }
  }

  /** struct xnd_vm_region: the last field is padding. */
  function Layout(): seq<nat> { [8, 8, 4, 4, 4, 4, 4, 4, 1, 7] }

  lemma LayoutLen()
    ensures Total(Layout()) == REGION_LEN
  {
    var ws := Layout();
    assert ws[8..] == [1, 7] && Total([7]) == 7 && [1, 7][1..] == [7];
    assert ws[7..][1..] == ws[8..] && ws[6..][1..] == ws[7..] && ws[5..][1..] == ws[6..] && ws[4..][1..] == ws[5..];
    assert ws[3..][1..] == ws[4..] && ws[2..][1..] == ws[3..] && ws[1..][1..] == ws[2..];
  }

  function Fields(r: Region): seq<nat> {
    [r.start, r.size, r.inherit, r.prot, r.maxProt, r.mode, r.tag, r.pagesDirtied, if r.dirtyOnly then 1 else 0, 0]
  }

  function PrintRegion(r: Region): seq<byte> { PrintFields(Fields(r), Layout()) }

  function FromFields(ns: seq<nat>): Region
    requires |ns| == 10
  {
    Region(ns[0], ns[1], ns[2], ns[3], ns[4], ns[5], ns[6], ns[7], ns[8] != 0)
  }

  function ParseRegion(bs: seq<byte>): Region {
    if |bs| != Total(Layout()) then Region(0, 0, 0, 0, 0, 0, 0, 0, false)
    else FromFields(ParseFields(bs, Layout()))
  }

  lemma FromFieldsOf(r: Region)
    ensures FromFields(Fields(r)) == r
  {}

  lemma RegionRoundTrip(r: Region)
    ensures |PrintRegion(r)| == REGION_LEN
    ensures Fits(r) ==> ParseRegion(PrintRegion(r)) == r
  {
    LayoutLen();
    if Fits(r) {
      Widths();
      FieldsRoundTrip(Fields(r), Layout());
      FromFieldsOf(r);
    }
  }

  function Arm64(): Abi {
    Abi(r => PrintRegion(r), bs => ParseRegion(bs),
        (n: nat) => ToBytes(n, WORD_LEN), bs => FromBytes(bs),
        (n: nat) => ToBytes(n, KIND_LEN), bs => FromBytes(bs))
  }

  /** What ImageFormat assumes of the layout of structs holds. */
  lemma Arm64IsLawful()
    ensures Lawful(Arm64())
  {
    Widths();
    forall r: Region
      ensures |Arm64().region(r)| == REGION_LEN && (Fits(r) ==> Arm64().regionOf(Arm64().region(r)) == r)
    {
      RegionRoundTrip(r);
    }
    forall n: nat
      ensures |Arm64().word(n)| == WORD_LEN && (U64(n) ==> Arm64().wordOf(Arm64().word(n)) == n)
      ensures |Arm64().kind(n)| == KIND_LEN && (U32(n) ==> Arm64().kindOf(Arm64().kind(n)) == n)
    {
      if U64(n) { NumberRoundTrip(n, 8); }
      if U32(n) { NumberRoundTrip(n, 4); }
    }
  }
}
