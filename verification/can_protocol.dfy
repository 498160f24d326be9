/**
 * The CAN frame helper (weapon/protocols/can.py): a 4-byte big-endian
 * identifier followed by at most 8 data bytes.
 */
module CanProtocol {
  import opened Common

  const MaxData: nat := 8

  function MinNat(a: nat, b: nat): nat { if a <= b then a else b }

  /** pack(id_, data): int.to_bytes raises OverflowError unless 0 <= id < 2^32. */
  function Pack(id: int, data: seq<Byte>): (r: Result<seq<Byte>>)
    ensures r.Ok? <==> IsU32(id)
    ensures r.Fail? ==> r.error == OverflowError
    ensures r.Ok? ==> |r.value| == 4 + MinNat(MaxData, |data|)
    ensures r.Ok? ==> r.value[4..] == data[..MinNat(MaxData, |data|)]
  {
    if IsU32(id) then Ok(ToBE(id, 4) + data[..MinNat(MaxData, |data|)]) else Fail(OverflowError)
  }

  datatype Frame = Frame(id: nat, data: seq<Byte>)

  /** unpack(frame): the first (up to) four bytes as a big-endian number, and the rest. */
  function Unpack(frame: seq<Byte>): (r: Frame)
    ensures r.id < 0x1_0000_0000
  {
    var k := MinNat(4, |frame|);
    FromBEBound(frame[..k]);
    assert Pow256(k) <= Pow256(4) by {
      Pow256Grows(k, 4);
    }
    Frame(FromBE(frame[..k]), frame[k..])
  }

  lemma {:induction false} Pow256Grows(a: nat, b: nat)
    requires a <= b
    ensures Pow256(a) <= Pow256(b)
    decreases b
  {
    if a < b {
      Pow256Grows(a, b - 1);
    }
  }

  /** unpack splits any frame at byte 4: identifier bytes and data reassemble the frame. */
  lemma UnpackSplits(frame: seq<Byte>)
    ensures |frame| >= 4 ==> ToBE(Unpack(frame).id, 4) + Unpack(frame).data == frame
    ensures |frame| <= 4 ==> Unpack(frame).data == []
  {
    if |frame| >= 4 {
      ToBEFromBE(frame[..4]);
      assert frame[..4] + frame[4..] == frame;
    }
  }

  /** unpack(pack(id, data)) == (id, data[:8]) for every identifier pack accepts. */
  lemma UnpackPack(id: int, data: seq<Byte>)
    requires IsU32(id)
    ensures Unpack(Pack(id, data).value) == Frame(id, data[..MinNat(MaxData, |data|)])
  {
    var f := Pack(id, data).value;
    assert f[..4] == ToBE(id, 4);
  }

  /** pack(unpack(frame)) == frame for frames of 4 to 12 bytes. */
  lemma PackUnpack(frame: seq<Byte>)
    requires 4 <= |frame| <= 4 + MaxData
    ensures Pack(Unpack(frame).id, Unpack(frame).data) == Ok(frame)
  {
    UnpackSplits(frame);
    var u := Unpack(frame);
    assert u.data[..MinNat(MaxData, |u.data|)] == u.data;
  }
}
