/** The padding router used to drive the pacer: it answers a padding request with whole
 *  224-byte padding packets and keeps the running total of padding it produced. */
module PaddingRouter {

  const kPaddingPacketSize: nat := 224

  /** The padding produced for a request: whole padding packets covering the request. */
  function PaddingFor(bytes: nat): nat
  {
    kPaddingPacketSize * ((bytes + kPaddingPacketSize - 1) / kPaddingPacketSize)
  }

  /** PaddingFor is the smallest multiple of the padding packet size that covers the request. */
  lemma PaddingForIsLeastCover(bytes: nat, m: nat)
    ensures PaddingFor(bytes) % kPaddingPacketSize == 0
    ensures bytes <= PaddingFor(bytes) < bytes + kPaddingPacketSize
    ensures m % kPaddingPacketSize == 0 && m >= bytes ==> m >= PaddingFor(bytes)
  {
    var n := (bytes + 223) / 224;
    var r := (bytes + 223) % 224;
    assert bytes + 223 == 224 * n + r;
    assert PaddingFor(bytes) == 224 * n;
    if m % 224 == 0 && m >= bytes {
      var k := m / 224;
      assert m == 224 * k;
    }
  }

  class PacedSenderPadding {
    var paddingSent: nat

    constructor()
      ensures paddingSent == 0
    {
      paddingSent := 0;
    }

    method TimeToSendPadding(bytes: nat) returns (sent: nat)
      modifies this
      ensures sent == PaddingFor(bytes)
      ensures paddingSent == old(paddingSent) + sent
    {
      var numPackets := (bytes + kPaddingPacketSize - 1) / kPaddingPacketSize;
      sent := kPaddingPacketSize * numPackets;
      paddingSent := paddingSent + sent;
    }
  }
}
