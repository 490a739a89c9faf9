/** WrIdEncoding: NIC, queue pair, handle and chunk index in one 64-bit work request id.
    Masks and shifts are written as remainders and products; the fields do not overlap. */
module WrIds {
  import opened Rings

  const NIC_SHIFT: nat := 0x100_0000_0000_0000
  const QP_SHIFT: nat := 0x1_0000_0000_0000
  const HANDLE_SHIFT: nat := 0x1_0000_0000
  const WORD: nat := 0x1_0000_0000_0000_0000

  function Encode(nic: nat, qp: nat, handle: nat, chunk: nat): nat {
    (nic % 0x100) * NIC_SHIFT + (qp % 0x100) * QP_SHIFT + (handle % 0x1_0000) * HANDLE_SHIFT + chunk % HANDLE_SHIFT
  }

  function DecodeNic(id: nat): nat {
    id / NIC_SHIFT % 0x100
  }

  function DecodeQp(id: nat): nat {
    id / QP_SHIFT % 0x100
  }

  function DecodeHandle(id: nat): nat {
    id / HANDLE_SHIFT % 0x1_0000
  }

  function DecodeChunk(id: nat): nat {
    id % HANDLE_SHIFT
  }

  // Encoding fits one word, and decoding gives back the fields cut to their widths.
  lemma DecodeEncode(nic: nat, qp: nat, handle: nat, chunk: nat)
    ensures var id := Encode(nic, qp, handle, chunk);
      && id < WORD
      && DecodeNic(id) == nic % 0x100 && DecodeQp(id) == qp % 0x100
      && DecodeHandle(id) == handle % 0x1_0000 && DecodeChunk(id) == chunk % HANDLE_SHIFT
  {
    Fields(nic % 0x100, qp % 0x100, handle % 0x1_0000, chunk % HANDLE_SHIFT);
  }

  lemma Fields(n: nat, q: nat, h: nat, c: nat)
    requires n < 0x100 && q < 0x100 && h < 0x1_0000 && c < HANDLE_SHIFT
    ensures var id := n * NIC_SHIFT + q * QP_SHIFT + h * HANDLE_SHIFT + c;
      id < WORD && DecodeNic(id) == n && DecodeQp(id) == q && DecodeHandle(id) == h && DecodeChunk(id) == c
  {
    var id := n * NIC_SHIFT + q * QP_SHIFT + h * HANDLE_SHIFT + c;
    DivUnique(id, n, q * QP_SHIFT + h * HANDLE_SHIFT + c, NIC_SHIFT);
    DivUnique(id, n * 0x100 + q, h * HANDLE_SHIFT + c, QP_SHIFT);
    DivUnique(n * 0x100 + q, n, q, 0x100);
    DivUnique(id, n * 0x100_0000 + q * 0x1_0000 + h, c, HANDLE_SHIFT);
    DivUnique(n * 0x100_0000 + q * 0x1_0000 + h, n * 0x100 + q, h, 0x1_0000);
  }

  // The round trip is exact iff every field fits its width.
  lemma RoundTripIff(nic: nat, qp: nat, handle: nat, chunk: nat)
    ensures var id := Encode(nic, qp, handle, chunk);
      (DecodeNic(id) == nic && DecodeQp(id) == qp && DecodeHandle(id) == handle && DecodeChunk(id) == chunk)
      <==> (nic < 0x100 && qp < 0x100 && handle <= 0xFFFF && chunk < HANDLE_SHIFT)
  {
    DecodeEncode(nic, qp, handle, chunk);
  }

  /* ---------- on machine words ---------- */

  // The shifts and masks as the code has them.
  function EncodeWord(nic: bv64, qp: bv64, handle: bv64, chunk: bv64): bv64 {
    ((nic & 0xFF) << 56) | ((qp & 0xFF) << 48) | ((handle & 0xFFFF) << 32) | (chunk & 0xFFFF_FFFF)
  }

  // No field reaches into another: decoding gives each back exactly iff it fits its width.
  lemma WordRoundTrip(nic: bv64, qp: bv64, handle: bv64, chunk: bv64)
    ensures var id := EncodeWord(nic, qp, handle, chunk);
      && ((id >> 56) & 0xFF == nic <==> nic <= 0xFF)
      && ((id >> 48) & 0xFF == qp <==> qp <= 0xFF)
      && ((id >> 32) & 0xFFFF == handle <==> handle <= 0xFFFF)
      && (id & 0xFFFF_FFFF == chunk <==> chunk <= 0xFFFF_FFFF)
  {
  }
}
