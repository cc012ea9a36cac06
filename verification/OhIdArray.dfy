/** The OpenHome id array: 32-bit ids, most significant byte first, under base64. */
module OhIdArray {
  import opened Base64

  type Id = bv32

  function BigEndian(id: Id): (r: seq<Byte>)
    ensures |r| == 4
  {
    [((id >> 24) & 0xff) as Byte, ((id >> 16) & 0xff) as Byte, ((id >> 8) & 0xff) as Byte, (id & 0xff) as Byte]
  }

  /** How the array is written. */
  function Written(ids: seq<Id>): (r: seq<Byte>)
    ensures |r| == 4 * |ids|
  {
    if ids == [] then [] else BigEndian(ids[0]) + Written(ids[1..])
  }

  /** ntohl. */
  function FromBytes(a: Byte, b: Byte, c: Byte, d: Byte): Id {
    ((a as Id) << 24) | ((b as Id) << 16) | ((c as Id) << 8) | (d as Id)
  }

  function IdAt(data: seq<Byte>, at: nat): Id
    requires at + 4 <= |data|
  {
    FromBytes(data[at], data[at + 1], data[at + 2], data[at + 3])
  }

  lemma JoinedBytes(a: Byte, b: Byte, c: Byte, d: Byte)
    ensures (((a as Id) << 24) | ((b as Id) << 16) | ((c as Id) << 8) | (d as Id)) as int ==
            0x100_0000 * (a as int) + 0x1_0000 * (b as int) + 0x100 * (c as int) + d as int
  {
  }

  /** The id as a number: its first byte is the high-order one. */
  lemma IdIsNumber(data: seq<Byte>, at: nat)
    requires at + 4 <= |data|
    ensures IdAt(data, at) as int == 0x100_0000 * (data[at] as int) + 0x1_0000 * (data[at + 1] as int) +
                                     0x100 * (data[at + 2] as int) + data[at + 3] as int
  {
    JoinedBytes(data[at], data[at + 1], data[at + 2], data[at + 3]);
  }

  lemma BigEndianBytes(id: Id)
    ensures ((((id >> 24) & 0xff) as Byte as Id) << 24) | ((((id >> 16) & 0xff) as Byte as Id) << 16) |
            ((((id >> 8) & 0xff) as Byte as Id) << 8) | ((id & 0xff) as Byte as Id) == id
  {
  }

  lemma IdOfBigEndian(id: Id)
    ensures IdAt(BigEndian(id), 0) == id
  {
    BigEndianBytes(id);
  }

  lemma {:induction false} IdAtWritten(ids: seq<Id>, k: nat)
    requires k < |ids|
    ensures IdAt(Written(ids), 4 * k) == ids[k]
  {
    hide BigEndian, IdAt;
    if k == 0 {
      IdOfBigEndian(ids[0]);
      SameBytes(Written(ids), 0, BigEndian(ids[0]), 0);
    } else {
      IdAtWritten(ids[1..], k - 1);
      SameBytes(Written(ids), 4 * k, Written(ids[1..]), 4 * (k - 1));
    }
  }

  lemma SameBytes(a: seq<Byte>, i: nat, b: seq<Byte>, j: nat)
    requires i + 4 <= |a| && j + 4 <= |b| && a[i..i + 4] == b[j..j + 4]
    ensures IdAt(a, i) == IdAt(b, j)
  {
    hide FromBytes;
    var u, v := a[i..i + 4], b[j..j + 4];
    assert u[0] == a[i] && u[1] == a[i + 1] && u[2] == a[i + 2] && u[3] == a[i + 3];
    assert v[0] == b[j] && v[1] == b[j + 1] && v[2] == b[j + 2] && v[3] == b[j + 3];
  }

  /** The ids in a byte string; up to three bytes at the end are ignored. */
  function IdsIn(data: seq<Byte>): (ids: seq<Id>)
    ensures |ids| == |data| / 4
  {
    seq(|data| / 4, k requires 0 <= k < |data| / 4 => IdAt(data, 4 * k))
  }

  /** ohplIdArrayToVec, the ids being appended to those the caller's vector holds already.
      When the text does not decode the vector is left alone. */
  method IdArrayToVec(text: seq<Byte>, vec: seq<Id>) returns (ok: bool, ids: seq<Id>)
    ensures ok <==> Decoded(text).Some?
    ensures ids == vec + (if ok then IdsIn(Decoded(text).value) else [])
  {
    hide Decoded, IdAt;
    var decoded, data := Decode(text);
    ids := vec;
    if !decoded {
      return false, ids;
    }
    var cp := 0;
    while cp <= |data| - 4
      invariant 0 <= cp <= |data| && cp % 4 == 0
      invariant ids == vec + IdsIn(data)[..cp / 4]
    {
      ids := ids + [IdAt(data, cp)];
      assert IdsIn(data)[..cp / 4 + 1] == IdsIn(data)[..cp / 4] + [IdsIn(data)[cp / 4]];
      cp := cp + 4;
    }
    assert IdsIn(data)[..cp / 4] == IdsIn(data);
    ok := true;
  }

  /** Any ids, written big-endian, encoded, and with blanks added, come back as they were. */
  lemma IdsRoundTrip(ids: seq<Id>, text: seq<Byte>)
    requires Stripped(text) == Rfc4648(Written(ids))
    ensures Decoded(text).Some? && IdsIn(Decoded(text).value) == ids
  {
    hide IdAt, BigEndian, Decoded, Stripped, Rfc4648;
    RoundTrip(Written(ids), text);
    forall k | 0 <= k < |ids| ensures IdsIn(Written(ids))[k] == ids[k] {
      IdAtWritten(ids, k);
    }
  }
}
