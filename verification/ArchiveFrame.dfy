/** The binary frame around a manifest and an archive, before encryption. */
module ArchiveFrame {
  import opened Prelude
  import opened Bytes

  const MAX_ARCHIVE := 8 * 1024 * 1024
  const MAX_MANIFEST := 1024 * 1024
  const HEADER: nat := 88

  /** A longer part has no eight-byte length and cannot be packed. */
  const LIMIT_64 := 0x1_0000_0000_0000_0000

  /** `FCD4AGE1`. */
  const MAGIC: ByteString := [0x46, 0x43, 0x44, 0x34, 0x41, 0x47, 0x45, 0x31]

  function Frame(sha: ByteString -> ByteString, manifest: ByteString, archive: ByteString): ByteString {
    MAGIC + BigEndian(|manifest|, 8) + BigEndian(|archive|, 8) + sha(manifest) + sha(archive) + manifest + archive
  }

  /** The archive and the manifest of a payload, or a refusal. */
  function Unframe(sha: ByteString -> ByteString, payload: ByteString): Option<(ByteString, ByteString)> {
    if |payload| < HEADER || payload[..8] != MAGIC then None
    else
      var m, a := FromBigEndian(payload[8..16]), FromBigEndian(payload[16..24]);
      if m > MAX_MANIFEST || a > MAX_ARCHIVE || |payload| != HEADER + m + a then None
      else
        var manifest, archive := payload[HEADER..HEADER + m], payload[HEADER + m..];
        if sha(manifest) != payload[24..56] || sha(archive) != payload[56..88] then None
        else Some((archive, manifest))
  }

  lemma FrameParts(sha: ByteString -> ByteString, manifest: ByteString, archive: ByteString)
    requires forall b :: |sha(b)| == 32
    ensures var f := Frame(sha, manifest, archive);
            && |f| == HEADER + |manifest| + |archive|
            && f[..8] == MAGIC && f[8..16] == BigEndian(|manifest|, 8) && f[16..24] == BigEndian(|archive|, 8)
            && f[24..56] == sha(manifest) && f[56..88] == sha(archive)
            && f[88..88 + |manifest|] == manifest && f[88 + |manifest|..] == archive
  {
    hide BigEndian;
    var rest := sha(manifest) + sha(archive) + manifest + archive;
    var f := Frame(sha, manifest, archive);
    assert f == MAGIC + BigEndian(|manifest|, 8) + BigEndian(|archive|, 8) + rest;
    assert f[24..] == rest;
    assert rest[..32] == sha(manifest) && rest[32..64] == sha(archive);
    assert rest[64..64 + |manifest|] == manifest && rest[64 + |manifest|..] == archive;
    assert f[24..56] == rest[..32] && f[56..88] == rest[32..64];
    assert f[88..88 + |manifest|] == rest[64..64 + |manifest|] && f[88 + |manifest|..] == rest[64 + |manifest|..];
  }

  /** Unframing a frame returns its parts exactly when both are within their limits. */
  lemma UnframeOfFrame(sha: ByteString -> ByteString, manifest: ByteString, archive: ByteString)
    requires forall b :: |sha(b)| == 32
    requires |manifest| < LIMIT_64 && |archive| < LIMIT_64
    ensures Unframe(sha, Frame(sha, manifest, archive))
         == if |manifest| <= MAX_MANIFEST && |archive| <= MAX_ARCHIVE then Some((archive, manifest)) else None
  {
    FrameParts(sha, manifest, archive);
    DecodeSize(|manifest|);
    DecodeSize(|archive|);
    hide Frame, BigEndian, FromBigEndian;
  }

  lemma DecodeSize(n: nat)
    requires n < LIMIT_64
    ensures FromBigEndian(BigEndian(n, 8)) == n
  {
    assert Pow256(4) == 256 * Pow256(3) == 65536 * Pow256(2) == 0x1_0000_0000;
    assert Pow256(8) == 256 * Pow256(7) == 65536 * Pow256(6) == 0x100_0000 * Pow256(5) == 0x1_0000_0000 * Pow256(4);
    DecodeBigEndian(n, 8);
  }

  lemma Pieces(s: ByteString, m: nat)
    requires |s| >= 88 + m
    ensures s == s[..8] + s[8..16] + s[16..24] + s[24..56] + s[56..88] + s[88..88 + m] + s[88 + m..]
  {
    assert s[..16] == s[..8] + s[8..16];
    assert s[..24] == s[..16] + s[16..24];
    assert s[..56] == s[..24] + s[24..56];
    assert s[..88] == s[..56] + s[56..88];
    assert s[..88 + m] == s[..88] + s[88..88 + m];
    assert s == s[..88 + m] + s[88 + m..];
  }

  /** Whatever is accepted is exactly the frame of what was returned, so no two payloads unframe alike. */
  lemma FrameOfUnframe(sha: ByteString -> ByteString, payload: ByteString)
    requires Unframe(sha, payload).Some?
    ensures var (archive, manifest) := Unframe(sha, payload).value;
            && Frame(sha, manifest, archive) == payload
            && |manifest| <= MAX_MANIFEST && |archive| <= MAX_ARCHIVE
  {
    var (archive, manifest) := Unframe(sha, payload).value;
    EncodeBigEndian(payload[8..16]);
    EncodeBigEndian(payload[16..24]);
    Pieces(payload, |manifest|);
    assert manifest == payload[88..88 + |manifest|] && archive == payload[88 + |manifest|..];
    hide BigEndian, FromBigEndian, Unframe;
  }
}
