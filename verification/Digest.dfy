/**
 Domain-separated digests (`crates/ferrl/src/checkpoint.rs`, `domain_sha256`; the same function is in
 `crates/ferrl/src/artifact.rs`). The bytes fed to SHA-256 are length-prefixed fields; they determine
 the domain and every field. Nothing is assumed of SHA-256: results hold
 unless the two inputs at hand collide.
 */
module Digest {
  import opened Common

  type Byte = x: int | 0 <= x < 256

  /** A byte string whose length fits the `u64` prefix. */
  type Bytes = b: seq<Byte> | |b| <= U64_MAX witness []

  type Hash = seq<Byte> -> string

  /** Two different inputs with one hash. */
  predicate Clash(sha: Hash, a: seq<Byte>, b: seq<Byte>) {
    a != b && sha(a) == sha(b)
  }

  /** The low `k` bytes of `n`, least significant first. */
  function Le(n: nat, k: nat): (b: seq<Byte>)
    ensures |b| == k
  {
    if k == 0 then [] else [n % 256] + Le(n / 256, k - 1)
  }

  function FromLe(b: seq<Byte>): nat {
    if b == [] then 0 else b[0] + 256 * FromLe(b[1..])
  }

  function Pow256(k: nat): nat {
    if k == 0 then 1 else 256 * Pow256(k - 1)
  }

  lemma {:induction false} FromLeOfLe(n: nat, k: nat)
    requires n < Pow256(k)
    ensures FromLe(Le(n, k)) == n
  {
    if k > 0 {
      FromLeOfLe(n / 256, k - 1);
      assert Le(n, k)[1..] == Le(n / 256, k - 1);
    }
  }

  lemma EightBytes()
    ensures Pow256(8) == U64_MAX + 1
  {
    assert Pow256(2) == 0x1_0000;
    assert Pow256(4) == 0x1_0000_0000;
    assert Pow256(6) == 0x1_0000_0000_0000;
  }

  /** A length prefix is a little-endian `u64`. */
  function PrefixWidth(): (w: nat)
    ensures w == 8
  {
    8
  }

  function Prefix(n: U64): (b: seq<Byte>)
    ensures |b| == 8
  {
    Le(n, PrefixWidth())
  }

  lemma PrefixReads(n: U64)
    ensures FromLe(Prefix(n)) == n
  {
    EightBytes();
    FromLeOfLe(n, PrefixWidth());
  }

  lemma FourBytes(b: seq<Byte>)
    requires |b| >= 4
    ensures FromLe(b) == b[0] + 0x100 * b[1] + 0x1_0000 * b[2] + 0x100_0000 * b[3] + 0x1_0000_0000 * FromLe(b[4..])
  {
    assert FromLe(b) == b[0] + 256 * FromLe(b[1..]);
    assert b[1..][1..] == b[2..] && b[2..][1..] == b[3..] && b[3..][1..] == b[4..];
    assert FromLe(b[1..]) == b[1] + 256 * FromLe(b[2..]);
    assert FromLe(b[2..]) == b[2] + 256 * FromLe(b[3..]);
    assert FromLe(b[3..]) == b[3] + 256 * FromLe(b[4..]);
  }

  /** The least significant byte of a length comes first. */
  lemma PrefixIsLittleEndian(n: U64)
    ensures var b: seq<int> := Prefix(n);
            n == b[0] + 0x100 * b[1] + 0x1_0000 * b[2] + 0x100_0000 * b[3] + 0x1_0000_0000 * b[4]
                 + 0x100_0000_0000 * b[5] + 0x1_0000_0000_0000 * b[6] + 0x100_0000_0000_0000 * b[7]
  {
    var b := Prefix(n);
    PrefixReads(n);
    FourBytes(b);
    FourBytes(b[4..]);
    assert b[4..][4..] == [];
  }

  /** One field with its length in front, as eight little-endian bytes. */
  function Framed(b: Bytes): seq<Byte> {
    Prefix(|b|) + b
  }

  function Frames(fields: seq<Bytes>): seq<Byte> {
    if fields == [] then [] else Framed(fields[0]) + Frames(fields[1..])
  }

  function Preimage(domain: Bytes, fields: seq<Bytes>): seq<Byte> {
    Framed(domain) + Frames(fields)
  }

  /** Feed the domain and the fields to the hasher in order. */
  method FeedDomain(domain: Bytes, fields: seq<Bytes>) returns (fed: seq<Byte>)
    ensures fed == Preimage(domain, fields)
  {
    fed := Prefix(|domain|);
    fed := fed + domain;
    assert fields[0..] == fields;
    for i := 0 to |fields|
      invariant fed + Frames(fields[i..]) == Preimage(domain, fields)
    {
      ghost var before := fed;
      fed := fed + Prefix(|fields[i]|);
      fed := fed + fields[i];
      assert fields[i..][1..] == fields[i + 1..];
      assert fed == before + Framed(fields[i]);
      assert before + Frames(fields[i..]) == fed + Frames(fields[i + 1..]);
    }
    assert fields[|fields|..] == [];
  }

  /** Reading frames back: take a length, then that many bytes, until nothing is left. */
  function Unframe(b: seq<Byte>): Option<seq<Bytes>> {
    if b == [] then Some([])
    else if |b| < 8 then None
    else
      var n := FromLe(b[..8]);
      if n > U64_MAX || |b| < 8 + n then None
      else
        var rest := Unframe(b[8 + n..]);
        if rest.None? then None else Some([b[8..8 + n]] + rest.value)
  }

  lemma {:induction false} UnframeFrames(fields: seq<Bytes>)
    ensures Unframe(Frames(fields)) == Some(fields)
  {
    if fields != [] {
      var first, b := fields[0], Frames(fields);
      PrefixReads(|first|);
      UnframeFrames(fields[1..]);
      assert b[..8] == Prefix(|first|);
      assert b[8..8 + |first|] == first;
      assert b[8 + |first|..] == Frames(fields[1..]);
      assert [first] + fields[1..] == fields;
    }
  }

  /** The preimage determines the domain and the fields, their number and their boundaries. */
  lemma PreimageInjective(d: Bytes, fs: seq<Bytes>, e: Bytes, gs: seq<Bytes>)
    requires Preimage(d, fs) == Preimage(e, gs)
    ensures d == e && fs == gs
  {
    UnframeFrames([d] + fs);
    UnframeFrames([e] + gs);
    assert ([d] + fs)[1..] == fs && ([e] + gs)[1..] == gs;
    assert [d] + fs == [e] + gs;
    assert ([d] + fs)[0] == ([e] + gs)[0];
  }

  function DomainSha256(sha: Hash, domain: Bytes, fields: seq<Bytes>): string {
    sha(Preimage(domain, fields))
  }

  /** Equal digests mean equal domains and fields, or a collision of exactly these two inputs. */
  lemma DigestIdentifies(sha: Hash, d: Bytes, fs: seq<Bytes>, e: Bytes, gs: seq<Bytes>)
    requires DomainSha256(sha, d, fs) == DomainSha256(sha, e, gs)
    ensures (d == e && fs == gs) || Clash(sha, Preimage(d, fs), Preimage(e, gs))
  {
    if Preimage(d, fs) == Preimage(e, gs) {
      PreimageInjective(d, fs, e, gs);
    }
  }
}
