/**
 What the checks of an ordinary checkpoint (`crates/ferrl/src/checkpoint.rs`) come to, field by field: which
 manifests can be read, which packages are accepted, what a digest field looks like, and that digests of
 different kinds of payload are never comparable.
 */
module PackageMeaning {
  import opened Common
  import opened Digest
  import opened CheckpointPackage

  // ---------------------------------------------------------------------------
  // Digest fields
  // ---------------------------------------------------------------------------

  function Nibble(d: nat): (ch: char)
    requires d < 16
  {
    if d < 10 then '0' + d as char else 'a' + (d - 10) as char
  }

  /** Lower-case hexadecimal, two digits a byte. */
  function Hex(b: seq<Byte>): (s: string)
    ensures |s| == 2 * |b|
  {
    if b == [] then "" else [Nibble(b[0] / 16), Nibble(b[0] % 16)] + Hex(b[1..])
  }

  function NibbleValue(ch: char): (d: nat)
    requires IsHexDigit(ch)
    ensures d < 16 && Nibble(d) == ch
  {
    if ch <= '9' then ch as int - '0' as int else ch as int - 'a' as int + 10
  }

  lemma {:induction false} HexDigits(b: seq<Byte>, i: nat)
    requires i < |Hex(b)|
    ensures IsHexDigit(Hex(b)[i])
    decreases |b|
  {
    if i >= 2 {
      HexDigits(b[1..], i - 2);
    }
  }

  lemma {:induction false} HexOf(s: string) returns (b: seq<Byte>)
    requires |s| % 2 == 0 && forall i :: 0 <= i < |s| ==> IsHexDigit(s[i])
    ensures Hex(b) == s
    decreases |s|
  {
    if s == "" {
      b := [];
    } else {
      var high, low := NibbleValue(s[0]), NibbleValue(s[1]);
      var first: Byte := 16 * high + low;
      var rest := HexOf(s[2..]);
      b := [first] + rest;
      assert b[1..] == rest && first / 16 == high && first % 16 == low;
      assert s == [s[0], s[1]] + s[2..];
    }
  }

  /** A digest field is the lower-case hexadecimal of 32 bytes. */
  lemma DigestFieldIsHex(s: string)
    ensures IsSha256(s) <==> exists b: seq<Byte> :: |b| == 32 && Hex(b) == s
  {
    if IsSha256(s) {
      var b := HexOf(s);
      assert |b| == 32 && Hex(b) == s;
    }
    if b: seq<Byte> :| |b| == 32 && Hex(b) == s {
      forall i | 0 <= i < |s|
        ensures IsHexDigit(s[i])
      {
        HexDigits(b, i);
      }
    }
  }

  // ---------------------------------------------------------------------------
  // Domains
  // ---------------------------------------------------------------------------

  function Domains(): seq<Bytes> {
    [SchemaDomain(), AdapterDomain(), OptimizerDomain(), SamplerDomain(), EnvelopeDomain()]
  }

  lemma DomainsDiffer(i: nat, j: nat)
    requires i < j < 5
    ensures Domains()[i] != Domains()[j]
  {
    assert SchemaDomain()[26] == 't' as int && AdapterDomain()[26] == 'a' as int;
    assert OptimizerDomain()[26] == 'o' as int && SamplerDomain()[26] == 's' as int;
    assert EnvelopeDomain()[26] == 's' as int;
    assert SamplerDomain()[27] == 'a' as int && EnvelopeDomain()[27] == 't' as int;
  }

  /** Digests of two different kinds agree only in a collision, whatever their fields. */
  lemma DomainsSeparate(sha: Hash, i: nat, fs: seq<Bytes>, j: nat, gs: seq<Bytes>)
    requires i < j < 5
    requires DomainSha256(sha, Domains()[i], fs) == DomainSha256(sha, Domains()[j], gs)
    ensures Clash(sha, Preimage(Domains()[i], fs), Preimage(Domains()[j], gs))
  {
    DomainsDiffer(i, j);
    DigestIdentifies(sha, Domains()[i], fs, Domains()[j], gs);
  }

  // ---------------------------------------------------------------------------
  // Manifests and packages
  // ---------------------------------------------------------------------------

  /** The state that resuming needs beside the adapter. */
  predicate KeepsState(m: Manifest) {
    m.stepT.Some? && m.momentPairs.Some? && m.sampler.Some?
  }

  /** None of it. */
  predicate KeepsNoState(m: Manifest) {
    m.stepT.None? && m.momentPairs.None? && m.sampler.None?
  }

  predicate HexFields(id: Identity) {
    forall s :: s in [id.frozen, id.trainer, id.schema, id.adapter, id.optimizer, id.sampler, id.root] ==> IsSha256(s)
  }

  /** The envelope a v4 manifest is sealed with covers every field but the root itself. */
  predicate Sealed(c: Codec, m: Manifest) {
    && m.stepT.Some? && m.momentPairs.Some? && m.identity.Some?
    && var id := m.identity.value;
       var e := c.envelope(Envelope(m.version, id.kind, m.step, m.numVars, m.recipe, m.stepT.value, m.momentPairs.value,
                                    id.frozen, id.trainer, id.schema, id.adapter, id.optimizer, id.sampler));
       e.Some? && id.root == DomainSha256(c.sha, EnvelopeDomain(), [e.value])
  }

  /** Which manifests can be read, version by version. */
  lemma ReadableExactly(c: Codec, m: Manifest)
    ensures ReadManifest(c, m).None? <==>
              || (m.version == 1 && KeepsNoState(m) && m.continuation.None? && m.identity.None?)
              || (m.version == 2 && KeepsState(m) && m.continuation.None? && m.identity.None?)
              || (m.version == 3 && KeepsState(m) && m.identity.None?)
              || (m.version == 4 && KeepsState(m) && m.continuation.None? && m.identity.Some?
                  && m.identity.value.kind == "ordinary" && HexFields(m.identity.value) && Sealed(c, m))
  {
    if m.identity.Some? {
      HexFieldsExactly(m.identity.value);
    }
  }

  lemma HexFieldsExactly(id: Identity)
    ensures HexFields(id) <==> DigestsWellFormed(id)
  {
    var all := [id.frozen, id.trainer, id.schema, id.adapter, id.optimizer, id.sampler, id.root];
    assert all[0] in all && all[1] in all && all[2] in all && all[3] in all && all[4] in all && all[5] in all
      && all[6] in all;
  }

  /** The variables by key, shape and type, in order. */
  function Described(c: Codec, vars: seq<Tensor>): seq<(string, seq<nat>, DType)> {
    if vars == [] then []
    else
      var n := |vars| - 1;
      Described(c, vars[..n]) + [(c.names.lora(n), vars[n].dims, vars[n].dtype)]
  }

  lemma {:induction false} SchemaDescribes(c: Codec, vars: seq<Tensor>, recipe: Option<string>)
    ensures SchemaOf(c.names, vars, recipe) == (recipe, Described(c, vars))
  {
    var listed, described := SchemaOf(c.names, vars, recipe).1, Described(c, vars);
    if vars == [] {
      assert listed == described;
    } else {
      var n := |vars| - 1;
      SchemaDescribes(c, vars[..n], recipe);
      assert listed == SchemaOf(c.names, vars[..n], recipe).1 + [(c.names.lora(n), vars[n].dims, vars[n].dtype)];
    }
  }

  /** What the manifest says about where it belongs is where it is loaded. */
  predicate Belongs(c: Codec, m: Manifest, vars: seq<Tensor>, b: Binding)
    requires m.identity.Some?
  {
    && m.recipe == b.recipe && m.identity.value.frozen == b.frozen && m.identity.value.trainer == b.trainer
    && m.numVars == |vars|
    && var schema := c.schema((b.recipe, Described(c, vars)));
       schema.Some? && m.identity.value.schema == DomainSha256(c.sha, SchemaDomain(), [schema.value])
  }

  /** The payloads are the ones the manifest was written for. */
  predicate Matches(c: Codec, p: Package)
    requires HasPayloadIdentity(p.manifest)
  {
    var m, id := p.manifest, p.manifest.identity.value;
    && id.adapter == DomainSha256(c.sha, AdapterDomain(), [p.adapter])
    && id.optimizer == DomainSha256(c.sha, OptimizerDomain(), [Prefix(m.stepT.value), p.optimizer])
    && id.sampler == DomainSha256(c.sha, SamplerDomain(), [m.sampler.value])
  }

  /** A package is accepted exactly if it is a readable v4 one that belongs here and whose payloads fit. */
  lemma AcceptedExactly(c: Codec, p: Package, vars: seq<Tensor>, b: Binding)
    ensures Loadable(c, p, vars, b) <==>
              && ReadManifest(c, p.manifest).None? && p.manifest.version == 4
              && HasPayloadIdentity(p.manifest) && Belongs(c, p.manifest, vars, b) && Matches(c, p)
              && c.unpack(p.adapter).Some? && FitsVars(c.names, c.unpack(p.adapter).value, vars)
              && p.manifest.momentPairs == Some(|Floats(vars)|)
              && c.unpack(p.optimizer).Some? && FitsMoments(c.names, c.unpack(p.optimizer).value, Floats(vars))
  {
    ReadableExactly(c, p.manifest);
    SchemaDescribes(c, vars, b.recipe);
  }

  /** The keys as the source writes them. */
  lemma KeysAsWritten()
    ensures VarKey(0) == "lora.00000" && MomentKey('m', 7) == "m.00007"
  {
  }

  /** The variables with moments are those of a floating-point type, in order. */
  lemma {:induction false} FloatsInOrder(vars: seq<Tensor>, more: seq<Tensor>)
    ensures Floats(vars + more) == Floats(vars) + Floats(more)
    ensures forall t :: t in Floats(vars) <==> t in vars && t.dtype in {BF16, F16, F32, F64}
    decreases |more|, |vars|
  {
    if more != [] {
      FloatsInOrder(vars, more[..|more| - 1]);
      assert (vars + more)[..|vars + more| - 1] == vars + more[..|more| - 1];
    } else {
      assert vars + more == vars;
      if vars != [] {
        FloatsInOrder(vars[..|vars| - 1], []);
        assert vars == vars[..|vars| - 1] + [vars[|vars| - 1]];
      }
    }
  }
}
