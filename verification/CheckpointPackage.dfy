/**
 The contents of an ordinary format-v4 checkpoint (`crates/ferrl/src/checkpoint.rs`): what is written,
 every check a load makes before it touches the live variables, and how the state-envelope digest binds
 the package together. JSON and safetensors are encodings with the properties stated in `Faithful`.
 */
module CheckpointPackage {
  import opened Common
  import opened Decimal
  import opened Digest

  datatype DType = U8 | U32Type | I64Type | BF16 | F16 | F32 | F64

  predicate IsFloat(t: DType) {
    t.BF16? || t.F16? || t.F32? || t.F64?
  }

  type Data(==, !new)

  datatype Tensor = Tensor(dims: seq<nat>, dtype: DType, data: Data)

  predicate SameSchema(a: Tensor, b: Tensor) {
    a.dims == b.dims && a.dtype == b.dtype
  }

  datatype OptimizerState = OptimizerState(stepT: U64, first: seq<Tensor>, second: seq<Tensor>)

  datatype Binding = Binding(frozen: string, trainer: string, recipe: Option<string>)

  datatype Identity = Identity(kind: string, frozen: string, trainer: string, schema: string,
                               adapter: string, optimizer: string, sampler: string, root: string)

  /** The fields under the state-envelope digest. */
  datatype Envelope = Envelope(version: nat, kind: string, step: U64, numVars: U64, recipe: Option<string>,
                               stepT: U64, momentPairs: U64, frozen: string, trainer: string, schema: string,
                               adapter: string, optimizer: string, sampler: string)

  datatype Manifest = Manifest(version: nat, step: U64, numVars: U64, stepT: Option<U64>, momentPairs: Option<U64>,
                               sampler: Option<Bytes>, recipe: Option<string>, continuation: Option<string>,
                               identity: Option<Identity>)

  datatype Package = Package(manifest: Manifest, adapter: Bytes, optimizer: Bytes)

  type Schema = (Option<string>, seq<(string, seq<nat>, DType)>)

  /** The keys tensors are stored under. */
  datatype KeyNames = KeyNames(lora: nat -> string, moment: (char, nat) -> string)

  datatype Codec = Codec(sha: Hash,
                         pack: map<string, Tensor> -> Option<Bytes>, unpack: Bytes -> Option<map<string, Tensor>>,
                         schema: Schema -> Option<Bytes>, envelope: Envelope -> Option<Bytes>, names: KeyNames)

  const FORMAT_VERSION: nat := 4
  const LEGACY_MOMENTUM_FORMAT_VERSION: nat := 3
  const MIN_FORMAT_VERSION: nat := 1
  const ORDINARY_CHECKPOINT_KIND := "ordinary"

  predicate IsHexDigit(ch: char) {
    ('0' <= ch <= '9') || ('a' <= ch <= 'f')
  }

  predicate IsSha256(digest: string) {
    |digest| == 64 && forall i :: 0 <= i < |digest| ==> IsHexDigit(digest[i])
  }

  /** No two tensors share a key. */
  ghost predicate Distinguishes(names: KeyNames) {
    && (forall i: nat, j: nat :: names.lora(i) == names.lora(j) ==> i == j)
    && (forall k, i: nat, l, j: nat :: names.moment(k, i) == names.moment(l, j) ==> k == l && i == j)
  }

  /**
   What can be encoded can be told apart: reading gives back what was packed, keys distinguish tensors, and
   different schemas or envelopes have different encodings. An encoding may fail.
   */
  ghost predicate Faithful(c: Codec) {
    && (forall m :: c.pack(m).Some? ==> c.unpack(c.pack(m).value) == Some(m))
    && (forall s, t :: c.schema(s).Some? && c.schema(s) == c.schema(t) ==> s == t)
    && (forall e, f :: c.envelope(e).Some? && c.envelope(e) == c.envelope(f) ==> e == f)
    && (forall b: seq<Byte> :: IsSha256(c.sha(b)))
    && Distinguishes(c.names)
  }

  datatype Failure =
    | Unencodable
    | Unsupported | FieldMatrix | BadKind | BadDigest | EnvelopeMismatch
    | LegacyFormat | RecipeMismatch | PolicyMismatch | TrainerMismatch | CountMismatch | SchemaMismatch
    | AdapterDigest | OptimizerDigest | SamplerDigest
    | Undecodable | KeySet | TensorMismatch(index: nat)
    | OptimizerCount | MomentMismatch(index: nat) | MomentPairs

  datatype Result<+T> = Ok(value: T) | Err(error: Failure)

  // ---------------------------------------------------------------------------
  // Digests
  // ---------------------------------------------------------------------------

  function Text(s: string): (b: Bytes)
    requires |s| <= U64_MAX && forall i :: 0 <= i < |s| ==> s[i] as int < 128
  {
    seq(|s|, i requires 0 <= i < |s| => s[i] as int)
  }

  function SchemaDomain(): Bytes {
    Text("ferrl.ordinary-checkpoint.tensor-schema.v1")
  }

  function AdapterDomain(): Bytes {
    Text("ferrl.ordinary-checkpoint.adapter.v1")
  }

  function OptimizerDomain(): Bytes {
    Text("ferrl.ordinary-checkpoint.optimizer.v1")
  }

  function SamplerDomain(): Bytes {
    Text("ferrl.ordinary-checkpoint.sampler.v1")
  }

  function EnvelopeDomain(): Bytes {
    Text("ferrl.ordinary-checkpoint.state-envelope.v1")
  }

  function VarKey(i: nat): string {
    "lora." + Padded(i, 5)
  }

  function MomentKey(kind: char, i: nat): string {
    [kind] + "." + Padded(i, 5)
  }

  function SourceNames(): KeyNames {
    KeyNames(VarKey, MomentKey)
  }

  /** The source's zero-padded keys tell all tensors apart, also beyond five digits. */
  lemma SourceNamesDistinguish()
    ensures Distinguishes(SourceNames())
  {
    forall i: nat, j: nat | VarKey(i) == VarKey(j)
      ensures i == j
    {
      assert VarKey(i)[5..] == Padded(i, 5) && VarKey(j)[5..] == Padded(j, 5);
      PaddedValue(i, 5);
      PaddedValue(j, 5);
    }
    forall k, i: nat, l, j: nat | MomentKey(k, i) == MomentKey(l, j)
      ensures k == l && i == j
    {
      assert MomentKey(k, i)[0] == k && MomentKey(l, j)[0] == l;
      assert MomentKey(k, i)[2..] == Padded(i, 5) && MomentKey(l, j)[2..] == Padded(j, 5);
      PaddedValue(i, 5);
      PaddedValue(j, 5);
    }
  }

  function SchemaOf(names: KeyNames, vars: seq<Tensor>, recipe: Option<string>): Schema {
    (recipe, seq(|vars|, i requires 0 <= i < |vars| => (names.lora(i), vars[i].dims, vars[i].dtype)))
  }

  function SchemaDigest(c: Codec, vars: seq<Tensor>, recipe: Option<string>): Option<string> {
    var encoded := c.schema(SchemaOf(c.names, vars, recipe));
    if encoded.None? then None
    else Some(DomainSha256(c.sha, SchemaDomain(), [encoded.value]))
  }

  function AdapterDigestOf(c: Codec, b: Bytes): string {
    DomainSha256(c.sha, AdapterDomain(), [b])
  }

  function OptimizerDigestOf(c: Codec, stepT: U64, b: Bytes): string {
    DomainSha256(c.sha, OptimizerDomain(), [Prefix(stepT), b])
  }

  function SamplerDigestOf(c: Codec, b: Bytes): string {
    DomainSha256(c.sha, SamplerDomain(), [b])
  }

  function EnvelopeDigest(c: Codec, e: Envelope): Option<string> {
    var encoded := c.envelope(e);
    if encoded.None? then None
    else Some(DomainSha256(c.sha, EnvelopeDomain(), [encoded.value]))
  }

  function EnvelopeOf(m: Manifest, id: Identity): Envelope
    requires m.stepT.Some? && m.momentPairs.Some?
  {
    Envelope(m.version, id.kind, m.step, m.numVars, m.recipe, m.stepT.value, m.momentPairs.value,
             id.frozen, id.trainer, id.schema, id.adapter, id.optimizer, id.sampler)
  }

  // ---------------------------------------------------------------------------
  // Reading a manifest
  // ---------------------------------------------------------------------------

  predicate DigestsWellFormed(id: Identity) {
    && IsSha256(id.frozen) && IsSha256(id.trainer) && IsSha256(id.schema) && IsSha256(id.adapter)
    && IsSha256(id.optimizer) && IsSha256(id.sampler) && IsSha256(id.root)
  }

  predicate HasMomentum(m: Manifest) {
    m.stepT.Some? && m.momentPairs.Some? && m.sampler.Some?
  }

  /** The version's required and forbidden fields, and for v4 the identity block. */
  function ReadManifest(c: Codec, m: Manifest): Option<Failure> {
    if m.version < MIN_FORMAT_VERSION || m.version > FORMAT_VERSION then Some(Unsupported)
    else if m.version == 1 then
      if m.stepT.Some? || m.momentPairs.Some? || m.sampler.Some? || m.continuation.Some? || m.identity.Some?
      then Some(FieldMatrix) else None
    else if m.version == 2 then
      if !HasMomentum(m) || m.continuation.Some? || m.identity.Some? then Some(FieldMatrix) else None
    else if m.version == LEGACY_MOMENTUM_FORMAT_VERSION then
      if !HasMomentum(m) || m.identity.Some? then Some(FieldMatrix) else None
    else if !HasMomentum(m) || m.identity.None? || m.continuation.Some? then Some(FieldMatrix)
    else
      var id := m.identity.value;
      if id.kind != ORDINARY_CHECKPOINT_KIND then Some(BadKind)
      else if !DigestsWellFormed(id) then Some(BadDigest)
      else if EnvelopeDigest(c, EnvelopeOf(m, id)).None? then Some(Unencodable)
      else if Some(id.root) != EnvelopeDigest(c, EnvelopeOf(m, id)) then Some(EnvelopeMismatch)
      else None
  }

  // ---------------------------------------------------------------------------
  // Writing
  // ---------------------------------------------------------------------------

  function AdapterMap(names: KeyNames, vars: seq<Tensor>): map<string, Tensor> {
    if vars == [] then map[] else AdapterMap(names, vars[..|vars| - 1])[names.lora(|vars| - 1) := vars[|vars| - 1]]
  }

  function MomentMap(names: KeyNames, first: seq<Tensor>, second: seq<Tensor>): map<string, Tensor>
    requires |first| == |second|
  {
    if first == [] then map[]
    else
      var n := |first| - 1;
      MomentMap(names, first[..n], second[..n])[names.moment('m', n) := first[n]][names.moment('v', n) := second[n]]
  }

  /** The package of a state; only the pairing of the moments is checked. */
  function Contents(c: Codec, vars: seq<Tensor>, opt: OptimizerState, sampler: Bytes, step: U64,
                    b: Binding): Result<Package>
    requires |vars| <= U64_MAX && |opt.first| <= U64_MAX
  {
    if |opt.second| != |opt.first| then Err(MomentPairs)
    else
      var adapter := c.pack(AdapterMap(c.names, vars));
      var optimizer := c.pack(MomentMap(c.names, opt.first, opt.second));
      var schema := SchemaDigest(c, vars, b.recipe);
      if adapter.None? || optimizer.None? || schema.None? then Err(Unencodable)
      else
        var bare := Identity(ORDINARY_CHECKPOINT_KIND, b.frozen, b.trainer, schema.value,
                             AdapterDigestOf(c, adapter.value),
                             OptimizerDigestOf(c, opt.stepT, optimizer.value), SamplerDigestOf(c, sampler), "");
        var m := Manifest(FORMAT_VERSION, step, |vars|, Some(opt.stepT), Some(|opt.first|), Some(sampler), b.recipe,
                          None, None);
        var root := EnvelopeDigest(c, EnvelopeOf(m, bare));
        if root.None? then Err(Unencodable)
        else Ok(Package(m.(identity := Some(bare.(root := root.value))), adapter.value, optimizer.value))
  }

  // ---------------------------------------------------------------------------
  // Loading
  // ---------------------------------------------------------------------------

  datatype Prepared = Prepared(step: U64, optimizer: OptimizerState, sampler: Bytes, recipe: Option<string>,
                               tensors: seq<Tensor>)

  function VarKeys(names: KeyNames, n: nat): set<string> {
    if n == 0 then {} else VarKeys(names, n - 1) + {names.lora(n - 1)}
  }

  function MomentKeys(names: KeyNames, n: nat): set<string> {
    if n == 0 then {} else MomentKeys(names, n - 1) + {names.moment('m', n - 1), names.moment('v', n - 1)}
  }

  lemma {:induction false} VarKeysHave(names: KeyNames, n: nat, i: nat)
    requires i < n
    ensures names.lora(i) in VarKeys(names, n)
    decreases n
  {
    if i < n - 1 { VarKeysHave(names, n - 1, i); }
  }

  lemma {:induction false} MomentKeysHave(names: KeyNames, n: nat, i: nat)
    requires i < n
    ensures names.moment('m', i) in MomentKeys(names, n) && names.moment('v', i) in MomentKeys(names, n)
    decreases n
  {
    if i < n - 1 { MomentKeysHave(names, n - 1, i); }
  }

  function Floats(vars: seq<Tensor>): seq<Tensor> {
    if vars == [] then []
    else Floats(vars[..|vars| - 1]) + if IsFloat(vars[|vars| - 1].dtype) then [vars[|vars| - 1]] else []
  }

  /** Every tensor is there and has the live variable's shape and type. */
  predicate FitsVars(names: KeyNames, loaded: map<string, Tensor>, vars: seq<Tensor>) {
    && loaded.Keys == VarKeys(names, |vars|)
    && forall i :: 0 <= i < |vars| ==> names.lora(i) in loaded && SameSchema(loaded[names.lora(i)], vars[i])
  }

  function Loaded(names: KeyNames, loaded: map<string, Tensor>, n: nat): seq<Tensor>
    requires forall i :: 0 <= i < n ==> names.lora(i) in loaded
  {
    seq(n, i requires 0 <= i < n => loaded[names.lora(i)])
  }

  /** The moments of one parameter are there and have its shape and type. */
  predicate FitsPair(names: KeyNames, loaded: map<string, Tensor>, i: nat, want: Tensor) {
    && names.moment('m', i) in loaded && SameSchema(loaded[names.moment('m', i)], want)
    && names.moment('v', i) in loaded && SameSchema(loaded[names.moment('v', i)], want)
  }

  predicate HasMoments(names: KeyNames, loaded: map<string, Tensor>, kind: char, n: nat) {
    forall i :: 0 <= i < n ==> names.moment(kind, i) in loaded
  }

  predicate FitsMoments(names: KeyNames, loaded: map<string, Tensor>, vars: seq<Tensor>) {
    && loaded.Keys == MomentKeys(names, |vars|) && HasMoments(names, loaded, 'm', |vars|)
      && HasMoments(names, loaded, 'v', |vars|)
    && forall i :: 0 <= i < |vars| ==> FitsPair(names, loaded, i, vars[i])
  }

  function LoadedMoments(names: KeyNames, loaded: map<string, Tensor>, kind: char, n: nat): seq<Tensor>
    requires HasMoments(names, loaded, kind, n)
  {
    seq(n, i requires 0 <= i < n => loaded[names.moment(kind, i)])
  }

  /** Tensor `i` is the first one that does not fit its variable. */
  predicate FirstMisfit(c: Codec, loaded: map<string, Tensor>, vars: seq<Tensor>, i: nat)
    requires i < |vars|
  {
    && c.names.lora(i) in loaded && !SameSchema(loaded[c.names.lora(i)], vars[i])
    && forall k :: 0 <= k < i ==> c.names.lora(k) in loaded && SameSchema(loaded[c.names.lora(k)], vars[k])
  }

  /** Pass 1: look at every tensor before anything is changed. */
  method PrepareAdapterTensors(c: Codec, bytes: Bytes, vars: array<Tensor>) returns (r: Result<seq<Tensor>>)
    ensures r.Ok? <==> c.unpack(bytes).Some? && FitsVars(c.names, c.unpack(bytes).value, vars[..])
    ensures r.Ok? ==> r.value == Loaded(c.names, c.unpack(bytes).value, vars.Length)
    ensures r.Err? && r.error.TensorMismatch? ==>
              r.error.index < vars.Length && c.unpack(bytes).Some?
                && FirstMisfit(c, c.unpack(bytes).value, vars[..], r.error.index)
  {
    var loaded := c.unpack(bytes);
    if loaded.None? {
      return Err(Undecodable);
    }
    if loaded.value.Keys != VarKeys(c.names, vars.Length) {
      return Err(KeySet);
    }
    var prepared := [];
    for i := 0 to vars.Length
      invariant |prepared| == i
      invariant forall k :: 0 <= k < i ==>
                  c.names.lora(k) in loaded.value && SameSchema(loaded.value[c.names.lora(k)], vars[k])
                                           && prepared[k] == loaded.value[c.names.lora(k)]
    {
      VarKeysHave(c.names, vars.Length, i);
      var t := loaded.value[c.names.lora(i)];
      if t.dims != vars[i].dims || t.dtype != vars[i].dtype {
        return Err(TensorMismatch(i));
      }
      prepared := prepared + [t];
    }
    r := Ok(prepared);
  }

  lemma KeysHaveMoments(names: KeyNames, loaded: map<string, Tensor>, n: nat)
    requires loaded.Keys == MomentKeys(names, n)
    ensures HasMoments(names, loaded, 'm', n) && HasMoments(names, loaded, 'v', n)
  {
    forall i | 0 <= i < n
      ensures names.moment('m', i) in loaded && names.moment('v', i) in loaded
    {
      MomentKeysHave(names, n, i);
    }
  }

  lemma NextMoment(names: KeyNames, loaded: map<string, Tensor>, kind: char, i: nat)
    requires HasMoments(names, loaded, kind, i) && names.moment(kind, i) in loaded
    ensures HasMoments(names, loaded, kind, i + 1)
    ensures LoadedMoments(names, loaded, kind, i + 1) ==
              LoadedMoments(names, loaded, kind, i) + [loaded[names.moment(kind, i)]]
  {
  }

  /** The moments of every parameter in order, or the first parameter they do not fit. */
  method ReadMoments(names: KeyNames, loaded: map<string, Tensor>, expected: seq<Tensor>)
    returns (first: seq<Tensor>, second: seq<Tensor>, bad: Option<nat>)
    requires HasMoments(names, loaded, 'm', |expected|) && HasMoments(names, loaded, 'v', |expected|)
    ensures bad.Some? ==> bad.value < |expected| && !FitsPair(names, loaded, bad.value, expected[bad.value])
    ensures bad.None? ==> forall k :: 0 <= k < |expected| ==> FitsPair(names, loaded, k, expected[k])
    ensures bad.None? ==>
              first == LoadedMoments(names, loaded, 'm', |expected|)
                && second == LoadedMoments(names, loaded, 'v', |expected|)
  {
    first, second, bad := [], [], None;
    for i := 0 to |expected|
      invariant forall k :: 0 <= k < i ==> FitsPair(names, loaded, k, expected[k])
      invariant HasMoments(names, loaded, 'm', i) && first == LoadedMoments(names, loaded, 'm', i)
      invariant HasMoments(names, loaded, 'v', i) && second == LoadedMoments(names, loaded, 'v', i)
    {
      NextMoment(names, loaded, 'm', i);
      NextMoment(names, loaded, 'v', i);
      var m, v := loaded[names.moment('m', i)], loaded[names.moment('v', i)];
      if !SameSchema(m, expected[i]) || !SameSchema(v, expected[i]) {
        return first, second, Some(i);
      }
      first, second := first + [m], second + [v];
    }
  }

  method PrepareOptimizerState(c: Codec, bytes: Bytes, stepT: U64, num: nat, vars: seq<Tensor>)
    returns (r: Result<OptimizerState>)
    ensures r.Ok? <==> && num == |Floats(vars)| && c.unpack(bytes).Some?
                       && FitsMoments(c.names, c.unpack(bytes).value, Floats(vars))
    ensures r.Ok? ==>
              var m := c.unpack(bytes).value;
              r.value == OptimizerState(stepT, LoadedMoments(c.names, m, 'm', num), LoadedMoments(c.names, m, 'v', num))
  {
    var expected := Floats(vars);
    if num != |expected| {
      return Err(OptimizerCount);
    }
    var loaded := c.unpack(bytes);
    if loaded.None? {
      return Err(Undecodable);
    }
    if loaded.value.Keys != MomentKeys(c.names, num) {
      return Err(KeySet);
    }
    KeysHaveMoments(c.names, loaded.value, num);
    var first, second, bad := ReadMoments(c.names, loaded.value, expected);
    if bad.Some? {
      return Err(MomentMismatch(bad.value));
    }
    r := Ok(OptimizerState(stepT, first, second));
  }

  /** Everything a manifest has to agree with before a payload is read. */
  function CheckManifest(c: Codec, m: Manifest, vars: seq<Tensor>, b: Binding): Option<Failure> {
    var read := ReadManifest(c, m);
    if read.Some? then read
    else if m.version != FORMAT_VERSION then Some(LegacyFormat)
    else if m.recipe != b.recipe then Some(RecipeMismatch)
    else
      var id := m.identity.value;
      if id.frozen != b.frozen then Some(PolicyMismatch)
      else if id.trainer != b.trainer then Some(TrainerMismatch)
      else if m.numVars != |vars| then Some(CountMismatch)
      else if SchemaDigest(c, vars, b.recipe).None? then Some(Unencodable)
      else if Some(id.schema) != SchemaDigest(c, vars, b.recipe) then Some(SchemaMismatch)
      else None
  }

  predicate HasPayloadIdentity(m: Manifest) {
    m.identity.Some? && HasMomentum(m)
  }

  /** The exact payload digests. */
  function CheckPayloads(c: Codec, p: Package): Option<Failure>
    requires HasPayloadIdentity(p.manifest)
  {
    var m, id := p.manifest, p.manifest.identity.value;
    if id.adapter != AdapterDigestOf(c, p.adapter) then Some(AdapterDigest)
    else if id.optimizer != OptimizerDigestOf(c, m.stepT.value, p.optimizer) then Some(OptimizerDigest)
    else if id.sampler != SamplerDigestOf(c, m.sampler.value) then Some(SamplerDigest)
    else None
  }

  /** A package accepted for these variables and this binding. */
  predicate Loadable(c: Codec, p: Package, vars: seq<Tensor>, b: Binding) {
    && CheckManifest(c, p.manifest, vars, b).None?
    && CheckPayloads(c, p).None?
    && c.unpack(p.adapter).Some? && FitsVars(c.names, c.unpack(p.adapter).value, vars)
    && p.manifest.momentPairs.value == |Floats(vars)|
    && c.unpack(p.optimizer).Some? && FitsMoments(c.names, c.unpack(p.optimizer).value, Floats(vars))
  }

  /** What an accepted package restores. */
  function Restored(c: Codec, p: Package, vars: seq<Tensor>, b: Binding): Prepared
    requires Loadable(c, p, vars, b)
  {
    var moments, n := c.unpack(p.optimizer).value, |Floats(vars)|;
    Prepared(p.manifest.step,
             OptimizerState(p.manifest.stepT.value, LoadedMoments(c.names, moments, 'm', n),
                            LoadedMoments(c.names, moments, 'v', n)),
             p.manifest.sampler.value, p.manifest.recipe, Loaded(c.names, c.unpack(p.adapter).value, |vars|))
  }

  /** Parse and validate everything; the live variables are only read. */
  method PrepareCheckpoint(c: Codec, p: Package, vars: array<Tensor>, b: Binding) returns (r: Result<Prepared>)
    ensures r.Ok? <==> Loadable(c, p, vars[..], b)
    ensures r.Ok? ==> r.value == Restored(c, p, vars[..], b)
    ensures CheckManifest(c, p.manifest, vars[..], b).Some? ==>
              r == Err(CheckManifest(c, p.manifest, vars[..], b).value)
    ensures CheckManifest(c, p.manifest, vars[..], b).None? && CheckPayloads(c, p).Some? ==>
              r == Err(CheckPayloads(c, p).value)
  {
    var bad := CheckManifest(c, p.manifest, vars[..], b);
    if bad.Some? {
      return Err(bad.value);
    }
    bad := CheckPayloads(c, p);
    if bad.Some? {
      return Err(bad.value);
    }
    var tensors := PrepareAdapterTensors(c, p.adapter, vars);
    if tensors.Err? {
      return Err(tensors.error);
    }
    var m := p.manifest;
    var optimizer := PrepareOptimizerState(c, p.optimizer, m.stepT.value, m.momentPairs.value, vars[..]);
    if optimizer.Err? {
      return Err(optimizer.error);
    }
    r := Ok(Prepared(m.step, optimizer.value, m.sampler.value, m.recipe, tensors.value));
  }

  /** Pass 2: overwrite every live variable. */
  method ApplyAdapterTensors(vars: array<Tensor>, prepared: seq<Tensor>)
    requires |prepared| == vars.Length
    modifies vars
    ensures vars[..] == prepared
  {
    for i := 0 to vars.Length
      invariant vars[..i] == prepared[..i]
    {
      vars[i] := prepared[i];
    }
  }

  /** All or nothing: a rejected load leaves every live variable as it was, an accepted one restores all of them. */
  method LoadCheckpoint(c: Codec, p: Package, vars: array<Tensor>, b: Binding) returns (r: Result<Prepared>)
    modifies vars
    ensures r.Ok? <==> old(Loadable(c, p, vars[..], b))
    ensures r.Err? ==> vars[..] == old(vars[..])
    ensures r.Ok? ==> r.value == old(Restored(c, p, vars[..], b)) && vars[..] == r.value.tensors
  {
    r := PrepareCheckpoint(c, p, vars, b);
    if r.Ok? {
      ApplyAdapterTensors(vars, r.value.tensors);
    }
  }

  // ---------------------------------------------------------------------------
  // The root determines the package
  // ---------------------------------------------------------------------------

  lemma OneField(sha: Hash, domain: Bytes, x: Bytes, y: Bytes)
    requires DomainSha256(sha, domain, [x]) == DomainSha256(sha, domain, [y])
    ensures x == y || Clash(sha, Preimage(domain, [x]), Preimage(domain, [y]))
  {
    DigestIdentifies(sha, domain, [x], domain, [y]);
    if [x] == [y] {
      assert [x][0] == [y][0];
    }
  }

  lemma TwoFields(sha: Hash, domain: Bytes, t: Bytes, x: Bytes, u: Bytes, y: Bytes)
    requires DomainSha256(sha, domain, [t, x]) == DomainSha256(sha, domain, [u, y])
    ensures x == y || Clash(sha, Preimage(domain, [t, x]), Preimage(domain, [u, y]))
  {
    DigestIdentifies(sha, domain, [t, x], domain, [u, y]);
    if [t, x] == [u, y] {
      assert [t, x][1] == [u, y][1];
    }
  }

  /** One of the payload digests of the two packages is a SHA-256 collision. */
  predicate PayloadsClash(c: Codec, p: Package, q: Package)
    requires HasPayloadIdentity(p.manifest) && HasPayloadIdentity(q.manifest)
  {
    || Clash(c.sha, Preimage(AdapterDomain(), [p.adapter]), Preimage(AdapterDomain(), [q.adapter]))
    || Clash(c.sha, Preimage(OptimizerDomain(), [Prefix(p.manifest.stepT.value), p.optimizer]),
             Preimage(OptimizerDomain(), [Prefix(q.manifest.stepT.value), q.optimizer]))
    || Clash(c.sha, Preimage(SamplerDomain(), [p.manifest.sampler.value]),
             Preimage(SamplerDomain(), [q.manifest.sampler.value]))
  }

  /** The state envelopes of the two packages are a SHA-256 collision. */
  predicate EnvelopesClash(c: Codec, e: Envelope, f: Envelope) {
    && c.envelope(e).Some? && c.envelope(f).Some?
    && Clash(c.sha, Preimage(EnvelopeDomain(), [c.envelope(e).value]),
             Preimage(EnvelopeDomain(), [c.envelope(f).value]))
  }

  predicate SchemasClash(c: Codec, s: Schema, t: Schema) {
    && c.schema(s).Some? && c.schema(t).Some?
    && Clash(c.sha, Preimage(SchemaDomain(), [c.schema(s).value]), Preimage(SchemaDomain(), [c.schema(t).value]))
  }

  lemma PayloadsIdentified(c: Codec, p: Package, q: Package)
    requires HasPayloadIdentity(p.manifest) && HasPayloadIdentity(q.manifest)
    requires CheckPayloads(c, p).None? && CheckPayloads(c, q).None?
    requires p.manifest.identity.value.adapter == q.manifest.identity.value.adapter
    requires p.manifest.identity.value.optimizer == q.manifest.identity.value.optimizer
    requires p.manifest.identity.value.sampler == q.manifest.identity.value.sampler
    ensures PayloadsClash(c, p, q)
            || (p.adapter == q.adapter && p.optimizer == q.optimizer && p.manifest.sampler == q.manifest.sampler)
  {
    OneField(c.sha, AdapterDomain(), p.adapter, q.adapter);
    TwoFields(c.sha, OptimizerDomain(),
              Prefix(p.manifest.stepT.value), p.optimizer, Prefix(q.manifest.stepT.value), q.optimizer);
    OneField(c.sha, SamplerDomain(), p.manifest.sampler.value, q.manifest.sampler.value);
  }

  lemma EnvelopeIdentified(c: Codec, e: Envelope, f: Envelope)
    requires Faithful(c) && EnvelopeDigest(c, e).Some? && EnvelopeDigest(c, e) == EnvelopeDigest(c, f)
    ensures e == f || EnvelopesClash(c, e, f)
  {
    OneField(c.sha, EnvelopeDomain(), c.envelope(e).value, c.envelope(f).value);
  }

  lemma SchemaIdentified(c: Codec, a: seq<Tensor>, b: seq<Tensor>, recipe: Option<string>)
    requires Faithful(c) && SchemaDigest(c, a, recipe).Some? && SchemaDigest(c, a, recipe) == SchemaDigest(c, b, recipe)
    ensures SchemaOf(c.names, a, recipe) == SchemaOf(c.names, b, recipe)
            || SchemasClash(c, SchemaOf(c.names, a, recipe), SchemaOf(c.names, b, recipe))
  {
    OneField(c.sha, SchemaDomain(), c.schema(SchemaOf(c.names, a, recipe)).value,
             c.schema(SchemaOf(c.names, b, recipe)).value);
  }

  /**
   Two accepted packages with the same state-envelope digest are the same package, down to every payload
   byte, unless one of their own digests is a SHA-256 collision. This holds even if they were accepted for
   different models or bindings.
   */
  lemma RootDeterminesPackage(c: Codec, p: Package, vars: seq<Tensor>, b: Binding, q: Package, others: seq<Tensor>,
                              d: Binding)
    requires Faithful(c) && Loadable(c, p, vars, b) && Loadable(c, q, others, d)
    requires p.manifest.identity.value.root == q.manifest.identity.value.root
    ensures || p == q
            || PayloadsClash(c, p, q)
            || EnvelopesClash(c, EnvelopeOf(p.manifest, p.manifest.identity.value),
                              EnvelopeOf(q.manifest, q.manifest.identity.value))
  {
    var m, n := p.manifest, q.manifest;
    var e, f := EnvelopeOf(m, m.identity.value), EnvelopeOf(n, n.identity.value);
    EnvelopeIdentified(c, e, f);
    if e == f {
      PayloadsIdentified(c, p, q);
    }
  }

  // ---------------------------------------------------------------------------
  // Save, then load
  // ---------------------------------------------------------------------------

  lemma VarKeysDiffer(names: KeyNames, i: nat, n: nat)
    requires Distinguishes(names)
    requires i < n
    ensures names.lora(i) != names.lora(n)
  {
  }

  lemma Insert(m: map<string, Tensor>, k: string, t: Tensor)
    ensures m[k := t].Keys == m.Keys + {k} && m[k := t][k] == t
    ensures forall x :: x in m && x != k ==> m[k := t][x] == m[x]
  {
  }

  lemma {:induction false} AdapterMapHolds(names: KeyNames, vars: seq<Tensor>)
    requires Distinguishes(names)
    ensures AdapterMap(names, vars).Keys == VarKeys(names, |vars|)
    ensures forall i :: 0 <= i < |vars| ==>
              names.lora(i) in AdapterMap(names, vars) && AdapterMap(names, vars)[names.lora(i)] == vars[i]
  {
    if vars != [] {
      var n := |vars| - 1;
      var init := vars[..n];
      AdapterMapHolds(names, init);
      Insert(AdapterMap(names, init), names.lora(n), vars[n]);
      forall i | 0 <= i <= n
        ensures names.lora(i) in AdapterMap(names, vars) && AdapterMap(names, vars)[names.lora(i)] == vars[i]
      {
        if i < n {
          VarKeysDiffer(names, i, n);
          assert names.lora(i) in AdapterMap(names, init) && AdapterMap(names, init)[names.lora(i)] == init[i];
        }
      }
    }
  }

  predicate MomentAt(names: KeyNames, m: map<string, Tensor>, i: nat, first: Tensor, second: Tensor) {
    && names.moment('m', i) in m && m[names.moment('m', i)] == first
    && names.moment('v', i) in m && m[names.moment('v', i)] == second
  }

  predicate MomentsAt(names: KeyNames, m: map<string, Tensor>, first: seq<Tensor>, second: seq<Tensor>, n: nat)
    requires n <= |first| == |second|
  {
    forall i :: 0 <= i < n ==> MomentAt(names, m, i, first[i], second[i])
  }

  lemma MomentStays(names: KeyNames, m: map<string, Tensor>, i: nat, first: Tensor, second: Tensor, n: nat,
                    newFirst: Tensor, newSecond: Tensor)
    requires Distinguishes(names)
    requires MomentAt(names, m, i, first, second) && i < n
    ensures MomentAt(names, m[names.moment('m', n) := newFirst][names.moment('v', n) := newSecond], i, first, second)
  {
    MomentKeysDiffer(names, i, n);
  }

  lemma MomentInsert(names: KeyNames, m: map<string, Tensor>, n: nat, first: Tensor, second: Tensor)
    requires Distinguishes(names)
    ensures var x := m[names.moment('m', n) := first][names.moment('v', n) := second];
            MomentAt(names, x, n, first, second) && x.Keys == m.Keys + {names.moment('m', n), names.moment('v', n)}
  {
    MomentKeysDiffer(names, n, n);
  }

  lemma MomentStep(names: KeyNames, m: map<string, Tensor>, first: seq<Tensor>, second: seq<Tensor>, n: nat)
    requires Distinguishes(names)
    requires |first| == |second| == n + 1 && MomentsAt(names, m, first[..n], second[..n], n)
    ensures MomentsAt(names, m[names.moment('m', n) := first[n]][names.moment('v', n) := second[n]], first, second,
                      n + 1)
  {
    var x := m[names.moment('m', n) := first[n]][names.moment('v', n) := second[n]];
    MomentInsert(names, m, n, first[n], second[n]);
    forall i | 0 <= i < n
      ensures MomentAt(names, x, i, first[i], second[i])
    {
      assert MomentAt(names, m, i, first[..n][i], second[..n][i]);
      MomentStays(names, m, i, first[i], second[i], n, first[n], second[n]);
    }
  }

  lemma {:induction false} MomentMapKeys(names: KeyNames, first: seq<Tensor>, second: seq<Tensor>)
    requires Distinguishes(names)
    requires |first| == |second|
    ensures MomentMap(names, first, second).Keys == MomentKeys(names, |first|)
  {
    if first != [] {
      var n := |first| - 1;
      MomentMapKeys(names, first[..n], second[..n]);
      MomentInsert(names, MomentMap(names, first[..n], second[..n]), n, first[n], second[n]);
    }
  }

  lemma {:induction false} MomentMapHolds(names: KeyNames, first: seq<Tensor>, second: seq<Tensor>)
    requires Distinguishes(names)
    requires |first| == |second|
    ensures MomentsAt(names, MomentMap(names, first, second), first, second, |first|)
  {
    if first != [] {
      var n := |first| - 1;
      MomentMapHolds(names, first[..n], second[..n]);
      MomentStep(names, MomentMap(names, first[..n], second[..n]), first, second, n);
    }
  }

  lemma MomentKeysDiffer(names: KeyNames, i: nat, n: nat)
    requires Distinguishes(names)
    requires i <= n
    ensures names.moment('m', i) != names.moment('v', n) && names.moment('v', i) != names.moment('m', n)
    ensures i < n ==> names.moment('m', i) != names.moment('m', n) && names.moment('v', i) != names.moment('v', n)
  {
  }

  /** The live variables have the shapes and types of the saved ones. */
  predicate SameSchemas(a: seq<Tensor>, b: seq<Tensor>) {
    |a| == |b| && forall i :: 0 <= i < |a| ==> SameSchema(a[i], b[i])
  }

  lemma {:induction false} SameFloats(a: seq<Tensor>, b: seq<Tensor>)
    requires SameSchemas(a, b)
    ensures SameSchemas(Floats(a), Floats(b))
  {
    if a != [] {
      SameFloats(a[..|a| - 1], b[..|b| - 1]);
    }
  }

  lemma SchemasAgree(c: Codec, a: seq<Tensor>, b: seq<Tensor>, recipe: Option<string>)
    requires SameSchemas(a, b)
    ensures SchemaDigest(c, a, recipe) == SchemaDigest(c, b, recipe)
  {
    forall i | 0 <= i < |a|
      ensures a[i].dims == b[i].dims && a[i].dtype == b[i].dtype
    {
      assert SameSchema(a[i], b[i]);
    }
    assert SchemaOf(c.names, a, recipe).1 == SchemaOf(c.names, b, recipe).1;
  }

  /**
   One pair of moments per float variable, of its shape and type: what the optimizer keeps, and what a save
   does not check.
   */
  predicate MomentsMatch(opt: OptimizerState, vars: seq<Tensor>) {
    SameSchemas(opt.first, Floats(vars)) && SameSchemas(opt.second, Floats(vars))
  }

  lemma FittingMomentsMatch(names: KeyNames, m: map<string, Tensor>, opt: OptimizerState, had: seq<Tensor>,
                            want: seq<Tensor>)
    requires |opt.first| == |opt.second| == |had| && SameSchemas(had, want)
             && MomentsAt(names, m, opt.first, opt.second, |had|)
    requires FitsMoments(names, m, want)
    ensures SameSchemas(opt.first, had) && SameSchemas(opt.second, had)
  {
    forall i | 0 <= i < |had|
      ensures SameSchema(opt.first[i], had[i]) && SameSchema(opt.second[i], had[i])
    {
      assert FitsPair(names, m, i, want[i]) && MomentAt(names, m, i, opt.first[i], opt.second[i])
        && SameSchema(had[i], want[i]);
    }
  }

  lemma MatchingMomentsFit(names: KeyNames, m: map<string, Tensor>, opt: OptimizerState, had: seq<Tensor>,
                           want: seq<Tensor>)
    requires |opt.first| == |opt.second| == |had| && SameSchemas(had, want)
             && MomentsAt(names, m, opt.first, opt.second, |had|)
    requires SameSchemas(opt.first, had) && SameSchemas(opt.second, had) && m.Keys == MomentKeys(names, |had|)
    ensures FitsMoments(names, m, want)
  {
    KeysHaveMoments(names, m, |had|);
    forall i | 0 <= i < |want|
      ensures FitsPair(names, m, i, want[i])
    {
      assert SameSchema(opt.first[i], had[i]) && SameSchema(opt.second[i], had[i]);
      assert MomentAt(names, m, i, opt.first[i], opt.second[i]) && SameSchema(had[i], want[i]);
    }
  }

  lemma MomentsFit(names: KeyNames, opt: OptimizerState, vars: seq<Tensor>, live: seq<Tensor>)
    requires Distinguishes(names)
    requires |opt.first| == |opt.second| && SameSchemas(vars, live)
    ensures && |opt.first| == |Floats(live)|
            && FitsMoments(names, MomentMap(names, opt.first, opt.second), Floats(live))
            <==> MomentsMatch(opt, vars)
  {
    SameFloats(vars, live);
    MomentMapKeys(names, opt.first, opt.second);
    MomentMapHolds(names, opt.first, opt.second);
    var m := MomentMap(names, opt.first, opt.second);
    if |opt.first| == |Floats(live)| && FitsMoments(names, m, Floats(live)) {
      FittingMomentsMatch(names, m, opt, Floats(vars), Floats(live));
    }
    if MomentsMatch(opt, vars) {
      MatchingMomentsFit(names, m, opt, Floats(vars), Floats(live));
    }
  }

  lemma MomentsRead(names: KeyNames, m: map<string, Tensor>, first: seq<Tensor>, second: seq<Tensor>)
    requires |first| == |second| && MomentsAt(names, m, first, second, |first|)
    ensures HasMoments(names, m, 'm', |first|) && LoadedMoments(names, m, 'm', |first|) == first
    ensures HasMoments(names, m, 'v', |first|) && LoadedMoments(names, m, 'v', |first|) == second
  {
    forall i | 0 <= i < |first|
      ensures names.moment('m', i) in m && m[names.moment('m', i)] == first[i]
      ensures names.moment('v', i) in m && m[names.moment('v', i)] == second[i]
    {
      assert MomentAt(names, m, i, first[i], second[i]);
    }
  }

  /** The manifest of a saved package passes every check of a load under the same binding. */
  lemma SavedManifestChecks(c: Codec, vars: seq<Tensor>, opt: OptimizerState, sampler: Bytes, step: U64, b: Binding,
                            live: seq<Tensor>)
    requires Faithful(c) && |vars| <= U64_MAX && |opt.first| <= U64_MAX && SameSchemas(vars, live)
    requires IsSha256(b.frozen) && IsSha256(b.trainer)
    requires Contents(c, vars, opt, sampler, step, b).Ok?
    ensures var p := Contents(c, vars, opt, sampler, step, b).value;
            CheckManifest(c, p.manifest, live, b).None? && CheckPayloads(c, p).None?
  {
    SchemasAgree(c, vars, live, b.recipe);
    var p := Contents(c, vars, opt, sampler, step, b).value;
    var id := p.manifest.identity.value;
    assert EnvelopeOf(p.manifest, id) == EnvelopeOf(p.manifest.(identity := None), id.(root := ""));
  }

  /**
   Saving and then loading under the same binding, into variables of the same schema, succeeds exactly
   if the optimizer's moments match the float variables, and then restores every tensor, both moments,
   the counter, the sampler, the recipe and the step.
   */
  lemma SaveThenLoad(c: Codec, vars: seq<Tensor>, opt: OptimizerState, sampler: Bytes, step: U64, b: Binding,
                     live: seq<Tensor>)
    requires Faithful(c) && |vars| <= U64_MAX && |opt.first| <= U64_MAX && SameSchemas(vars, live)
    requires IsSha256(b.frozen) && IsSha256(b.trainer)
    requires Contents(c, vars, opt, sampler, step, b).Ok?
    ensures var p := Contents(c, vars, opt, sampler, step, b).value;
            Loadable(c, p, live, b) <==> MomentsMatch(opt, vars)
    ensures var p := Contents(c, vars, opt, sampler, step, b).value;
            Loadable(c, p, live, b) ==> Restored(c, p, live, b) == Prepared(step, opt, sampler, b.recipe, vars)
  {
    var p := Contents(c, vars, opt, sampler, step, b).value;
    SavedManifestChecks(c, vars, opt, sampler, step, b, live);
    AdapterMapHolds(c.names, vars);
    assert c.unpack(p.adapter) == Some(AdapterMap(c.names, vars));
    assert c.unpack(p.optimizer) == Some(MomentMap(c.names, opt.first, opt.second));
    assert FitsVars(c.names, AdapterMap(c.names, vars), live);
    MomentsFit(c.names, opt, vars, live);
    if Loadable(c, p, live, b) {
      MomentMapHolds(c.names, opt.first, opt.second);
      assert Loaded(c.names, AdapterMap(c.names, vars), |live|) == vars;
      var n := |Floats(live)|;
      MomentsRead(c.names, MomentMap(c.names, opt.first, opt.second), opt.first, opt.second);
    }
  }

  /**
   Every paired save can be encoded: a codec that encodes the two tensor maps, the schema and the envelope
   of this save, and nothing else.
   */
  lemma EncodesOneSave(sha: Hash, names: KeyNames, vars: seq<Tensor>, opt: OptimizerState, sampler: Bytes, step: U64,
                       b: Binding) returns (c: Codec)
    requires (forall bytes: seq<Byte> :: IsSha256(sha(bytes))) && Distinguishes(names)
    requires |vars| <= U64_MAX && |opt.first| == |opt.second| <= U64_MAX
    ensures Faithful(c) && c.sha == sha && c.names == names
    ensures Contents(c, vars, opt, sampler, step, b).Ok?
  {
    var zero: Bytes, one: Bytes := [0], [1];
    var adapter, moments := AdapterMap(names, vars), MomentMap(names, opt.first, opt.second);
    var optimizer := if moments == adapter then zero else one;
    var schema := SchemaOf(names, vars, b.recipe);
    var envelope := Envelope(FORMAT_VERSION, ORDINARY_CHECKPOINT_KIND, step, |vars|, b.recipe, opt.stepT, |opt.first|,
                             b.frozen, b.trainer, DomainSha256(sha, SchemaDomain(), [zero]),
                             DomainSha256(sha, AdapterDomain(), [zero]),
                             DomainSha256(sha, OptimizerDomain(), [Prefix(opt.stepT), optimizer]),
                             DomainSha256(sha, SamplerDomain(), [sampler]));
    c := Codec(sha,
               m => if m == adapter then Some(zero) else if m == moments then Some(one) else None,
               bytes => if bytes == zero then Some(adapter) else if bytes == one then Some(moments) else None,
               s => if s == schema then Some(zero) else None,
               e => if e == envelope then Some(zero) else None,
               names);
    assert zero[0] != one[0];
  }

  lemma NoMomentsForOne(t: Tensor)
    requires IsFloat(t.dtype)
    ensures !MomentsMatch(OptimizerState(0, [], []), [t])
  {
    assert [t][..0] == [];
    assert Floats([t]) == [t];
  }

  /**
   Moments left out for the one float variable, under any hash and any distinct keys: some codec saves this
   state, and the package does not load back.
   */
  lemma MissingMomentsAreSaved(sha: Hash, names: KeyNames, t: Tensor, sampler: Bytes, step: U64, b: Binding)
    returns (c: Codec)
    requires (forall bytes: seq<Byte> :: IsSha256(sha(bytes))) && Distinguishes(names)
    requires IsSha256(b.frozen) && IsSha256(b.trainer) && IsFloat(t.dtype)
    ensures Faithful(c) && c.sha == sha && c.names == names
    ensures var saved := Contents(c, [t], OptimizerState(0, [], []), sampler, step, b);
            saved.Ok? && !Loadable(c, saved.value, [t], b)
  {
    var opt := OptimizerState(0, [], []);
    c := EncodesOneSave(sha, names, [t], opt, sampler, step, b);
    NoMomentsForOne(t);
    SaveThenLoad(c, [t], opt, sampler, step, b, [t]);
  }

  /**
   A saved package never loads into variables of another schema, or under another binding, unless its schema
   digest collides.
   */
  lemma OnlyLoadsWhereItBelongs(c: Codec, vars: seq<Tensor>, opt: OptimizerState, sampler: Bytes, step: U64, b: Binding,
                                live: seq<Tensor>, d: Binding)
    requires Faithful(c) && |vars| <= U64_MAX && |opt.first| <= U64_MAX
    requires Contents(c, vars, opt, sampler, step, b).Ok?
    requires Loadable(c, Contents(c, vars, opt, sampler, step, b).value, live, d)
    ensures b == d && (SameSchemas(vars, live)
                       || SchemasClash(c, SchemaOf(c.names, vars, b.recipe), SchemaOf(c.names, live, b.recipe)))
  {
    SchemaIdentified(c, vars, live, b.recipe);
    if SchemaOf(c.names, vars, b.recipe) == SchemaOf(c.names, live, b.recipe) {
      forall i | 0 <= i < |vars|
        ensures SameSchema(vars[i], live[i])
      {
        assert SchemaOf(c.names, vars, b.recipe).1[i] == SchemaOf(c.names, live, b.recipe).1[i];
      }
    }
  }
}
