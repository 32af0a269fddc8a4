/**
 * The Q1 record: a 300-byte header, a leaf of length-prefixed policy fields, a
 * tuple that carries its own binder, and the manifest.  The digest and the
 * manifest grammar are parameters: every statement holds for any 32-byte hash
 * and any grammar.
 */
module Q1Record {
  import opened Core
  import opened Octets

  datatype Env = Env(hash: Bytes -> Digest, grammar: (Bytes, Bytes, Bytes) -> bool)

  datatype Identity = Identity(uid: int, gid: int, device: int, inode: int, size: int)

  datatype Record = Record(
    commit: Bytes,
    generation: Bytes,
    expectedUid: int,
    busName: Bytes,
    selinux: Bytes,
    polkit: Bytes,
    manifest: Bytes)

  datatype Leaf = Leaf(expectedUid: int, generation: Bytes, busName: Bytes, selinux: Bytes, polkit: Bytes)

  // "THD73Q1\0", "THD73T1\0" and "the-hive.d73.execution-policy".
  const Magic: Bytes := [84, 72, 68, 55, 51, 81, 49, 0]
  const TupleMagic: Bytes := [84, 72, 68, 55, 51, 84, 49, 0]
  const Namespace: Bytes :=
    [116, 104, 101, 45, 104, 105, 118, 101, 46, 100, 55, 51, 46, 101, 120, 101, 99, 117, 116, 105, 111, 110, 45,
     112, 111, 108, 105, 99, 121]
  const HeaderLength := 300
  const MinTotal := 507
  const MaxTotal := 533191
  const MinLeaf := 49
  const MaxLeaf := 8192
  const MinTuple := 157
  const MaxTuple := 411
  const MinManifest := 1
  const MaxManifest := 524288
  const FileMode := 384 // octal 600
  const RequiredSeals := 0xF
  const RequiredFdFlags := 1

  datatype Label = LeafLabel | ManifestLabel | TupleLabel | DescriptorLabel | BinderLabel | GenerationLabel

  // "the-hive/d73/q1/"
  const LabelStem: Bytes := [116, 104, 101, 45, 104, 105, 118, 101, 47, 100, 55, 51, 47, 113, 49, 47]

  /** "leaf", "manifest", "tuple-core", "descriptor", "binder" and "generation". */
  function LabelName(kind: Label): Bytes {
    match kind
    case LeafLabel => [108, 101, 97, 102]
    case ManifestLabel => [109, 97, 110, 105, 102, 101, 115, 116]
    case TupleLabel => [116, 117, 112, 108, 101, 45, 99, 111, 114, 101]
    case DescriptorLabel => [100, 101, 115, 99, 114, 105, 112, 116, 111, 114]
    case BinderLabel => [98, 105, 110, 100, 101, 114]
    case GenerationLabel => [103, 101, 110, 101, 114, 97, 116, 105, 111, 110]
  }

  /** Each label is the stem, its own name, and "/v1". */
  function LabelBytes(kind: Label): Bytes {
    LabelStem + LabelName(kind) + [47, 118, 49]
  }

  /** What is hashed for a payload: its label, a zero byte, its length, and the payload. */
  function HashInput(kind: Label, payload: Bytes): Bytes
    requires |payload| < 0x1_0000_0000
  {
    LabelBytes(kind) + [0] + U32(|payload|) + payload
  }

  function DigestOf(env: Env, kind: Label, payload: Bytes): Digest
    requires |payload| < 0x1_0000_0000
  {
    env.hash(HashInput(kind, payload))
  }

  // ---- what each input must look like ----

  predicate ExactAscii(b: Bytes, minimum: nat, maximum: nat) {
    minimum <= |b| <= maximum && forall i :: 0 <= i < |b| ==> 0x21 <= b[i] <= 0x7E
  }

  predicate GenerationOk(b: Bytes) {
    ExactAscii(b, 1, 255) && 47 !in b && b != [46] && b != [46, 46]
  }

  predicate BusNameOk(b: Bytes) {
    ExactAscii(b, 1, 255) && b[0] != 58
  }

  predicate SelinuxOk(b: Bytes) {
    1 <= |b| <= 4096 && 0 !in b
  }

  predicate PolkitOk(b: Bytes) {
    ExactAscii(b, 1, 255)
  }

  predicate CommitOk(b: Bytes) {
    |b| == 40 && forall i :: 0 <= i < |b| ==> 48 <= b[i] <= 57 || 97 <= b[i] <= 102
  }

  predicate Unsigned32(n: int) {
    0 <= n < 0x1_0000_0000
  }

  predicate Unsigned64(n: int) {
    0 <= n < 0x1_0000_0000_0000_0000
  }

  predicate IdentityOk(id: Identity) {
    Unsigned32(id.uid) && Unsigned32(id.gid) && Unsigned64(id.device) && Unsigned64(id.inode) && Unsigned64(id.size)
  }

  predicate ManifestOk(env: Env, manifest: Bytes, commit: Bytes, generation: Bytes) {
    MinManifest <= |manifest| <= MaxManifest && env.grammar(manifest, commit, generation)
  }

  predicate LeafOk(l: Leaf) {
    && Unsigned32(l.expectedUid)
    && GenerationOk(l.generation)
    && BusNameOk(l.busName)
    && SelinuxOk(l.selinux)
    && PolkitOk(l.polkit)
  }

  function LeafOf(r: Record): Leaf {
    Leaf(r.expectedUid, r.generation, r.busName, r.selinux, r.polkit)
  }

  predicate RecordOk(env: Env, r: Record) {
    && CommitOk(r.commit)
    && LeafOk(LeafOf(r))
    && ManifestOk(env, r.manifest, r.commit, r.generation)
  }

  // ---- encoding ----


  function EncodeLeaf(l: Leaf): (r: Bytes)
    requires LeafOk(l)
    ensures |r| == 45 + |l.generation| + |l.busName| + |l.selinux| + |l.polkit|
    ensures MinLeaf <= |r| <= MaxLeaf
  {
    Namespace + U16(1) + U16(0) + U32(l.expectedUid)
    + U16(|l.generation|) + l.generation
    + U16(|l.busName|) + l.busName
    + U16(|l.selinux|) + l.selinux
    + U16(|l.polkit|) + l.polkit
  }

  datatype Lengths = Lengths(leaf: nat, tuple: nat, manifest: nat)

  predicate LengthsOk(n: Lengths) {
    MinLeaf <= n.leaf <= MaxLeaf && MinTuple <= n.tuple <= MaxTuple && MinManifest <= n.manifest <= MaxManifest
  }

  function Total(n: Lengths): nat {
    HeaderLength + n.leaf + n.tuple + n.manifest
  }

  /** The 108 header bytes that name the file and the section lengths. */
  function Prefix(commit: Bytes, id: Identity, n: Lengths): (r: Bytes)
    requires CommitOk(commit) && IdentityOk(id) && LengthsOk(n)
    ensures |r| == 108
  {
    Magic + U16(1) + U16(HeaderLength) + U32(Total(n)) + commit
    + U32(id.uid) + U32(id.gid) + U32(FileMode) + U32(0)
    + U64(id.device) + U64(id.inode)
    + U32(n.leaf) + U32(n.tuple) + U32(n.manifest)
    + U32(RequiredSeals) + U32(RequiredFdFlags)
  }

  function Zeros(): Digest {
    seq(32, _ => 0)
  }

  function EncodeTuple(commit: Bytes, generation: Bytes, manifest: Digest, leaf: Digest, binder: Digest): (r: Bytes)
    requires CommitOk(commit) && GenerationOk(generation)
    ensures |r| == 156 + |generation|
  {
    TupleMagic + U16(1) + U16(0) + U32(156 + |generation|) + commit
    + U16(|generation|) + U16(0) + manifest + leaf + binder + generation
  }

  /** What the header says about the sections: their digests, and the binder over those digests. */
  datatype Digests = Digests(leaf: Digest, manifest: Digest, tuple: Digest, descriptor: Digest, binder: Digest)

  function BinderInput(commit: Bytes, d: Digests): Bytes {
    Namespace + U16(1) + commit + d.leaf + d.manifest + d.tuple + d.descriptor
  }

  function Header(prefix: Bytes, d: Digests): (r: Bytes)
    ensures |r| == |prefix| + 160
  {
    prefix + d.leaf + d.manifest + d.tuple + d.descriptor + d.binder
  }

  /** A record cut at its section boundaries. */
  datatype Parts = Parts(
    prefix: Bytes,
    digests: Digests,
    generationDigest: Digest,
    leaf: Bytes,
    tuple: Bytes,
    manifest: Bytes)

  function Join(p: Parts): Bytes {
    Header(p.prefix, p.digests) + p.generationDigest + p.leaf + p.tuple + p.manifest
  }

  function Cut(raw: Bytes, n: Lengths): Parts
    requires |raw| == Total(n)
  {
    Parts(
      raw[..108],
      Digests(raw[108..140], raw[140..172], raw[172..204], raw[204..236], raw[236..268]),
      raw[268..300],
      raw[300..300 + n.leaf],
      raw[300 + n.leaf..300 + n.leaf + n.tuple],
      raw[300 + n.leaf + n.tuple..])
  }

  function LengthsOf(r: Record): Lengths
    requires LeafOk(LeafOf(r))
  {
    Lengths(|EncodeLeaf(LeafOf(r))|, 156 + |r.generation|, |r.manifest|)
  }

  /** Everything the encoder computes; the tuple is digested with its binder slot zeroed. */
  function PartsOf(env: Env, r: Record, id: Identity): Parts
    requires RecordOk(env, r) && IdentityOk(id)
  {
    var leaf := EncodeLeaf(LeafOf(r));
    var prefix := Prefix(r.commit, id, LengthsOf(r));
    var leafDigest := DigestOf(env, LeafLabel, leaf);
    var manifestDigest := DigestOf(env, ManifestLabel, r.manifest);
    var descriptorDigest := DigestOf(env, DescriptorLabel, prefix);
    var unbound := EncodeTuple(r.commit, r.generation, manifestDigest, leafDigest, Zeros());
    var tupleDigest := DigestOf(env, TupleLabel, unbound);
    var open := Digests(leafDigest, manifestDigest, tupleDigest, descriptorDigest, Zeros());
    var d := open.(binder := DigestOf(env, BinderLabel, BinderInput(r.commit, open)));
    var tuple := EncodeTuple(r.commit, r.generation, manifestDigest, leafDigest, d.binder);
    Parts(prefix, d, DigestOf(env, GenerationLabel, Header(prefix, d)), leaf, tuple, r.manifest)
  }

  function Encode(env: Env, r: Record, id: Identity): Option<Bytes> {
    if RecordOk(env, r) && IdentityOk(id) && MinTotal <= Total(LengthsOf(r)) <= MaxTotal then
      Some(Join(PartsOf(env, r, id)))
    else
      None
  }

  // ---- decoding ----

  function TakeSized(raw: Bytes, start: nat): Option<(Bytes, nat)> {
    if start + 2 > |raw| then None
    else
      var length := At(raw, start, 2);
      if start + 2 + length > |raw| then None
      else Some((raw[start + 2..start + 2 + length], start + 2 + length))
  }

  function DecodeLeaf(raw: Bytes): Option<Leaf> {
    if !(MinLeaf <= |raw| <= MaxLeaf) then None
    else if raw[..29] != Namespace || At(raw, 29, 2) != 1 || At(raw, 31, 2) != 0 then None
    else
      var uid := At(raw, 33, 4);
      var g := TakeSized(raw, 37);
      if g.None? then None else
      var b := TakeSized(raw, g.value.1);
      if b.None? then None else
      var s := TakeSized(raw, b.value.1);
      if s.None? then None else
      var p := TakeSized(raw, s.value.1);
      if p.None? || p.value.1 != |raw| then None else
      var l := Leaf(uid, g.value.0, b.value.0, s.value.0, p.value.0);
      if GenerationOk(l.generation) && BusNameOk(l.busName) && SelinuxOk(l.selinux) && PolkitOk(l.polkit) then
        Some(l)
      else
        None
  }

  predicate TupleReads(raw: Bytes, commit: Bytes, generation: Bytes, manifest: Bytes, leaf: Bytes, binder: Bytes) {
    && MinTuple <= |raw| <= MaxTuple
    && raw[..8] == TupleMagic
    && At(raw, 8, 2) == 1
    && At(raw, 10, 2) == 0
    && At(raw, 12, 4) == |raw|
    && |raw| == 156 + |generation|
    && raw[16..56] == commit
    && At(raw, 56, 2) == |generation|
    && At(raw, 58, 2) == 0
    && raw[60..92] == manifest
    && raw[92..124] == leaf
    && raw[124..156] == binder
    && raw[156..] == generation
  }

  /** The comparisons the decoder makes on the prefix of a record of the given length. */
  predicate PrefixReads(prefix: Bytes, total: nat, id: Identity)
    requires |prefix| == 108
  {
    && prefix[..8] == Magic
    && At(prefix, 8, 2) == 1
    && At(prefix, 10, 2) == HeaderLength
    && At(prefix, 12, 4) == total
    && CommitOk(prefix[16..56])
    && At(prefix, 56, 4) == id.uid
    && At(prefix, 60, 4) == id.gid
    && At(prefix, 64, 4) == FileMode
    && At(prefix, 68, 4) == 0
    && At(prefix, 72, 8) == id.device
    && At(prefix, 80, 8) == id.inode
    && At(prefix, 100, 4) == RequiredSeals
    && At(prefix, 104, 4) == RequiredFdFlags
  }

  function ReadLengths(prefix: Bytes): Lengths
    requires |prefix| == 108
  {
    Lengths(At(prefix, 88, 4), At(prefix, 92, 4), At(prefix, 96, 4))
  }

  predicate DigestReads(env: Env, p: Parts, commit: Bytes)
    requires |p.prefix| == 108 && |commit| == 40
    requires |p.leaf| <= MaxLeaf && 156 <= |p.tuple| <= MaxTuple && |p.manifest| <= MaxManifest
  {
    && p.digests.leaf == DigestOf(env, LeafLabel, p.leaf)
    && p.digests.manifest == DigestOf(env, ManifestLabel, p.manifest)
    && p.digests.tuple == DigestOf(env, TupleLabel, p.tuple[..124] + Zeros() + p.tuple[156..])
    && p.digests.descriptor == DigestOf(env, DescriptorLabel, p.prefix)
    && p.digests.binder == DigestOf(env, BinderLabel, BinderInput(commit, p.digests))
    && p.generationDigest == DigestOf(env, GenerationLabel, Header(p.prefix, p.digests))
  }

  predicate PartLengths(p: Parts, n: Lengths) {
    |p.prefix| == 108 && |p.leaf| == n.leaf && |p.tuple| == n.tuple && |p.manifest| == n.manifest
  }

  /** The checks on the sections, once the header has said where they are. */
  function DecodeParts(env: Env, p: Parts, n: Lengths): Option<Record>
    requires LengthsOk(n) && PartLengths(p, n)
  {
    var commit := p.prefix[16..56];
    var l := DecodeLeaf(p.leaf);
    if l.None? then None
    else if !TupleReads(p.tuple, commit, l.value.generation, p.digests.manifest, p.digests.leaf, p.digests.binder) then
      None
    else if !ManifestOk(env, p.manifest, commit, l.value.generation) then None
    else if !DigestReads(env, p, commit) then None
    else
      Some(Record(commit, l.value.generation, l.value.expectedUid, l.value.busName, l.value.selinux, l.value.polkit,
                  p.manifest))
  }

  function Decode(env: Env, raw: Bytes, id: Identity): Option<Record> {
    if !IdentityOk(id) || !(MinTotal <= |raw| <= MaxTotal) || id.size != |raw| then None
    else if !PrefixReads(raw[..108], |raw|, id) then None
    else
      var n := ReadLengths(raw[..108]);
      if !LengthsOk(n) || Total(n) != |raw| then None
      else DecodeParts(env, Cut(raw, n), n)
  }
}
