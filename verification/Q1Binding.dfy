/**
 * What the digests of a Q1 record cover.  Each is pinned to the bytes it is taken over, by offset, and
 * the binder alone determines the whole record and its descriptor: two accepted records with one binder
 * are equal, or two different hashed byte strings with one hash are at hand.  No property of the hash is used.
 */
module Q1Binding {
  import opened Core
  import opened Octets
  import opened Q1Record
  import opened Q1RoundTrip

  // ---- labels and framing ----

  ghost function Ascii(text: string): Bytes {
    seq(|text|, i requires 0 <= i < |text| => text[i] as int % 256)
  }

  lemma AsciiAppend(a: string, b: string)
    ensures Ascii(a + b) == Ascii(a) + Ascii(b)
  {
  }

  ghost function LabelWord(kind: Label): string {
    match kind
    case LeafLabel => "leaf"
    case ManifestLabel => "manifest"
    case TupleLabel => "tuple-core"
    case DescriptorLabel => "descriptor"
    case BinderLabel => "binder"
    case GenerationLabel => "generation"
  }

  lemma WordTexts(kind: Label)
    ensures LabelName(kind) == Ascii(LabelWord(kind))
  {
  }

  /** The labels are the names of the format. */
  lemma LabelTexts(kind: Label)
    ensures LabelBytes(kind) == Ascii("the-hive/d73/q1/" + LabelWord(kind) + "/v1")
  {
    hide LabelName, LabelWord;
    AsciiAppend("the-hive/d73/q1/" + LabelWord(kind), "/v1");
    AsciiAppend("the-hive/d73/q1/", LabelWord(kind));
    assert LabelStem == Ascii("the-hive/d73/q1/");
    assert [47, 118, 49] == Ascii("/v1");
    WordTexts(kind);
  }

  lemma NamespaceText()
    ensures Namespace == Ascii("the-hive.d73.execution-policy")
  {
  }

  lemma MagicTexts()
    ensures Magic == Ascii("THD73Q1\0") && TupleMagic == Ascii("THD73T1\0")
  {
  }

  lemma LabelsClean(kind: Label)
    ensures 0 !in LabelBytes(kind) && |LabelBytes(kind)| >= 20
  {
  }

  /** After the stem, already the first two bytes tell the labels apart. */
  lemma LabelsDiffer(a: Label, b: Label)
    requires LabelBytes(a)[16..18] == LabelBytes(b)[16..18]
    ensures a == b
  {
    assert LabelBytes(a)[16..18] == [LabelBytes(a)[16], LabelBytes(a)[17]];
    assert LabelBytes(b)[16..18] == [LabelBytes(b)[16], LabelBytes(b)[17]];
  }

  /** Domains are separate: what is hashed determines the label and the payload. */
  lemma HashInputInjective(a: Label, x: Bytes, b: Label, y: Bytes)
    requires |x| < 0x1_0000_0000 && |y| < 0x1_0000_0000
    requires HashInput(a, x) == HashInput(b, y)
    ensures a == b && x == y
  {
    var h := HashInput(a, x);
    LabelsClean(a);
    LabelsClean(b);
    hide LabelBytes, U32;
    assert h[16..18] == LabelBytes(a)[16..18] == LabelBytes(b)[16..18];
    LabelsDiffer(a, b);
    var k := |LabelBytes(a)| + 5;
    assert h[k..] == x && h[k..] == y;
  }

  // ---- the binder ----

  /** The commit and the four digests, each at its own offset of the bytes the binder is taken over. */
  lemma BinderLayout(commit: Bytes, d: Digests)
    requires |commit| == 40
    ensures var h := BinderInput(commit, d);
            && |h| == 199 && h[..29] == Namespace && At(h, 29, 2) == 1
            && h[31..71] == commit && h[71..103] == d.leaf && h[103..135] == d.manifest
            && h[135..167] == d.tuple && h[167..199] == d.descriptor
  {
    var h := BinderInput(commit, d);
    var p1 := Namespace + U16(1);
    var p2 := p1 + commit;
    var p3 := p2 + d.leaf;
    var p4 := p3 + d.manifest;
    var p5 := p4 + d.tuple;
    assert h == p5 + d.descriptor && h[..199] == h;
    hide U16, Namespace;
    Joined(h, 167, 199, p5, d.descriptor);
    Joined(h, 135, 167, p4, d.tuple);
    Joined(h, 103, 135, p3, d.manifest);
    Joined(h, 71, 103, p2, d.leaf);
    Joined(h, 31, 71, p1, commit);
    Joined(h, 29, 31, Namespace, U16(1));
    At16(h, 29, 1);
  }

  lemma BinderInjective(commit: Bytes, d: Digests, commit': Bytes, d': Digests)
    requires |commit| == 40 && |commit'| == 40 && BinderInput(commit, d) == BinderInput(commit', d')
    ensures commit == commit' && d' == d.(binder := d'.binder)
  {
    hide BinderInput;
    BinderLayout(commit, d);
    BinderLayout(commit', d');
  }

  // ---- what an accepted record hashes ----

  /** An accepted byte string, cut where its header says, is what the encoder builds for its record. */
  lemma AcceptedParts(env: Env, raw: Bytes, id: Identity)
    requires Decode(env, raw, id).Some?
    ensures var r := Decode(env, raw, id).value;
            && RecordOk(env, r) && IdentityOk(id) && id.size == |raw|
            && |raw| == Total(ReadLengths(raw[..108])) && ReadLengths(raw[..108]) == LengthsOf(r)
            && Cut(raw, LengthsOf(r)) == PartsOf(env, r, id)
  {
    var n := ReadLengths(raw[..108]);
    hide EncodeLeaf, EncodeTuple, Prefix, Join, DecodeParts, PartsOf, CommitOk, LeafOk, PrefixReads, ReadLengths;
    EncodeDecode(env, raw, id);
    var r := Decode(env, raw, id).value;
    PartsShape(env, r, id);
    CutIff(raw, PartsOf(env, r, id), LengthsOf(r));
    PrefixIff(raw[..108], r.commit, id, LengthsOf(r));
  }

  /** Where the tuple section of a record starts and where it ends. */
  ghost function TupleAt(raw: Bytes): (nat, nat)
    requires |raw| >= 108
  {
    var n := ReadLengths(raw[..108]);
    (300 + n.leaf, 300 + n.leaf + n.tuple)
  }

  /** Every digest of an accepted record, with the bytes it covers. */
  ghost predicate Covered(env: Env, raw: Bytes)
    requires 300 <= |raw| < 0x1_0000_0000
  {
    var (a, b) := TupleAt(raw);
    && 300 <= a && a + 156 <= b <= |raw|
    && raw[108..140] == DigestOf(env, LeafLabel, raw[300..a])
    && raw[140..172] == DigestOf(env, ManifestLabel, raw[b..])
    && raw[172..204] == DigestOf(env, TupleLabel, raw[a..a + 124] + seq(32, _ => 0) + raw[a + 156..b])
    && raw[204..236] == DigestOf(env, DescriptorLabel, raw[..108])
    && raw[236..268] == DigestOf(env, BinderLabel, Namespace + [0, 1] + raw[16..56] + raw[108..236])
    && raw[268..300] == DigestOf(env, GenerationLabel, raw[..268])
  }

  lemma DigestsAt(raw: Bytes, d: Digests)
    requires |raw| >= 268
    requires raw[108..140] == d.leaf && raw[140..172] == d.manifest && raw[172..204] == d.tuple && raw[204..236] == d.descriptor
    requires raw[236..268] == d.binder
    ensures BinderInput(raw[16..56], d) == Namespace + [0, 1] + raw[16..56] + raw[108..236]
    ensures Header(raw[..108], d) == raw[..268]
  {
    HeaderIff(raw, raw[..108], d);
    assert U16(1) == [0, 1] by {
      assert Field(1 / 256, 1) == Field(0, 0) + [0];
    }
    assert raw[108..236] == d.leaf + d.manifest + d.tuple + d.descriptor;
  }

  lemma DecodedReads(env: Env, raw: Bytes, id: Identity)
    requires Decode(env, raw, id).Some?
    ensures 300 <= |raw| < 0x1_0000_0000
    ensures var n := ReadLengths(raw[..108]);
            LengthsOk(n) && Total(n) == |raw| && DigestReads(env, Cut(raw, n), raw[16..56])
  {
    hide DigestReads, DecodeLeaf, TupleReads, PrefixReads, ReadLengths, ManifestOk;
    assert raw[..108][16..56] == raw[16..56];
  }

  /** Each of the six digests of an accepted record is the digest of exactly these bytes of it. */
  lemma DigestsCover(env: Env, raw: Bytes, id: Identity)
    requires Decode(env, raw, id).Some?
    ensures 300 <= |raw| < 0x1_0000_0000 && Covered(env, raw)
  {
    hide Decode, HashInput, ReadLengths, BinderInput, Header;
    DecodedReads(env, raw, id);
    var n := ReadLengths(raw[..108]);
    var p := Cut(raw, n);
    DigestsAt(raw, p.digests);
    var (a, b) := TupleAt(raw);
    assert p.tuple[..124] == raw[a..a + 124] && p.tuple[156..] == raw[a + 156..b];
  }

  // ---- what the fields may hold ----

  /** Visible ASCII, from '!' to '~'. */
  ghost predicate Visible(b: Bytes) {
    1 <= |b| <= 255 && forall x :: x in b ==> '!' as int <= x <= '~' as int
  }

  ghost predicate HexDigits(b: Bytes) {
    forall x :: x in b ==> '0' as int <= x <= '9' as int || 'a' as int <= x <= 'f' as int
  }

  /**
   * The well-formed inputs, in the format's own words: a commit of forty hexadecimal digits, a generation
   * that is a file name and no path, a bus name that is no unique name, a context without a zero byte.
   */
  lemma FieldsExactly(env: Env, r: Record)
    ensures RecordOk(env, r) <==>
            && |r.commit| == 40 && HexDigits(r.commit)
            && 0 <= r.expectedUid <= 0xFFFF_FFFF
            && Visible(r.generation) && '/' as int !in r.generation && r.generation != ['.' as int] && r.generation != ['.' as int, '.' as int]
            && Visible(r.busName) && r.busName[0] != ':' as int
            && 1 <= |r.selinux| <= 4096 && 0 !in r.selinux
            && Visible(r.polkit)
            && 1 <= |r.manifest| <= 524288 && env.grammar(r.manifest, r.commit, r.generation)
  {
    VisibleExactly(r.generation);
    VisibleExactly(r.busName);
    VisibleExactly(r.polkit);
    HexExactly(r.commit);
    hide ExactAscii, Visible;
  }

  lemma VisibleExactly(b: Bytes)
    ensures ExactAscii(b, 1, 255) <==> Visible(b)
    ensures Visible(b) ==> |b| >= 1
  {
    assert forall i :: 0 <= i < |b| ==> b[i] in b;
  }

  lemma HexExactly(b: Bytes)
    ensures CommitOk(b) <==> |b| == 40 && HexDigits(b)
  {
    assert forall i :: 0 <= i < |b| ==> b[i] in b;
  }

  // ---- one binder, one record ----

  /** The byte strings hashed for the leaf, the manifest, the descriptor and the binder of a record. */
  ghost function Hashed(env: Env, r: Record, id: Identity): set<Bytes>
    requires RecordOk(env, r) && IdentityOk(id)
  {
    var p := PartsOf(env, r, id);
    {HashInput(LeafLabel, p.leaf), HashInput(ManifestLabel, p.manifest), HashInput(DescriptorLabel, p.prefix),
     HashInput(BinderLabel, BinderInput(r.commit, p.digests))}
  }

  /** Two different byte strings, each hashed for one of the two records, with one hash. */
  ghost predicate Collision(env: Env, r: Record, id: Identity, r': Record, id': Identity, x: Bytes, y: Bytes)
    requires RecordOk(env, r) && IdentityOk(id) && RecordOk(env, r') && IdentityOk(id')
  {
    x in Hashed(env, r, id) && y in Hashed(env, r', id') && x != y && env.hash(x) == env.hash(y)
  }

  lemma HashedMembers(env: Env, r: Record, id: Identity)
    requires RecordOk(env, r) && IdentityOk(id)
    ensures var p := PartsOf(env, r, id);
            && |p.leaf| <= MaxLeaf && |p.manifest| <= MaxManifest && |p.prefix| == 108
            && |BinderInput(r.commit, p.digests)| < 0x1_0000_0000
            && HashInput(LeafLabel, p.leaf) in Hashed(env, r, id) && HashInput(ManifestLabel, p.manifest) in Hashed(env, r, id)
            && HashInput(DescriptorLabel, p.prefix) in Hashed(env, r, id)
            && HashInput(BinderLabel, BinderInput(r.commit, p.digests)) in Hashed(env, r, id)
  {
    hide EncodeLeaf, EncodeTuple, Prefix, HashInput;
  }

  lemma PartsDigests(env: Env, r: Record, id: Identity)
    requires RecordOk(env, r) && IdentityOk(id)
    ensures var p := PartsOf(env, r, id);
            && |p.leaf| <= MaxLeaf && |p.manifest| <= MaxManifest && |p.prefix| == 108 && |r.commit| == 40
            && |BinderInput(r.commit, p.digests)| < 0x1_0000_0000
            && p.leaf == EncodeLeaf(LeafOf(r)) && p.manifest == r.manifest
            && p.digests.leaf == env.hash(HashInput(LeafLabel, p.leaf))
            && p.digests.manifest == env.hash(HashInput(ManifestLabel, p.manifest))
            && p.digests.descriptor == env.hash(HashInput(DescriptorLabel, p.prefix))
            && p.digests.binder == env.hash(HashInput(BinderLabel, BinderInput(r.commit, p.digests)))
  {
    hide EncodeLeaf, EncodeTuple, Prefix, HashInput;
  }

  /** Equal binders: equal commits and sections, or a collision. */
  lemma PartsBound(env: Env, r: Record, id: Identity, r': Record, id': Identity) returns (x: Bytes, y: Bytes)
    requires RecordOk(env, r) && IdentityOk(id) && RecordOk(env, r') && IdentityOk(id')
    requires PartsOf(env, r, id).digests.binder == PartsOf(env, r', id').digests.binder
    ensures var p, p' := PartsOf(env, r, id), PartsOf(env, r', id');
            || Collision(env, r, id, r', id', x, y)
            || (r.commit == r'.commit && p.leaf == p'.leaf && p.manifest == p'.manifest && p.prefix == p'.prefix)
  {
    PartsDigests(env, r, id);
    PartsDigests(env, r', id');
    HashedMembers(env, r, id);
    HashedMembers(env, r', id');
    hide PartsOf, HashInput, BinderInput, RecordOk, IdentityOk, EncodeLeaf, Hashed;
    var p, p' := PartsOf(env, r, id), PartsOf(env, r', id');
    var c, c' := BinderInput(r.commit, p.digests), BinderInput(r'.commit, p'.digests);
    x, y := HashInput(BinderLabel, c), HashInput(BinderLabel, c');
    if x == y {
      HashInputInjective(BinderLabel, c, BinderLabel, c');
      BinderInjective(r.commit, p.digests, r'.commit, p'.digests);
      x, y := HashInput(LeafLabel, p.leaf), HashInput(LeafLabel, p'.leaf);
      if x == y {
        HashInputInjective(LeafLabel, p.leaf, LeafLabel, p'.leaf);
        x, y := HashInput(ManifestLabel, p.manifest), HashInput(ManifestLabel, p'.manifest);
        if x == y {
          HashInputInjective(ManifestLabel, p.manifest, ManifestLabel, p'.manifest);
          x, y := HashInput(DescriptorLabel, p.prefix), HashInput(DescriptorLabel, p'.prefix);
          if x == y {
            HashInputInjective(DescriptorLabel, p.prefix, DescriptorLabel, p'.prefix);
          }
        }
      }
    }
  }

  lemma LeafInjective(l: Leaf, l': Leaf)
    requires LeafOk(l) && LeafOk(l') && EncodeLeaf(l) == EncodeLeaf(l')
    ensures l == l'
  {
    LeafIff(EncodeLeaf(l), l);
    LeafIff(EncodeLeaf(l), l');
  }

  lemma PrefixInjective(commit: Bytes, id: Identity, n: Lengths, commit': Bytes, id': Identity, n': Lengths)
    requires CommitOk(commit) && IdentityOk(id) && LengthsOk(n) && CommitOk(commit') && IdentityOk(id') && LengthsOk(n')
    requires Prefix(commit, id, n) == Prefix(commit', id', n')
    ensures commit == commit' && n == n' && id' == id.(size := id'.size)
  {
    hide Prefix, CommitOk, IdentityOk, LengthsOk;
    var raw := Prefix(commit, id, n);
    PrefixIff(raw, commit, id, n);
    PrefixIff(raw, commit', id', n');
  }

  /**
   * Bytes 236..268 bind everything: two accepted byte strings that agree there are equal and belong to one
   * descriptor, or the two byte strings returned are different, hashed for them, and hash alike.
   */
  lemma BinderBinds(env: Env, raw: Bytes, id: Identity, raw': Bytes, id': Identity) returns (x: Bytes, y: Bytes)
    requires Decode(env, raw, id).Some? && Decode(env, raw', id').Some?
    requires 268 <= |raw| && 268 <= |raw'| && raw[236..268] == raw'[236..268]
    ensures || (raw == raw' && id == id')
            || (var r, r' := Decode(env, raw, id).value, Decode(env, raw', id').value;
                && RecordOk(env, r) && IdentityOk(id) && RecordOk(env, r') && IdentityOk(id')
                && Collision(env, r, id, r', id', x, y))
  {
    hide Decode, Encode, PartsOf, RecordOk, IdentityOk, LengthsOf, Collision, ReadLengths;
    AcceptedParts(env, raw, id);
    AcceptedParts(env, raw', id');
    EncodeDecode(env, raw, id);
    EncodeDecode(env, raw', id');
    var r, r' := Decode(env, raw, id).value, Decode(env, raw', id').value;
    x, y := PartsBound(env, r, id, r', id');
    if !Collision(env, r, id, r', id', x, y) {
      SectionsDetermine(env, r, id, r', id');
    }
  }

  /** The sections of a record determine it, and its file. */
  lemma SectionsDetermine(env: Env, r: Record, id: Identity, r': Record, id': Identity)
    requires RecordOk(env, r) && IdentityOk(id) && RecordOk(env, r') && IdentityOk(id')
    requires var p, p' := PartsOf(env, r, id), PartsOf(env, r', id');
             r.commit == r'.commit && p.leaf == p'.leaf && p.manifest == p'.manifest && p.prefix == p'.prefix
    ensures r == r' && id' == id.(size := id'.size)
  {
    PartsDigests(env, r, id);
    PartsDigests(env, r', id');
    PartsShape(env, r, id);
    PartsShape(env, r', id');
    hide PartsOf, EncodeLeaf, Prefix, LengthsOf, CommitOk, LeafOk, IdentityOk, LengthsOk, Join, HashInput, ManifestOk;
    LeafInjective(LeafOf(r), LeafOf(r'));
    PrefixInjective(r.commit, id, LengthsOf(r), r'.commit, id', LengthsOf(r'));
  }
}
