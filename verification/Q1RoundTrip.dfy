/** The Q1 codec is a bijection: both round trips, for any hash and any manifest grammar. */
module Q1RoundTrip {
  import opened Core
  import opened Octets
  import opened Q1Record

  // ---- the header prefix ----

  function PrefixStart(commit: Bytes, total: nat): (r: Bytes)
    requires |commit| == 40 && total < 0x1_0000_0000
    ensures |r| == 56
  {
    Magic + U16(1) + U16(HeaderLength) + U32(total) + commit
  }

  lemma PrefixStartIff(raw: Bytes, commit: Bytes, total: nat)
    requires |raw| == 108 && |commit| == 40 && total < 0x1_0000_0000
    ensures raw[..56] == PrefixStart(commit, total) <==>
            (raw[..8] == Magic && At(raw, 8, 2) == 1 && At(raw, 10, 2) == HeaderLength && At(raw, 12, 4) == total &&
             raw[16..56] == commit)
  {
    At16(raw, 8, 1);
    At16(raw, 10, HeaderLength);
    At32(raw, 12, total);
    var p1 := Magic + U16(1);
    var p2 := p1 + U16(HeaderLength);
    var p3 := p2 + U32(total);
    Joined(raw, 8, 10, Magic, U16(1));
    Joined(raw, 10, 12, p1, U16(HeaderLength));
    Joined(raw, 12, 16, p2, U32(total));
    Joined(raw, 16, 56, p3, commit);
  }

  function PrefixOwner(start: Bytes, id: Identity): (r: Bytes)
    requires |start| == 56 && IdentityOk(id)
    ensures |r| == 88
  {
    start + U32(id.uid) + U32(id.gid) + U32(FileMode) + U32(0) + U64(id.device) + U64(id.inode)
  }

  lemma PrefixOwnerIff(raw: Bytes, start: Bytes, id: Identity)
    requires |raw| == 108 && |start| == 56 && IdentityOk(id)
    ensures raw[..88] == PrefixOwner(start, id) <==>
            (raw[..56] == start && At(raw, 56, 4) == id.uid && At(raw, 60, 4) == id.gid &&
             At(raw, 64, 4) == FileMode && At(raw, 68, 4) == 0 && At(raw, 72, 8) == id.device &&
             At(raw, 80, 8) == id.inode)
  {
    hide Value, Field;
    At32(raw, 56, id.uid);
    At32(raw, 60, id.gid);
    At32(raw, 64, FileMode);
    At32(raw, 68, 0);
    At64(raw, 72, id.device);
    At64(raw, 80, id.inode);
    var p1 := start + U32(id.uid);
    var p2 := p1 + U32(id.gid);
    var p3 := p2 + U32(FileMode);
    var p4 := p3 + U32(0);
    var p5 := p4 + U64(id.device);
    Joined(raw, 56, 60, start, U32(id.uid));
    Joined(raw, 60, 64, p1, U32(id.gid));
    Joined(raw, 64, 68, p2, U32(FileMode));
    Joined(raw, 68, 72, p3, U32(0));
    Joined(raw, 72, 80, p4, U64(id.device));
    Joined(raw, 80, 88, p5, U64(id.inode));
  }

  lemma PrefixTailIff(raw: Bytes, owner: Bytes, n: Lengths)
    requires |raw| == 108 && |owner| == 88 && LengthsOk(n)
    ensures raw[..108] == owner + U32(n.leaf) + U32(n.tuple) + U32(n.manifest) + U32(RequiredSeals)
                          + U32(RequiredFdFlags) <==>
            (raw[..88] == owner && At(raw, 88, 4) == n.leaf && At(raw, 92, 4) == n.tuple &&
             At(raw, 96, 4) == n.manifest && At(raw, 100, 4) == RequiredSeals && At(raw, 104, 4) == RequiredFdFlags)
  {
    At32(raw, 88, n.leaf);
    At32(raw, 92, n.tuple);
    At32(raw, 96, n.manifest);
    At32(raw, 100, RequiredSeals);
    At32(raw, 104, RequiredFdFlags);
    var p1 := owner + U32(n.leaf);
    var p2 := p1 + U32(n.tuple);
    var p3 := p2 + U32(n.manifest);
    var p4 := p3 + U32(RequiredSeals);
    Joined(raw, 88, 92, owner, U32(n.leaf));
    Joined(raw, 92, 96, p1, U32(n.tuple));
    Joined(raw, 96, 100, p2, U32(n.manifest));
    Joined(raw, 100, 104, p3, U32(RequiredSeals));
    Joined(raw, 104, 108, p4, U32(RequiredFdFlags));
  }

  /** The header comparisons and the three lengths read say exactly that the prefix is the encoded one. */
  lemma PrefixIff(raw: Bytes, commit: Bytes, id: Identity, n: Lengths)
    requires |raw| == 108 && CommitOk(commit) && IdentityOk(id) && LengthsOk(n)
    ensures raw == Prefix(commit, id, n) <==>
            PrefixReads(raw, Total(n), id) && raw[16..56] == commit && ReadLengths(raw) == n
  {
    var start := PrefixStart(commit, Total(n));
    var owner := PrefixOwner(start, id);
    assert Prefix(commit, id, n) ==
           owner + U32(n.leaf) + U32(n.tuple) + U32(n.manifest) + U32(RequiredSeals) + U32(RequiredFdFlags);
    assert raw[..108] == raw;
    PrefixStartIff(raw, commit, Total(n));
    PrefixOwnerIff(raw, start, id);
    PrefixTailIff(raw, owner, n);
  }

  // ---- the leaf ----

  lemma SizedIff(raw: Bytes, start: nat, before: Bytes, body: Bytes)
    requires start + 2 + |body| <= |raw| && |before| == start && |body| < 0x1_0000
    ensures raw[..start + 2 + |body|] == before + U16(|body|) + body <==>
            raw[..start] == before && TakeSized(raw, start) == Some((body, start + 2 + |body|))
  {
    At16(raw, start, |body|);
    var end := start + 2 + |body|;
    Joined(raw, start, start + 2, before, U16(|body|));
    Joined(raw, start + 2, end, before + U16(|body|), body);
    if TakeSized(raw, start) == Some((body, end)) {
      assert At(raw, start, 2) == |body|;
      assert raw[start + 2..end] == body;
    }
  }

  function LeafStart(uid: int): (r: Bytes)
    requires Unsigned32(uid)
    ensures |r| == 37
  {
    Namespace + U16(1) + U16(0) + U32(uid)
  }

  lemma LeafStartIff(raw: Bytes, uid: int)
    requires |raw| >= MinLeaf && Unsigned32(uid)
    ensures raw[..37] == LeafStart(uid) <==>
            raw[..29] == Namespace && At(raw, 29, 2) == 1 && At(raw, 31, 2) == 0 && At(raw, 33, 4) == uid
  {
    At16(raw, 29, 1);
    At16(raw, 31, 0);
    At32(raw, 33, uid);
    var p1 := Namespace + U16(1);
    var p2 := p1 + U16(0);
    Joined(raw, 29, 31, Namespace, U16(1));
    Joined(raw, 31, 33, p1, U16(0));
    Joined(raw, 33, 37, p2, U32(uid));
  }

  /** The fields l, read off raw one after the other up to its end. */
  predicate Taken(raw: Bytes, l: Leaf) {
    var g := 39 + |l.generation|;
    var b := g + 2 + |l.busName|;
    var s := b + 2 + |l.selinux|;
    && TakeSized(raw, 37) == Some((l.generation, g))
    && TakeSized(raw, g) == Some((l.busName, b))
    && TakeSized(raw, b) == Some((l.selinux, s))
    && TakeSized(raw, s) == Some((l.polkit, |raw|))
  }

  function TwoSized(before: Bytes, x: Bytes, y: Bytes): Bytes
    requires |x| < 0x1_0000 && |y| < 0x1_0000
  {
    before + U16(|x|) + x + U16(|y|) + y
  }

  lemma TwoSizedIff(raw: Bytes, start: nat, before: Bytes, x: Bytes, y: Bytes)
    requires |before| == start && |x| < 0x1_0000 && |y| < 0x1_0000 && start + 4 + |x| + |y| <= |raw|
    ensures raw[..start + 4 + |x| + |y|] == TwoSized(before, x, y) <==>
            (raw[..start] == before && TakeSized(raw, start) == Some((x, start + 2 + |x|)) &&
             TakeSized(raw, start + 2 + |x|) == Some((y, start + 4 + |x| + |y|)))
  {
    SizedIff(raw, start, before, x);
    SizedIff(raw, start + 2 + |x|, before + U16(|x|) + x, y);
  }

  /** The four length-prefixed fields are taken back exactly when they were laid down. */
  lemma LeafFieldsIff(raw: Bytes, l: Leaf)
    requires LeafOk(l) && |raw| == 45 + |l.generation| + |l.busName| + |l.selinux| + |l.polkit|
    ensures raw == EncodeLeaf(l) <==> raw[..37] == LeafStart(l.expectedUid) && Taken(raw, l)
  {
    hide TakeSized, U16, U32;
    var p0 := LeafStart(l.expectedUid);
    var p2 := TwoSized(p0, l.generation, l.busName);
    TwoSizedIff(raw, 37, p0, l.generation, l.busName);
    TwoSizedIff(raw, 41 + |l.generation| + |l.busName|, p2, l.selinux, l.polkit);
    assert EncodeLeaf(l) == TwoSized(p2, l.selinux, l.polkit);
    assert raw[..|raw|] == raw;
  }

  lemma TakenBounds(raw: Bytes, start: nat)
    requires TakeSized(raw, start).Some?
    ensures var t := TakeSized(raw, start).value; t.1 == start + 2 + |t.0| && t.1 <= |raw| && |t.0| < 0x1_0000
  {
    Widths();
  }

  /** The leaf decoder accepts exactly the well-formed fields it reads. */
  lemma LeafReads(raw: Bytes, l: Leaf)
    requires MinLeaf <= |raw| <= MaxLeaf
    ensures DecodeLeaf(raw) == Some(l) <==>
            (raw[..29] == Namespace && At(raw, 29, 2) == 1 && At(raw, 31, 2) == 0 && At(raw, 33, 4) == l.expectedUid &&
             Taken(raw, l) && LeafOk(l))
  {
    hide GenerationOk, BusNameOk, SelinuxOk, PolkitOk, TakeSized, At, Value;
    Widths();
    var g := TakeSized(raw, 37);
    if g.Some? {
      TakenBounds(raw, 37);
      var b := TakeSized(raw, g.value.1);
      if b.Some? {
        TakenBounds(raw, g.value.1);
        var s := TakeSized(raw, b.value.1);
        if s.Some? {
          TakenBounds(raw, b.value.1);
        }
      }
    }
  }

  lemma TakenLength(raw: Bytes, l: Leaf)
    requires Taken(raw, l)
    ensures |raw| == 45 + |l.generation| + |l.busName| + |l.selinux| + |l.polkit|
  {
    TakenBounds(raw, 41 + |l.generation| + |l.busName| + 2 + |l.selinux|);
  }

  /** Byte string and leaf correspond: the decoder gives l exactly on the encoding of l. */
  lemma LeafIff(raw: Bytes, l: Leaf)
    ensures DecodeLeaf(raw) == Some(l) <==> LeafOk(l) && raw == EncodeLeaf(l)
  {
    if MinLeaf <= |raw| <= MaxLeaf {
      LeafReads(raw, l);
      if LeafOk(l) {
        LeafStartIff(raw, l.expectedUid);
        if Taken(raw, l) {
          TakenLength(raw, l);
        }
        if |raw| == |EncodeLeaf(l)| {
          LeafFieldsIff(raw, l);
        }
      }
    }
  }

  // ---- the tuple ----

  function TupleStart(commit: Bytes, generation: Bytes): (r: Bytes)
    requires CommitOk(commit) && GenerationOk(generation)
    ensures |r| == 60
  {
    TupleMagic + U16(1) + U16(0) + U32(156 + |generation|) + commit + U16(|generation|) + U16(0)
  }

  lemma TupleStartIff(raw: Bytes, commit: Bytes, generation: Bytes)
    requires CommitOk(commit) && GenerationOk(generation) && |raw| == 156 + |generation|
    ensures raw[..60] == TupleStart(commit, generation) <==>
            (raw[..8] == TupleMagic && At(raw, 8, 2) == 1 && At(raw, 10, 2) == 0 && At(raw, 12, 4) == |raw| &&
             raw[16..56] == commit && At(raw, 56, 2) == |generation| && At(raw, 58, 2) == 0)
  {
    At16(raw, 8, 1);
    At16(raw, 10, 0);
    At32(raw, 12, |raw|);
    At16(raw, 56, |generation|);
    At16(raw, 58, 0);
    var p1 := TupleMagic + U16(1);
    var p2 := p1 + U16(0);
    var p3 := p2 + U32(|raw|);
    var p4 := p3 + commit;
    var p5 := p4 + U16(|generation|);
    Joined(raw, 8, 10, TupleMagic, U16(1));
    Joined(raw, 10, 12, p1, U16(0));
    Joined(raw, 12, 16, p2, U32(|raw|));
    Joined(raw, 16, 56, p3, commit);
    Joined(raw, 56, 58, p4, U16(|generation|));
    Joined(raw, 58, 60, p5, U16(0));
  }

  lemma TupleIff(raw: Bytes, commit: Bytes, generation: Bytes, manifest: Digest, leaf: Digest, binder: Digest)
    requires CommitOk(commit) && GenerationOk(generation) && |raw| == 156 + |generation|
    ensures raw == EncodeTuple(commit, generation, manifest, leaf, binder) <==>
            TupleReads(raw, commit, generation, manifest, leaf, binder)
  {
    TupleStartIff(raw, commit, generation);
    var p0 := TupleStart(commit, generation);
    var p1 := p0 + manifest;
    var p2 := p1 + leaf;
    var p3 := p2 + binder;
    Joined(raw, 60, 92, p0, manifest);
    Joined(raw, 92, 124, p1, leaf);
    Joined(raw, 124, 156, p2, binder);
    Joined(raw, 156, |raw|, p3, generation);
    assert raw[..|raw|] == raw && raw[156..|raw|] == raw[156..];
  }

  lemma Outside(head: Bytes, middle: Bytes, tail: Bytes)
    ensures (head + middle + tail)[..|head|] == head && (head + middle + tail)[|head| + |middle|..] == tail
  {
  }

  /** Zeroing bytes 124..156 of a tuple gives the tuple whose binder is zero. */
  lemma Unbound(commit: Bytes, generation: Bytes, manifest: Digest, leaf: Digest, binder: Digest)
    requires CommitOk(commit) && GenerationOk(generation)
    ensures var raw := EncodeTuple(commit, generation, manifest, leaf, binder);
            raw[..124] + Zeros() + raw[156..] == EncodeTuple(commit, generation, manifest, leaf, Zeros())
  {
    hide U16, U32, Zeros;
    var head := TupleStart(commit, generation) + manifest + leaf;
    assert EncodeTuple(commit, generation, manifest, leaf, binder) == head + binder + generation;
    assert EncodeTuple(commit, generation, manifest, leaf, Zeros()) == head + Zeros() + generation;
    Outside(head, binder, generation);
  }

  // ---- the whole record ----

  lemma HeaderIff(raw: Bytes, prefix: Bytes, d: Digests)
    requires |prefix| == 108 && |raw| >= 268
    ensures raw[..268] == Header(prefix, d) <==>
            (raw[..108] == prefix && raw[108..140] == d.leaf && raw[140..172] == d.manifest &&
             raw[172..204] == d.tuple && raw[204..236] == d.descriptor && raw[236..268] == d.binder)
  {
    var p1 := prefix + d.leaf;
    var p2 := p1 + d.manifest;
    var p3 := p2 + d.tuple;
    var p4 := p3 + d.descriptor;
    Joined(raw, 108, 140, prefix, d.leaf);
    Joined(raw, 140, 172, p1, d.manifest);
    Joined(raw, 172, 204, p2, d.tuple);
    Joined(raw, 204, 236, p3, d.descriptor);
    Joined(raw, 236, 268, p4, d.binder);
  }

  /** Cutting and joining are inverse. */
  lemma CutIff(raw: Bytes, p: Parts, n: Lengths)
    requires PartLengths(p, n) && |raw| == Total(n)
    ensures raw == Join(p) <==> Cut(raw, n) == p
  {
    var a, b, c := 300, 300 + n.leaf, 300 + n.leaf + n.tuple;
    var p0 := Header(p.prefix, p.digests);
    var p1 := p0 + p.generationDigest;
    var p2 := p1 + p.leaf;
    var p3 := p2 + p.tuple;
    HeaderIff(raw, p.prefix, p.digests);
    Joined(raw, 268, a, p0, p.generationDigest);
    Joined(raw, a, b, p1, p.leaf);
    Joined(raw, b, c, p2, p.tuple);
    Joined(raw, c, |raw|, p3, p.manifest);
    assert raw[..|raw|] == raw && raw[c..|raw|] == raw[c..];
  }

  /** Encoding fails only on an input the source rejects: the length limits are never what stops it. */
  lemma EncodeTotal(env: Env, r: Record, id: Identity)
    ensures Encode(env, r, id).Some? <==> RecordOk(env, r) && IdentityOk(id)
    ensures Encode(env, r, id).Some? ==> |Encode(env, r, id).value| == Total(LengthsOf(r)) <= MaxTotal
  {
    hide EncodeLeaf, EncodeTuple, Prefix;
  }

  /** On a tuple that repeats the header's digests, the digest comparisons single out the encoder's parts. */
  lemma DigestsIff(env: Env, p: Parts, r: Record, id: Identity)
    requires RecordOk(env, r) && IdentityOk(id)
    requires p.prefix == Prefix(r.commit, id, LengthsOf(r))
    requires p.leaf == EncodeLeaf(LeafOf(r)) && p.manifest == r.manifest
    requires p.tuple == EncodeTuple(r.commit, r.generation, p.digests.manifest, p.digests.leaf, p.digests.binder)
    ensures DigestReads(env, p, r.commit) <==> p == PartsOf(env, r, id)
  {
    Unbound(r.commit, r.generation, p.digests.manifest, p.digests.leaf, p.digests.binder);
  }

  /** The section checks give r exactly on the parts the encoder builds for r. */
  lemma PartsIff(env: Env, p: Parts, r: Record, id: Identity)
    requires RecordOk(env, r) && IdentityOk(id)
    requires p.prefix == Prefix(r.commit, id, LengthsOf(r)) && PartLengths(p, LengthsOf(r))
    ensures DecodeParts(env, p, LengthsOf(r)) == Some(r) <==> p == PartsOf(env, r, id)
  {
    hide EncodeLeaf, EncodeTuple, Prefix, PrefixReads, DecodeLeaf, TupleReads;
    PrefixIff(p.prefix, r.commit, id, LengthsOf(r));
    LeafIff(p.leaf, LeafOf(r));
    TupleIff(p.tuple, r.commit, r.generation, p.digests.manifest, p.digests.leaf, p.digests.binder);
    if p.leaf == EncodeLeaf(LeafOf(r)) && p.manifest == r.manifest &&
       p.tuple == EncodeTuple(r.commit, r.generation, p.digests.manifest, p.digests.leaf, p.digests.binder) {
      DigestsIff(env, p, r, id);
    }
  }

  lemma PartsShape(env: Env, r: Record, id: Identity)
    requires RecordOk(env, r) && IdentityOk(id)
    ensures var p := PartsOf(env, r, id);
            LengthsOk(LengthsOf(r)) && PartLengths(p, LengthsOf(r)) && |Join(p)| == Total(LengthsOf(r)) &&
            p.prefix == Prefix(r.commit, id, LengthsOf(r)) == Prefix(r.commit, id.(size := |Join(p)|), LengthsOf(r))
  {
    hide EncodeLeaf, EncodeTuple, BinderInput;
  }

  /** Decoding an encoded record, under its descriptor with the size it now has, gives back the inputs. */
  lemma DecodeEncode(env: Env, r: Record, id: Identity)
    ensures Encode(env, r, id).Some? ==>
              var raw := Encode(env, r, id).value; Decode(env, raw, id.(size := |raw|)) == Some(r)
  {
    if RecordOk(env, r) && IdentityOk(id) {
      DecodeLayout(env, r, id);
    }
  }

  lemma DecodeLayout(env: Env, r: Record, id: Identity)
    requires RecordOk(env, r) && IdentityOk(id)
    ensures var raw := Join(PartsOf(env, r, id)); Decode(env, raw, id.(size := |raw|)) == Some(r)
  {
    hide EncodeLeaf, EncodeTuple, Prefix, PrefixReads, Join, DecodeParts, PartsOf, CommitOk, LeafOk;
    PartsShape(env, r, id);
    var p := PartsOf(env, r, id);
    var raw := Join(p);
    var n := LengthsOf(r);
    var sized := id.(size := |raw|);
    CutIff(raw, p, n);
    PrefixIff(p.prefix, r.commit, sized, n);
    PartsIff(env, p, r, id);
  }

  /** Every accepted byte string is the encoding of what it decoded to, so no byte is unchecked. */
  lemma EncodeDecode(env: Env, raw: Bytes, id: Identity)
    ensures Decode(env, raw, id).Some? ==> Encode(env, Decode(env, raw, id).value, id) == Some(raw)
  {
    hide Encode, Decode;
    if Decode(env, raw, id).Some? {
      AcceptedIsEncoding(env, raw, id);
    }
  }

  lemma AcceptedIsEncoding(env: Env, raw: Bytes, id: Identity)
    requires Decode(env, raw, id).Some?
    ensures Encode(env, Decode(env, raw, id).value, id) == Some(raw)
  {
    hide EncodeLeaf, EncodeTuple, Prefix, Join, DecodeLeaf, DigestReads, PartsOf, CommitOk;
    var r := Decode(env, raw, id).value;
    var n := ReadLengths(raw[..108]);
    var p := Cut(raw, n);
    LeafIff(p.leaf, DecodeLeaf(p.leaf).value);
    PrefixIff(p.prefix, r.commit, id, n);
    PartsIff(env, p, r, id);
    CutIff(raw, p, n);
  }

  /** Two accepted byte strings that decode alike under one descriptor are the same bytes. */
  lemma DecodeInjective(env: Env, raw: Bytes, other: Bytes, id: Identity)
    ensures Decode(env, raw, id).Some? && Decode(env, raw, id) == Decode(env, other, id) ==> raw == other
  {
    hide Encode, Decode;
    EncodeDecode(env, raw, id);
    EncodeDecode(env, other, id);
  }

  /** A record names its file: one byte string is accepted under at most one descriptor. */
  lemma DescriptorBound(env: Env, raw: Bytes, id: Identity, other: Identity)
    ensures Decode(env, raw, id).Some? && Decode(env, raw, other).Some? ==> id == other
  {
  }
}
