/** Streaming reads of stored objects: the file identity, the bounded line stream and the part
    listing, each proved against a definition that knows nothing of how reads are split. */
module ObjectStreams {
  import opened Common

  type Byte = b: nat | b < 256 witness 0
  type Bytes = seq<Byte>

  const NEWLINE: Byte := 10

  // ---------------------------------------------------------------- a readable body

  /** A body that hands out its content in pieces of its own choosing. */
  class ByteStream {
    const content: Bytes
    var position: nat
    var failures: nat

    ghost predicate Valid()
      reads this
    {
      position <= |content|
    }

    function Rest(): Bytes
      reads this
      requires Valid()
    {
      content[position..]
    }

    constructor (content: Bytes)
      ensures this.content == content && position == 0 && failures == 0 && Valid()
    {
      this.content := content;
      position := 0;
      failures := 0;
    }

    /** At most `limit` bytes, at least one unless the end is reached; or a failed read. */
    method Read(limit: nat) returns (block: Option<Bytes>)
      requires Valid() && limit > 0
      modifies this`position, this`failures
      ensures Valid() && old(position) <= position
      ensures failures == old(failures) + (if block.None? then 1 else 0)
      ensures block.None? ==> position == old(position)
      ensures block.Some? ==> block.value == content[old(position)..position] && |block.value| <= limit
      ensures block.Some? && block.value == [] ==> position == |content|
      ensures block.Some? ==> old(Rest()) == block.value + Rest()
    {
      if * {
        failures := failures + 1;
        return None;
      }
      if position == |content| {
        return Some([]);
      }
      var size: nat :| 1 <= size <= limit && position + size <= |content|;
      position := position + size;
      return Some(content[position - size..position]);
    }
  }

  // ---------------------------------------------------------------- stream_file_identity

  const CHUNK: nat := 8_388_608
  const DIGEST: nat := 32

  /** The bytes of "court4-file-v1" and a newline. */
  const PREFIX: Bytes := [99, 111, 117, 114, 116, 52, 45, 102, 105, 108, 101, 45, 118, 49, 10]

  function Decimal(n: nat): (d: Bytes)
    ensures d != []
  {
    if n < 10 then [48 + n] else Decimal(n / 10) + [48 + n % 10]
  }

  /** The content cut into chunks of the fixed width; only the last may be shorter. */
  function Chunks(content: Bytes): (r: seq<Bytes>)
    decreases |content|
  {
    if content == [] then []
    else if |content| <= CHUNK then [content]
    else [content[..CHUNK]] + Chunks(content[CHUNK..])
  }

  function Digests(hash: Bytes -> Bytes, chunks: seq<Bytes>): Bytes {
    if chunks == [] then [] else Digests(hash, chunks[..|chunks| - 1]) + hash(chunks[|chunks| - 1])
  }

  /** What the root hash commits to. */
  function Preimage(hash: Bytes -> Bytes, content: Bytes): Bytes {
    PREFIX + Digests(hash, Chunks(content)) + ([NEWLINE] + Decimal(|content|))
  }

  function FileIdentity(hash: Bytes -> Bytes, content: Bytes): Bytes { hash(Preimage(hash, content)) }

  lemma {:induction false} ChunksAppend(done: Bytes, chunk: Bytes)
    requires |done| % CHUNK == 0 && 0 < |chunk| <= CHUNK
    ensures Chunks(done + chunk) == Chunks(done) + [chunk]
    decreases |done|
  {
    if done == [] {
      assert done + chunk == chunk;
    } else {
      assert |done| >= CHUNK;
      assert (done + chunk)[..CHUNK] == done[..CHUNK];
      assert (done + chunk)[CHUNK..] == done[CHUNK..] + chunk;
      ChunksAppend(done[CHUNK..], chunk);
      if |done| == CHUNK { assert done[..CHUNK] == done && done[CHUNK..] == []; }
    }
  }

  lemma NothingDigested(hash: Bytes -> Bytes)
    ensures Digests(hash, Chunks([])) == []
  {}

  lemma DigestsSnoc(hash: Bytes -> Bytes, chunks: seq<Bytes>, chunk: Bytes)
    ensures Digests(hash, chunks + [chunk]) == Digests(hash, chunks) + hash(chunk)
  {
    assert (chunks + [chunk])[..|chunks|] == chunks;
  }

  lemma Associates(p: Bytes, q: Bytes, r: Bytes)
    ensures (p + q) + r == p + (q + r)
  {}

  /** One more chunk extends what the root hash has been fed. */
  lemma RootExtends(hash: Bytes -> Bytes, root: Bytes, done: Bytes, chunk: Bytes)
    requires root == PREFIX + Digests(hash, Chunks(done)) && |done| % CHUNK == 0 && 0 < |chunk| <= CHUNK
    ensures root + hash(chunk) == PREFIX + Digests(hash, Chunks(done + chunk))
  {
    hide Chunks, Digests;
    ChunksAppend(done, chunk);
    DigestsSnoc(hash, Chunks(done), chunk);
    Associates(PREFIX, Digests(hash, Chunks(done)), hash(chunk));
  }

  /** `stream_file_identity` computes the identity of whatever the stream still holds, however it
      splits its reads; it fails exactly when a read did. */
  method StreamFileIdentity(stream: ByteStream, hash: Bytes -> Bytes) returns (identity: Option<Bytes>)
    requires stream.Valid()
    modifies stream`position, stream`failures
    ensures stream.Valid()
    ensures identity.None? <==> stream.failures > old(stream.failures)
    ensures identity.Some? ==> identity.value == FileIdentity(hash, old(stream.Rest())) && stream.Rest() == []
  {
    hide Chunks, Digests, Decimal;
    ghost var content := stream.Rest();
    ghost var done: Bytes := [];
    assert Digests(hash, Chunks([])) == [] by { NothingDigested(hash); }
    var root: Bytes := PREFIX;
    var size: nat := 0;
    while true
      invariant stream.Valid() && content == done + stream.Rest() && size == |done|
      invariant root == PREFIX + Digests(hash, Chunks(done)) && stream.failures == old(stream.failures)
      invariant |done| % CHUNK == 0 || stream.Rest() == []
      decreases |stream.Rest()|
    {
      var chunk := FillChunk(stream);
      if chunk.None? {
        return None;
      }
      if chunk.value == [] {
        break;
      }
      size := size + |chunk.value|;
      RootExtends(hash, root, done, chunk.value);
      root := root + hash(chunk.value);
      assert done + (chunk.value + stream.Rest()) == (done + chunk.value) + stream.Rest();
      done := done + chunk.value;
    }
    assert content == done;
    root := root + ([NEWLINE] + Decimal(size));
    return Some(hash(root));
  }

  /** The inner loop: reads until the chunk is full or the stream ends. */
  method FillChunk(stream: ByteStream) returns (chunk: Option<Bytes>)
    requires stream.Valid()
    modifies stream`position, stream`failures
    ensures stream.Valid() && |stream.Rest()| <= old(|stream.Rest()|)
    ensures stream.failures == old(stream.failures) + (if chunk.None? then 1 else 0)
    ensures chunk.Some? ==> old(stream.Rest()) == chunk.value + stream.Rest() && |chunk.value| <= CHUNK
    ensures chunk.Some? && |chunk.value| < CHUNK ==> stream.Rest() == []
  {
    var filled: Bytes := [];
    while |filled| < CHUNK
      invariant stream.Valid() && |filled| <= CHUNK && old(stream.Rest()) == filled + stream.Rest()
      invariant stream.failures == old(stream.failures)
      decreases CHUNK - |filled|
    {
      var block := stream.Read(CHUNK - |filled|);
      if block.None? {
        return None;
      }
      if block.value == [] {
        break;
      }
      assert filled + (block.value + stream.Rest()) == (filled + block.value) + stream.Rest();
      filled := filled + block.value;
    }
    return Some(filled);
  }

  // ---------------------------------------------------------------- the identity binds the content

  lemma {:induction false} DecimalGrows(m: nat, n: nat)
    requires m <= n
    ensures |Decimal(m)| <= |Decimal(n)|
  {
    if m >= 10 { DecimalGrows(m / 10, n / 10); }
  }

  lemma {:induction false} DecimalInjective(m: nat, n: nat)
    requires Decimal(m) == Decimal(n)
    ensures m == n
  {
    var d := Decimal(m);
    assert m >= 10 ==> d[..|d| - 1] == Decimal(m / 10) && d[|d| - 1] == 48 + m % 10;
    assert n >= 10 ==> d[..|d| - 1] == Decimal(n / 10) && d[|d| - 1] == 48 + n % 10;
    if m >= 10 && n >= 10 { DecimalInjective(m / 10, n / 10); }
  }

  lemma {:induction false} ChunkCount(content: Bytes)
    ensures |Chunks(content)| == (|content| + CHUNK - 1) / CHUNK
    decreases |content|
  {
    if |content| > CHUNK { ChunkCount(content[CHUNK..]); }
  }

  lemma {:induction false} ChunksJoin(a: Bytes, b: Bytes)
    requires |a| == |b| && Chunks(a) == Chunks(b)
    ensures a == b
    decreases |a|
  {
    if |a| > CHUNK {
      assert Chunks(a)[0] == a[..CHUNK] && Chunks(a)[1..] == Chunks(a[CHUNK..]);
      assert Chunks(b)[0] == b[..CHUNK] && Chunks(b)[1..] == Chunks(b[CHUNK..]);
      ChunksJoin(a[CHUNK..], b[CHUNK..]);
      assert a == a[..CHUNK] + a[CHUNK..] && b == b[..CHUNK] + b[CHUNK..];
    } else if a != [] {
      assert Chunks(a)[0] == a && Chunks(b)[0] == b;
    }
  }

  ghost predicate FixedWidth(hash: Bytes -> Bytes) { forall x: Bytes :: |hash(x)| == DIGEST }

  lemma {:induction false} DigestsLength(hash: Bytes -> Bytes, chunks: seq<Bytes>)
    requires FixedWidth(hash)
    ensures |Digests(hash, chunks)| == DIGEST * |chunks|
  {
    if chunks != [] { DigestsLength(hash, chunks[..|chunks| - 1]); }
  }

  /** Two different inputs with the same hash. */
  ghost predicate Collides(hash: Bytes -> Bytes, x: Bytes, y: Bytes) { x != y && hash(x) == hash(y) }

  lemma {:induction false} SameDigests(hash: Bytes -> Bytes, p: seq<Bytes>, q: seq<Bytes>)
    requires FixedWidth(hash) && |p| == |q| && Digests(hash, p) == Digests(hash, q)
    ensures p == q || exists k :: 0 <= k < |p| && Collides(hash, p[k], q[k])
  {
    if p != [] {
      var n := |p| - 1;
      DigestsLength(hash, p[..n]);
      DigestsLength(hash, q[..n]);
      var d := Digests(hash, p);
      assert d[..DIGEST * n] == Digests(hash, p[..n]) && d[..DIGEST * n] == Digests(hash, q[..n]);
      assert d[DIGEST * n..] == hash(p[n]) && d[DIGEST * n..] == hash(q[n]);
      SameDigests(hash, p[..n], q[..n]);
      if p[..n] == q[..n] {
        assert p == p[..n] + [p[n]] && q == q[..n] + [q[n]];
        assert p[n] != q[n] ==> Collides(hash, p[n], q[n]);
      } else {
        var k :| 0 <= k < n && Collides(hash, p[..n][k], q[..n][k]);
        assert Collides(hash, p[k], q[k]);
      }
    }
  }

  /** Equal preimages have equal sizes: chunk count and digit count both grow with the size. */
  lemma SameSize(hash: Bytes -> Bytes, a: Bytes, b: Bytes)
    requires FixedWidth(hash) && Preimage(hash, a) == Preimage(hash, b) && |a| <= |b|
    ensures |a| == |b| && Digests(hash, Chunks(a)) == Digests(hash, Chunks(b))
  {
    var da := Digests(hash, Chunks(a)); var db := Digests(hash, Chunks(b));
    ChunkCount(a); ChunkCount(b);
    DigestsLength(hash, Chunks(a)); DigestsLength(hash, Chunks(b));
    assert |Chunks(a)| <= |Chunks(b)|;
    DecimalGrows(|a|, |b|);
    assert |da| == |db| && |Decimal(|a|)| == |Decimal(|b|)|;
    hide Decimal, Digests, Chunks;
    SplitAlike(PREFIX, da, [NEWLINE] + Decimal(|a|), db, [NEWLINE] + Decimal(|b|));
    assert ([NEWLINE] + Decimal(|a|))[1..] == Decimal(|a|) && ([NEWLINE] + Decimal(|b|))[1..] == Decimal(|b|);
    DecimalInjective(|a|, |b|);
  }

  lemma SplitAlike(p: Bytes, d: Bytes, t: Bytes, d': Bytes, t': Bytes)
    requires p + d + t == p + d' + t' && |d| == |d'|
    ensures d == d' && t == t'
  {
    assert d == (p + d + t)[|p|..|p| + |d|] && d' == (p + d' + t')[|p|..|p| + |d|];
    assert t == (p + d + t)[|p| + |d|..] && t' == (p + d' + t')[|p| + |d|..];
  }

  /** The identity binds the content: two different contents with one identity exhibit a collision
      of the hash, either of the two preimages or of two chunks at the same place. */
  lemma IdentityBindsContent(hash: Bytes -> Bytes, a: Bytes, b: Bytes)
    requires FixedWidth(hash) && a != b && FileIdentity(hash, a) == FileIdentity(hash, b)
    ensures Collides(hash, Preimage(hash, a), Preimage(hash, b))
            || exists k :: 0 <= k < |Chunks(a)| && k < |Chunks(b)| && Collides(hash, Chunks(a)[k], Chunks(b)[k])
  {
    if Preimage(hash, a) == Preimage(hash, b) {
      if |a| <= |b| { SameSize(hash, a, b); } else { SameSize(hash, b, a); }
      ChunkCount(a); ChunkCount(b);
      SameDigests(hash, Chunks(a), Chunks(b));
      if Chunks(a) == Chunks(b) { ChunksJoin(a, b); }
    }
  }
}
