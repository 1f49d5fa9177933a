/** A write's buffers cut into what the transport takes at once. */
module WriteChunks {
  type Byte = b: int | 0 <= b < 256

  type Bytes = seq<Byte>

  function Flat(parts: seq<Bytes>): Bytes {
    if parts == [] then [] else parts[0] + Flat(parts[1..])
  }

  /** What is left of the parts after an offset in one of them. */
  function Rest(parts: seq<Bytes>, part: nat, offset: nat): Bytes
    requires part < |parts| ==> offset <= |parts[part]|
  {
    if part >= |parts| then [] else parts[part][offset..] + Flat(parts[part + 1..])
  }

  /** Every chunk but the last is exactly the limit, and none is empty. */
  predicate Bounded(chunks: seq<Bytes>, limit: nat) {
    && (forall c <- chunks :: 0 < |c| <= limit)
    && (forall k :: 0 <= k < |chunks| - 1 ==> |chunks[k]| == limit)
  }

  lemma {:induction false} FlatAppend(a: seq<Bytes>, b: seq<Bytes>)
    ensures Flat(a + b) == Flat(a) + Flat(b)
  {
    if a == [] {
      assert a + b == b;
    } else {
      assert (a + b)[1..] == a[1..] + b;
      FlatAppend(a[1..], b);
    }
  }

  lemma FlatOne(c: Bytes)
    ensures Flat([c]) == c
  {
    assert [c][1..] == [];
    assert Flat([c]) == c + Flat([]);
  }

  lemma {:induction false} FlatEmpty(parts: seq<Bytes>)
    requires forall k :: 0 <= k < |parts| ==> parts[k] == []
    ensures Flat(parts) == []
  {
    if parts != [] {
      assert parts[0] == [];
      FlatEmpty(parts[1..]);
    }
  }

  /** A part at its end is passed over. */
  lemma RestNext(parts: seq<Bytes>, part: nat)
    requires part < |parts|
    ensures Rest(parts, part, |parts[part]|) == Rest(parts, part + 1, 0)
  {
    var next := parts[part + 1..];
    if next != [] {
      assert next[1..] == parts[part + 2..];
    }
  }

  /** Bytes taken from a part are the next ones. */
  lemma RestTaken(parts: seq<Bytes>, part: nat, offset: nat, taken: nat)
    requires part < |parts| && offset + taken <= |parts[part]|
    ensures Rest(parts, part, offset) == parts[part][offset..offset + taken] + Rest(parts, part, offset + taken)
  {
  }

  lemma RestEnds(parts: seq<Bytes>, part: nat, offset: nat)
    requires part < |parts| ==> offset <= |parts[part]|
    ensures part >= |parts| ==> Rest(parts, part, offset) == []
    ensures Flat(parts) == Rest(parts, 0, 0) && Flat([]) == []
    ensures part < |parts| && offset == |parts[part]| && Flat(parts[part + 1..]) == [] ==> Rest(parts, part, offset) == []
  {
  }

  lemma Associates(a: Bytes, b: Bytes, c: Bytes)
    ensures (a + b) + c == a + (b + c)
  {
  }

  function Min(a: nat, b: nat): nat {
    if a < b then a else b
  }

  /** The part after a run of empty ones. */
  method PastEmpty(parts: seq<Bytes>, part: nat) returns (next: nat)
    requires part < |parts|
    ensures part < next <= |parts|
    ensures next == |parts| ==> Flat(parts[part + 1..]) == []
    ensures next < |parts| ==> parts[next] != []
  {
    next := part + 1;
    while next < |parts| && |parts[next]| == 0
      invariant part < next <= |parts|
      invariant forall k :: part < k < next ==> parts[k] == []
    {
      next := next + 1;
    }
    if next == |parts| {
      FlatEmpty(parts[part + 1..]);
    }
  }

  /** A chunk gathered from several parts, up to the limit, after the bytes it begins with. */
  method Gather(parts: seq<Bytes>, start: nat, from: nat, first: Bytes, limit: nat)
    returns (gathered: Bytes, part: nat, offset: nat)
    requires start < |parts| && from <= |parts[start]| && |first| < limit
    ensures part < |parts| ==> offset <= |parts[part]|
    ensures first + Rest(parts, start, from) == gathered + Rest(parts, part, offset)
    ensures |first| <= |gathered| <= limit
    ensures |gathered| < limit ==> Rest(parts, part, offset) == []
  {
    hide Flat, Rest;
    gathered, part, offset := first, start, from;
    RestEnds(parts, part, offset);
    while |gathered| < limit && part < |parts|
      invariant part < |parts| ==> offset <= |parts[part]|
      invariant first + Rest(parts, start, from) == gathered + Rest(parts, part, offset)
      invariant |first| <= |gathered| <= limit
      decreases |parts| - part, if part < |parts| then |parts[part]| - offset else 0
    {
      if offset == |parts[part]| {
        RestNext(parts, part);
        part, offset := part + 1, 0;
      } else {
        var used := Min(|parts[part]| - offset, limit - |gathered|);
        RestTaken(parts, part, offset, used);
        Associates(gathered, parts[part][offset..offset + used], Rest(parts, part, offset + used));
        gathered := gathered + parts[part][offset..offset + used];
        offset := offset + used;
      }
    }
    RestEnds(parts, part, offset);
  }

  /** The cut, a chunk at a time. */
  method Cut(parts: seq<Bytes>, limit: nat) returns (chunks: seq<Bytes>)
    requires limit > 0
    ensures Flat(chunks) == Flat(parts)
    ensures Bounded(chunks, limit)
  {
    hide Flat, Rest;
    var part: nat, offset: nat := 0, 0;
    chunks := [];
    RestEnds(parts, 0, 0);
    while part < |parts|
      invariant part < |parts| ==> offset <= |parts[part]|
      invariant Flat(chunks) + Rest(parts, part, offset) == Flat(parts)
      invariant Bounded(chunks, limit)
      invariant chunks != [] && |chunks[|chunks| - 1]| < limit ==> Rest(parts, part, offset) == []
      decreases |Rest(parts, part, offset)|, |parts| - part
    {
      if offset == |parts[part]| {
        RestNext(parts, part);
        part, offset := part + 1, 0;
        continue;
      }
      ghost var before := Rest(parts, part, offset);
      var used := Min(|parts[part]| - offset, limit);
      var chunk := parts[part][offset..offset + used];
      RestTaken(parts, part, offset, used);
      offset := offset + used;
      var next := PastEmpty(parts, part);
      if used < limit && next < |parts| {
        chunk, part, offset := Gather(parts, part, offset, chunk, limit);
      }
      RestEnds(parts, part, offset);
      assert before == chunk + Rest(parts, part, offset);
      FlatAppend(chunks, [chunk]);
      FlatOne(chunk);
      Associates(Flat(chunks), chunk, Rest(parts, part, offset));
      chunks := chunks + [chunk];
    }
    RestEnds(parts, part, offset);
  }

  /** Bytes cut under the limit are one chunk of all of them: a write that fits goes at once. */
  lemma {:induction false} OneChunk(chunks: seq<Bytes>, limit: nat)
    requires Bounded(chunks, limit) && 0 < |Flat(chunks)| <= limit
    ensures chunks == [Flat(chunks)]
  {
    NotFlat(chunks, limit);
    FirstCut(chunks, limit);
    var rest := Flat(chunks[1..]);
    assert Flat(chunks) == chunks[0] + rest;
    assert chunks[0] == Flat(chunks);
    assert |rest| == 0;
    NotFlat(chunks[1..], limit);
    assert chunks == [chunks[0]] + chunks[1..];
  }

  /** The cut is the bytes' alone: any two cuts of the same bytes at the same limit are the same chunks. */
  lemma {:induction false} OneCut(a: seq<Bytes>, b: seq<Bytes>, limit: nat)
    requires limit > 0 && Bounded(a, limit) && Bounded(b, limit) && Flat(a) == Flat(b)
    ensures a == b
  {
    NotFlat(a, limit);
    NotFlat(b, limit);
    if a != [] {
      FirstCut(a, limit);
      FirstCut(b, limit);
      assert a[0] == b[0];
      assert Flat(a[1..]) == Flat(a)[|a[0]|..] == Flat(b[1..]);
      OneCut(a[1..], b[1..], limit);
    }
  }

  lemma NotFlat(a: seq<Bytes>, limit: nat)
    requires Bounded(a, limit)
    ensures Flat(a) == [] <==> a == []
  {
    if a != [] {
      assert |a[0]| > 0;
    }
  }

  lemma {:induction false} FirstCut(a: seq<Bytes>, limit: nat)
    requires limit > 0 && a != [] && Bounded(a, limit)
    ensures a[0] == Flat(a)[..Min(|Flat(a)|, limit)]
    ensures Bounded(a[1..], limit)
  {
    if |a| > 1 {
      assert |a[0]| == limit;
    } else {
      FlatOne(a[0]);
      assert a == [a[0]];
    }
  }
}
