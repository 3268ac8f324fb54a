/**
 * Writing many files into a sandbox session: the files are batched greedily, so that each invocation
 * stays within a payload limit, and a rejected invocation stops the rest.
 */
module Chunker {
  import JsonText

  const MAX_CHUNK_BYTES: nat := 100000

  /** A text counts as many characters as it has UTF-16 units. */
  datatype File = File(path: string, text: JsonText.Text)

  /** The text length of a list of files. */
  function Size(files: seq<File>): nat {
    if files == [] then 0 else |files[0].text| + Size(files[1..])
  }

  function Flatten(chunks: seq<seq<File>>): seq<File> {
    if chunks == [] then [] else chunks[0] + Flatten(chunks[1..])
  }

  /** What one invocation may carry: a payload within the limit, or a single file of any length. */
  predicate Legal(chunk: seq<File>) {
    Size(chunk) <= 100000 || |chunk| <= 1
  }

  ghost predicate AllLegal(chunks: seq<seq<File>>) {
    forall k :: 0 <= k < |chunks| ==> Legal(chunks[k])
  }

  /** Full chunks: legal, never empty, and the next chunk's first file no longer fits. */
  ghost predicate Greedy(chunks: seq<seq<File>>) {
    && (forall k :: 0 <= k < |chunks| ==> chunks[k] != [] && Legal(chunks[k]))
    && (forall k :: 0 < k < |chunks| ==> Size(chunks[k - 1]) + Size(chunks[k][..1]) > 100000)
  }

  /** The chunks still to come when `open` is being filled and `rest` has not been looked at. */
  function Pack(open: seq<File>, rest: seq<File>): seq<seq<File>>
    decreases rest
  {
    if rest == [] then (if open == [] then [] else [open])
    else if open != [] && Size(open) + |rest[0].text| > MAX_CHUNK_BYTES then [open] + Pack([rest[0]], rest[1..])
    else Pack(open + [rest[0]], rest[1..])
  }

  // ----- what the chunks are -------------------------------------------------------------------------

  lemma {:induction false} SizeAppend(a: seq<File>, b: seq<File>)
    ensures Size(a + b) == Size(a) + Size(b)
  {
    if a == [] {
      assert a + b == b;
    } else {
      assert (a + b)[1..] == a[1..] + b;
      SizeAppend(a[1..], b);
    }
  }

  /** Nothing is lost, repeated or reordered. */
  lemma {:induction false} PackKeepsFiles(open: seq<File>, rest: seq<File>)
    ensures Flatten(Pack(open, rest)) == open + rest
    decreases rest
  {
    if rest != [] {
      PackKeepsFiles([rest[0]], rest[1..]);
      PackKeepsFiles(open + [rest[0]], rest[1..]);
      assert [rest[0]] + rest[1..] == rest;
      assert open + [rest[0]] + rest[1..] == open + rest;
    }
  }

  lemma {:induction false} PackStarts(open: seq<File>, rest: seq<File>)
    requires open != []
    ensures Pack(open, rest) != [] && open <= Pack(open, rest)[0]
    decreases rest
  {
    if rest != [] && Size(open) + |rest[0].text| <= MAX_CHUNK_BYTES {
      PackStarts(open + [rest[0]], rest[1..]);
    }
  }

  lemma {:induction false} PackIsGreedy(open: seq<File>, rest: seq<File>)
    requires Legal(open)
    ensures Greedy(Pack(open, rest))
    decreases rest
  {
    if rest != [] {
      var f := rest[0];
      SizeAppend(open, [f]);
      if open != [] && Size(open) + |f.text| > MAX_CHUNK_BYTES {
        var later := Pack([f], rest[1..]);
        PackIsGreedy([f], rest[1..]);
        PackStarts([f], rest[1..]);
        assert later[0][..1] == [f];
      } else {
        PackIsGreedy(open + [f], rest[1..]);
      }
    }
  }

  // ----- and that there are no fewer -----------------------------------------------------------------

  /** A legal chunk that starts where a greedy chunk starts ends no later than it. */
  lemma NoLonger(greedy: seq<seq<File>>, before: seq<File>, part: seq<File>, after: seq<File>)
    requires Greedy(greedy) && greedy != [] && Legal(before + part)
    requires Flatten(greedy) == part + after
    ensures |part| <= |greedy[0]|
  {
    var first := greedy[0];
    if |part| > |first| {
      var later := Flatten(greedy[1..]);
      assert later == (part + after)[|first|..];
      assert greedy[1] == greedy[1..][0] && later == greedy[1] + Flatten(greedy[1..][1..]);
      var f := greedy[1][0];
      assert greedy[1][..1] == [f] && f == later[0];
      assert part == first + [f] + part[|first| + 1..] by {
        assert first == (part + after)[..|first|];
        assert f == (part + after)[|first|];
      }
      SizeAppend(first, [f]);
      SizeAppend(first + [f], part[|first| + 1..]);
      SizeAppend(before, part);
      assert false;
    }
  }

  /** A legal partition that starts earlier is at least as long as the greedy chunks of what remains. */
  lemma {:induction false} GreedyStaysAhead(greedy: seq<seq<File>>, other: seq<seq<File>>, skip: seq<File>)
    requires Greedy(greedy)
    requires AllLegal(other)
    requires Flatten(other) == skip + Flatten(greedy)
    ensures |greedy| <= |other|
    decreases other
  {
    if greedy == [] {
    } else if other == [] {
    } else {
      var head, tail := other[0], Flatten(other[1..]);
      if |head| <= |skip| {
        assert tail == skip[|head|..] + Flatten(greedy) by {
          assert tail == (skip + Flatten(greedy))[|head|..];
        }
        GreedyStaysAhead(greedy, other[1..], skip[|head|..]);
      } else {
        var part := head[|skip|..];
        assert head == skip + part by {
          assert skip == (head + tail)[..|skip|];
        }
        assert Flatten(greedy) == part + tail by {
          assert Flatten(greedy) == (head + tail)[|skip|..];
        }
        NoLonger(greedy, skip, part, tail);
        var over := greedy[0][|part|..];
        assert tail == over + Flatten(greedy[1..]) by {
          assert tail == (greedy[0] + Flatten(greedy[1..]))[|part|..];
        }
        GreedyStaysAhead(greedy[1..], other[1..], over);
      }
    }
  }

  /** No division of the files into legal invocations, in order, uses fewer of them. */
  lemma FewestInvocations(files: seq<File>, other: seq<seq<File>>)
    requires AllLegal(other)
    requires Flatten(other) == files
    ensures |Pack([], files)| <= |other|
  {
    PackIsGreedy([], files);
    PackKeepsFiles([], files);
    assert [] + files == files;
    GreedyStaysAhead(Pack([], files), other, []);
  }

  lemma NoFilesNoChunks(chunks: seq<seq<File>>)
    requires Greedy(chunks)
    ensures Flatten(chunks) == [] <==> chunks == []
  {
    if chunks != [] {
      assert chunks[0] != [];
    }
  }

  lemma SplitAlike<T>(a: seq<T>, c: seq<T>, b: seq<T>, d: seq<T>)
    requires a + c == b + d && |a| == |b|
    ensures a == b && c == d
  {
    assert a == (a + c)[..|a|] && b == (b + d)[..|a|];
    assert c == (a + c)[|a|..] && d == (b + d)[|a|..];
  }

  /** Fullness determines the chunks: there is one greedy division of a list of files. */
  lemma {:induction false} GreedyIsUnique(a: seq<seq<File>>, b: seq<seq<File>>)
    requires Greedy(a) && Greedy(b) && Flatten(a) == Flatten(b)
    ensures a == b
    decreases a
  {
    if a == [] || b == [] {
      NoFilesNoChunks(a);
      NoFilesNoChunks(b);
    } else {
      assert [] + a[0] == a[0] && [] + b[0] == b[0];
      NoLonger(a, [], b[0], Flatten(b[1..]));
      NoLonger(b, [], a[0], Flatten(a[1..]));
      SplitAlike(a[0], Flatten(a[1..]), b[0], Flatten(b[1..]));
      GreedyIsUnique(a[1..], b[1..]);
      assert a == [a[0]] + a[1..] && b == [b[0]] + b[1..];
    }
  }

  /** The whole story of a call: the chunks hold the files, are full, and are the only ones that do both. */
  lemma ChunksAre(files: seq<File>, chunks: seq<seq<File>>)
    ensures chunks == Pack([], files) <==> Greedy(chunks) && Flatten(chunks) == files
  {
    PackIsGreedy([], files);
    PackKeepsFiles([], files);
    assert [] + files == files;
    if Greedy(chunks) && Flatten(chunks) == files {
      GreedyIsUnique(chunks, Pack([], files));
    }
  }

  // ----- the writer ----------------------------------------------------------------------------------

  /** A code-interpreter session; `rejects(k)` says whether its k-th invocation reports an error. */
  class Session {
    const rejects: nat -> bool
    var invoked: seq<seq<File>>

    constructor (rejects: nat -> bool)
      ensures this.rejects == rejects && invoked == []
    {
      this.rejects, invoked := rejects, [];
    }

    method Invoke(chunk: seq<File>) returns (isError: bool)
      modifies this
      ensures invoked == old(invoked) + [chunk] && isError == rejects(|old(invoked)|)
    {
      isError := rejects(|invoked|);
      invoked := invoked + [chunk];
    }

    /** An empty chunk is not sent. */
    method Flush(chunk: seq<File>) returns (ok: bool)
      modifies this
      ensures invoked == if chunk == [] then old(invoked) else old(invoked) + [chunk]
      ensures ok <==> chunk == [] || !rejects(|old(invoked)|)
    {
      if chunk == [] {
        return true;
      }
      var isError := Invoke(chunk);
      ok := !isError;
    }

    /** The invocations of this call are the greedy chunks, up to and including the first rejected one. */
    method WriteFiles(files: seq<File>) returns (ok: bool)
      modifies this
      ensures old(invoked) <= invoked && invoked[|old(invoked)|..] <= Pack([], files)
      ensures ok <==> forall k :: |old(invoked)| <= k < |invoked| ==> !rejects(k)
      ensures ok ==> invoked == old(invoked) + Pack([], files)
      ensures !ok ==> |old(invoked)| < |invoked| && rejects(|invoked| - 1)
                      && forall k :: |old(invoked)| <= k < |invoked| - 1 ==> !rejects(k)
    {
      var chunk: seq<File> := [];
      var bytes := 0;
      ghost var sent: seq<seq<File>> := [];
      ghost var all := Pack([], files);
      for i := 0 to |files|
        invariant invoked == old(invoked) + sent
        invariant bytes == Size(chunk)
        invariant all == sent + Pack(chunk, files[i..])
        invariant forall k :: |old(invoked)| <= k < |invoked| ==> !rejects(k)
      {
        var f := files[i];
        assert files[i..][1..] == files[i + 1..];
        if bytes + |f.text| > MAX_CHUNK_BYTES {
          ok := Flush(chunk);
          if chunk != [] {
            sent := sent + [chunk];
            assert all == sent + Pack([f], files[i + 1..]);
          }
          if !ok {
            return;
          }
          chunk, bytes := [], 0;
        }
        SizeAppend(chunk, [f]);
        assert [] + [f] == [f];
        chunk, bytes := chunk + [f], bytes + |f.text|;
      }
      ok := Flush(chunk);
      if chunk != [] {
        sent := sent + [chunk];
      }
      assert all == sent;
    }
  }
}
