/** The bounded output reader of executor/sandbox.py. */
module StreamReader {
  type Byte = bv8

  // Everything the stream delivers: the chunks before the first empty one.
  function Delivered(chunks: seq<seq<Byte>>): seq<Byte> {
    if chunks == [] || chunks[0] == [] then [] else chunks[0] + Delivered(chunks[1..])
  }

  // A chunk is delivered before the next ones; an empty one ends the stream.
  lemma ChunkIsDelivered(chunk: seq<Byte>, rest: seq<seq<Byte>>)
    ensures Delivered([]) == []
    ensures Delivered([chunk] + rest) == if chunk == [] then [] else chunk + Delivered(rest)
  {
    assert ([chunk] + rest)[1..] == rest;
  }

  function Least(a: int, b: int): (c: int)
    ensures c <= a && c <= b && (c == a || c == b)
  {
    if a < b then a else b
  }

  // A negative limit keeps nothing.
  function Capacity(maxBytes: int): (n: nat)
    ensures maxBytes <= n && (n == maxBytes || n == 0)
  {
    if maxBytes < 0 then 0 else maxBytes
  }

  // `read_stream`: however the stream is cut into chunks, exactly its first
  // bytes up to the limit are kept, and the flag is set exactly when it was longer.
  method ReadStream(chunks: seq<seq<Byte>>, maxBytes: int) returns (kept: seq<Byte>, truncated: bool)
    ensures kept == Delivered(chunks)[..Least(|Delivered(chunks)|, Capacity(maxBytes))]
    ensures truncated <==> |Delivered(chunks)| > Capacity(maxBytes)
  {
    kept, truncated := [], false;
    var collected := 0;
    var i := 0;
    while i < |chunks|
      invariant 0 <= i <= |chunks|
      invariant collected == |kept| <= Capacity(maxBytes)
      invariant truncated ==> collected == Capacity(maxBytes)
      invariant kept <= Delivered(chunks)
      invariant truncated <==> |Delivered(chunks)| - |Delivered(chunks[i..])| > |kept|
      invariant !truncated ==> Delivered(chunks) == kept + Delivered(chunks[i..])
    {
      var chunk := chunks[i];
      if chunk == [] {
        assert Delivered(chunks[i..]) == [];
        break;
      }
      assert Delivered(chunks[i..]) == chunk + Delivered(chunks[i + 1..]) by {
        assert chunks[i..][1..] == chunks[i + 1..];
      }
      if collected < maxBytes {
        var allowed := maxBytes - collected;
        var part := chunk[..Least(|chunk|, allowed)];
        ghost var rest := Delivered(chunks[i + 1..]);
        assert kept + (chunk + rest) == (kept + part) + (chunk[|part|..] + rest);
        kept := kept + part;
        collected := collected + |part|;
        if |chunk| > allowed {
          truncated := true;
        }
      } else {
        truncated := true;
      }
      i := i + 1;
    }
  }
}
