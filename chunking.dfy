/**
 * The fixed-width chunking of dummy_text_receiver (azure_synthesiser.py):
 * the story text is sent to the queue as the slices text[i : i + 3] for
 * i = 0, 3, 6, ... below its length, so each chunk has three
 * characters except possibly a shorter last one.
 */
module Chunking {
  import opened Strings

  /** The slice width the receiver uses. */
  const Width: nat := 3

  /** The chunks of `s`, in order, as Python's clipped slices produce them. */
  function Chunks(s: string): (chunks: seq<string>)
    ensures chunks == [] <==> s == []
    ensures chunks != [] ==> 0 < |chunks[0]| <= Width && chunks[0] <= s
    decreases |s|
  {
    if s == [] then []
    else if |s| <= Width then [s]
    else [s[..Width]] + Chunks(s[Width..])
  }

  /** Sending the chunks in order delivers exactly the original text. */
  lemma {:induction false} ChunksConcat(s: string)
    ensures Concat(Chunks(s)) == s
    decreases |s|
  {
    if s != [] && |s| > Width {
      ChunksConcat(s[Width..]);
      assert s == s[..Width] + s[Width..];
    }
  }

  /** There are ceil(|s| / Width) chunks. */
  lemma {:induction false} ChunksCount(s: string)
    ensures |Chunks(s)| == (|s| + Width - 1) / Width
    decreases |s|
  {
    if s != [] && |s| > Width {
      ChunksCount(s[Width..]);
      assert (|s| + Width - 1) / Width == (|s| - Width + Width - 1) / Width + 1;
    }
  }

  /**
   * Chunk k is the slice starting at k * Width, clipped at the end of the
   * text, as in the list comprehension of the source; no chunk is empty.
   */
  lemma {:induction false} ChunkAt(s: string, k: nat)
    requires k < |Chunks(s)|
    ensures k * Width < |s|
    ensures Chunks(s)[k] == s[k * Width .. if k * Width + Width <= |s| then k * Width + Width else |s|]
    ensures 0 < |Chunks(s)[k]| <= Width
    decreases k
  {
    if k > 0 {
      ChunkAt(s[Width..], k - 1);
      assert (k - 1) * Width + Width == k * Width;
    }
  }
}
