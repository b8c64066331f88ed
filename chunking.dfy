/** Splitting a Telegram message into pieces the channel accepts. */
module Chunking {
  import opened Text

  /** Characters per Telegram message piece (below the channel's limit of 4096). */
  const ChunkSize: nat := 4000

  /** `len(range(0, n, 4000))`: how many pieces a message of length `n` is cut into. */
  function ChunkCount(n: nat): nat
  {
    (n + 3999) / 4000
  }

  /** `[message[i:i+4000] for i in range(0, len(message), 4000)]` */
  function Chunks(message: string): (pieces: seq<string>)
    ensures pieces == [] <==> message == ""
    ensures |message| <= |pieces| * ChunkSize < |message| + ChunkSize
    ensures forall k :: 0 <= k < |pieces| ==> 0 < |pieces[k]| <= ChunkSize
    ensures forall k :: 0 <= k < |pieces| - 1 ==> |pieces[k]| == ChunkSize
  {
    seq(ChunkCount(|message|), k requires 0 <= k < ChunkCount(|message|) =>
      message[4000 * k .. Min(4000 * k + 4000, |message|)])
  }

  /** The first piece is the first 4000 characters; the rest is the chunking of what follows them. */
  lemma ChunksUnfold(message: string)
    requires message != ""
    ensures |message| <= ChunkSize ==> Chunks(message) == [message]
    ensures |message| > ChunkSize ==> Chunks(message) == [message[..ChunkSize]] + Chunks(message[ChunkSize..])
  {
    var n := |message|;
    if n > ChunkSize {
      var rest := message[ChunkSize..];
      var a, b := Chunks(message), [message[..ChunkSize]] + Chunks(rest);
      assert ChunkCount(n) == 1 + ChunkCount(|rest|);
      forall k | 1 <= k < |a|
        ensures a[k] == b[k]
      {
        assert b[k] == Chunks(rest)[k - 1];
        assert a[k] == message[4000 * k .. Min(4000 * k + 4000, n)];
        var lo, hi := 4000 * (k - 1), Min(4000 * (k - 1) + 4000, |rest|);
        assert Chunks(rest)[k - 1] == rest[lo..hi];
        assert rest[lo..hi] == message[lo + ChunkSize .. hi + ChunkSize];
      }
      assert a == b;
    } else {
      assert ChunkCount(n) == 1;
      var a := Chunks(message);
      assert |a| == 1 && a[0] == message[0..n];
      assert message[0..n] == message;
      assert a == [message];
    }
  }

  /** Joining the pieces in order gives back the message. */
  lemma {:induction false} ChunksReassemble(message: string)
    ensures Concat(Chunks(message)) == message
    decreases |message|
  {
    if message != "" {
      ChunksUnfold(message);
      if |message| > ChunkSize {
        ChunksReassemble(message[ChunkSize..]);
        assert message == message[..ChunkSize] + message[ChunkSize..];
      }
    }
  }

  /**
   * The chunking is the only way to cut a message into non-empty pieces of at most 4000
   * characters, all but the last exactly 4000, that join back to it.
   */
  lemma {:induction false} ChunksUnique(message: string, parts: seq<string>)
    requires Concat(parts) == message
    requires forall k :: 0 <= k < |parts| ==> 0 < |parts[k]| <= ChunkSize
    requires forall k :: 0 <= k < |parts| - 1 ==> |parts[k]| == ChunkSize
    ensures parts == Chunks(message)
    decreases |parts|
  {
    if parts != [] {
      var rest := parts[1..];
      assert message == parts[0] + Concat(rest);
      if rest == [] {
        assert message == parts[0];
        ChunksUnfold(message);
      } else {
        assert |parts[0]| == ChunkSize;
        assert 0 < |rest[0]|;
        assert rest == [rest[0]] + rest[1..];
        assert |Concat(rest)| > 0;
        ChunksUnique(Concat(rest), rest);
        ChunksUnfold(message);
        assert message[..ChunkSize] == parts[0];
        assert message[ChunkSize..] == Concat(rest);
      }
    }
  }
}
