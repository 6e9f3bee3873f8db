/**
 * The checksum that detects, after the fact, a host buffer changed while native code
 * was reading it: `calculate_checksum_for_immutable_buffer`.
 */
module Checksum {
  import opened Host

  /** Only this many leading bytes are hashed unless debug logging is enabled. */
  const LIMIT: nat := 1024

  /** How many leading bytes of a buffer of length len the checksum covers. */
  function Covered(len: nat, debugLogging: bool): nat
  {
    if debugLogging || len < LIMIT then len else LIMIT
  }

  /** The bytes fed to the hasher: the whole buffer when debug logging is enabled or the
      buffer is shorter than LIMIT, otherwise exactly its first LIMIT bytes. */
  function HashedBytes(buffer: seq<u8>, debugLogging: bool): (r: seq<u8>)
    ensures r <= buffer
    ensures |r| == Covered(|buffer|, debugLogging)
    ensures |r| <= |buffer| && (|r| < |buffer| ==> !debugLogging && |r| == LIMIT)
  {
    if debugLogging || |buffer| < LIMIT then buffer else buffer[..LIMIT]
  }

  /** The checksum, with the hasher as a function of the bytes it is given. */
  function ChecksumOf(hasher: seq<u8> -> u64, buffer: seq<u8>, debugLogging: bool): u64
  {
    hasher(HashedBytes(buffer, debugLogging))
  }

  /** Two buffers of one length give the hasher the same input exactly when they agree
      on every covered byte. */
  lemma {:induction false} SameInputIffCoveredBytesAgree(a: seq<u8>, b: seq<u8>, debugLogging: bool)
    requires |a| == |b|
    ensures HashedBytes(a, debugLogging) == HashedBytes(b, debugLogging)
        <==> forall i :: 0 <= i < Covered(|a|, debugLogging) ==> a[i] == b[i]
  {
    var n := Covered(|a|, debugLogging);
    var ha, hb := HashedBytes(a, debugLogging), HashedBytes(b, debugLogging);
    if forall i :: 0 <= i < n ==> a[i] == b[i] {
      assert forall i :: 0 <= i < n ==> ha[i] == hb[i];
      assert ha == hb;
    } else {
      var i :| 0 <= i < n && a[i] != b[i];
      assert ha[i] != hb[i];
    }
  }

  /** Without debug logging, a change past the first LIMIT bytes never changes the checksum. */
  lemma ChangesPastLimitAreInvisible(hasher: seq<u8> -> u64, a: seq<u8>, b: seq<u8>)
    requires |a| == |b| && |a| >= LIMIT
    requires forall i :: 0 <= i < LIMIT ==> a[i] == b[i]
    ensures ChecksumOf(hasher, a, false) == ChecksumOf(hasher, b, false)
  {
    SameInputIffCoveredBytesAgree(a, b, false);
  }

  /** With debug logging, the checksum covers every byte. */
  lemma DebugLoggingCoversEverything(a: seq<u8>)
    ensures HashedBytes(a, true) == a
  {
  }
}
