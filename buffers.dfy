/**
 * Host buffers lent to native code without a copy, and checked after use by checksum:
 * the transient guard of a synchronous call and the rooted guard of an asynchronous one.
 */
module Buffers {
  import opened Host
  import opened Checksum

  /** The entry logged when a guard finds its buffer changed. */
  const MODIFIED: LogRecord := LogRecord(LogError, BufferModifiedWhileInUse)

  /** `AssumedImmutableBuffer`: a view of a host buffer plus its checksum, rechecked on drop. */
  class AssumedImmutableBuffer {
    /** The buffer the view reads; null for the empty slice an empty buffer is lent as. */
    const buffer: array?<u8>
    const hash: u64
    const hasher: seq<u8> -> u64
    /** The contents and the debug setting when the guard was built. */
    ghost const original: seq<u8>
    ghost const debugAtBorrow: bool

    ghost predicate Valid()
    {
      && hash == ChecksumOf(hasher, original, debugAtBorrow)
      && (buffer == null <==> |original| == 0)
      && (buffer != null ==> buffer.Length == |original|)
    }

    /** The bytes the view reads now. */
    function Slice(): seq<u8>
      reads buffer
    {
      if buffer == null then [] else buffer[..]
    }

    /** `AssumedImmutableBuffer::new`: takes the view and checksums it. */
    constructor (cx: Context, handle: array<u8>)
      ensures Valid() && buffer == (if handle.Length == 0 then null else handle)
      ensures Slice() == handle[..] == original && debugAtBorrow == cx.debugLogging
      ensures hasher == cx.hasher && hash == ChecksumOf(cx.hasher, handle[..], cx.debugLogging)
    {
      buffer := if handle.Length == 0 then null else handle;
      original := handle[..];
      debugAtBorrow := cx.debugLogging;
      hasher := cx.hasher;
      hash := ChecksumOf(cx.hasher, handle[..], cx.debugLogging);
    }

    /** `Drop`: logs an error, and never panics, when the checksum no longer matches.
        An unchanged buffer logs nothing, nor does one changed only past the first
        LIMIT bytes while debug logging stays off. */
    method Drop(cx: Context)
      requires Valid()
      modifies cx`log
      ensures cx.log == old(cx.log) + (if hash != ChecksumOf(hasher, Slice(), cx.debugLogging) then [MODIFIED] else [])
      ensures Slice() == original && cx.debugLogging == debugAtBorrow ==> cx.log == old(cx.log)
      ensures && !cx.debugLogging && !debugAtBorrow && |Slice()| == |original| >= LIMIT
              && Slice()[..LIMIT] == original[..LIMIT]
              ==> cx.log == old(cx.log)
    {
      var current := Slice();
      if |current| == |original| >= LIMIT && !cx.debugLogging && !debugAtBorrow {
        if current[..LIMIT] == original[..LIMIT] {
          assert forall i :: 0 <= i < LIMIT ==> current[i] == current[..LIMIT][i] == original[..LIMIT][i] == original[i];
          ChangesPastLimitAreInvisible(hasher, current, original);
        }
      }
      if hash != ChecksumOf(hasher, current, cx.debugLogging) {
        cx.Append(LogError, BufferModifiedWhileInUse);
      }
    }
  }

  /** `PersistentAssumedImmutableBuffer`: a rooted host buffer, a pointer/length pair taken
      once, and a checksum rechecked on finalize. It must be finalized, exactly once. */
  class PersistentAssumedImmutableBuffer {
    /** The root that keeps the buffer alive. */
    const owner: array<u8>
    /** The start of the bytes; null for an empty buffer. */
    const bufferStart: array?<u8>
    const bufferLen: nat
    const hash: u64
    const hasher: seq<u8> -> u64
    ghost const original: seq<u8>
    ghost const debugAtSave: bool
    var finalized: bool

    ghost predicate Valid()
    {
      && (bufferStart == null <==> bufferLen == 0)
      && (bufferStart != null ==> bufferStart == owner)
      && bufferLen == owner.Length == |original|
      && hash == ChecksumOf(hasher, original, debugAtSave)
    }

    /** `Deref`: the bytes the pointer/length pair reads now. */
    function Deref(): seq<u8>
      requires Valid()
      reads bufferStart
    {
      if bufferStart == null then [] else bufferStart[..bufferLen]
    }

    /** `PersistentAssumedImmutableBuffer::new`: roots the buffer first (nothing here can
        fail), then takes the pointer, the length and the checksum. */
    constructor (cx: Context, buffer: array<u8>)
      modifies cx`roots
      ensures Valid() && !finalized && owner == buffer
      ensures cx.roots == old(cx.roots) + multiset{buffer}
      ensures Deref() == buffer[..] == original && debugAtSave == cx.debugLogging
      ensures hasher == cx.hasher && hash == ChecksumOf(cx.hasher, buffer[..], cx.debugLogging)
    {
      cx.AddRoot(buffer);
      owner := buffer;
      bufferStart := if buffer.Length == 0 then null else buffer;
      bufferLen := buffer.Length;
      original := buffer[..];
      debugAtSave := cx.debugLogging;
      hasher := cx.hasher;
      hash := ChecksumOf(cx.hasher, buffer[..], cx.debugLogging);
      finalized := false;
    }

    /** `Finalize`: logs an error, and never panics, when the checksum no longer matches,
        then releases the root. */
    method Finalize(cx: Context)
      requires Valid() && !finalized && owner in cx.roots
      modifies this`finalized, cx`log, cx`roots
      ensures finalized && cx.roots == old(cx.roots) - multiset{owner}
      ensures cx.log == old(cx.log) + (if hash != ChecksumOf(hasher, Deref(), cx.debugLogging) then [MODIFIED] else [])
      ensures Deref() == original && cx.debugLogging == debugAtSave ==> cx.log == old(cx.log)
    {
      if hash != ChecksumOf(hasher, Deref(), cx.debugLogging) {
        cx.Append(LogError, BufferModifiedWhileInUse);
      }
      cx.ReleaseRoot(owner);
      finalized := true;
    }
  }
}
