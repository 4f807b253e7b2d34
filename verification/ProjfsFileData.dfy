/**
 Serving file contents in bounded chunks. The file is its bytes; opening it, taking a buffer,
 and each read and each write may fail for reasons of their own.
 */
module ProjfsFileData {
  import opened Wrappers

  type Byte = bv8

  const MAX_READ_CHUNK: nat := 1024 * 1024

  datatype Write = Write(offset: nat, bytes: seq<Byte>)

  /** The outcomes of the calls around the loop; a read or write is named by its file offset. */
  datatype Calls = Calls(opens: bool, allocates: bool, readOk: nat -> bool, writeOk: nat -> bool)

  datatype Fault = OpenFailed | OutOfMemory | ReadFailed(at: nat) | WriteFailed(offset: nat)

  function Joined(out: seq<Write>): seq<Byte> {
    if out == [] then [] else Joined(out[..|out| - 1]) + out[|out| - 1].bytes
  }

  /** Back to back from `offset`, none empty, none above the limit, each accepted. */
  predicate Tiles(out: seq<Write>, offset: nat, calls: Calls) {
    out == [] ||
    var last := out[|out| - 1];
    && Tiles(out[..|out| - 1], offset, calls)
    && 0 < |last.bytes| <= MAX_READ_CHUNK && calls.writeOk(last.offset)
    && last.offset == offset + |Joined(out[..|out| - 1])|
  }

  /** The first `n` bytes from `offset` have been written, in order and back to back. */
  predicate Served(file: seq<Byte>, offset: nat, calls: Calls, out: seq<Write>, n: nat) {
    && Tiles(out, offset, calls)
    && |Joined(out)| == n
    && (if n == 0 then out == [] else offset + n <= |file| && Joined(out) == file[offset..offset + n])
  }

  lemma {:induction false} ServedNext(file: seq<Byte>, offset: nat, calls: Calls, out: seq<Write>, n: nat, k: nat)
    requires Served(file, offset, calls, out, n) && 0 < k <= MAX_READ_CHUNK
    requires offset + n + k <= |file| && calls.writeOk(offset + n)
    ensures Served(file, offset, calls, out + [Write(offset + n, file[offset + n..offset + n + k])], n + k)
  {
    var w := Write(offset + n, file[offset + n..offset + n + k]);
    assert (out + [w])[..|out|] == out;
    if n > 0 {
      assert file[offset..offset + n] + w.bytes == file[offset..offset + n + k];
    }
  }

  /** The named call did fail, and it was the next one needed. */
  predicate Blamed(file: seq<Byte>, offset: nat, length: nat, calls: Calls, fault: Fault, next: nat) {
    match fault
    case OpenFailed => !calls.opens && next == offset
    case OutOfMemory => !calls.allocates && next == offset
    case ReadFailed(at) => at == next && (!calls.readOk(at) || |file| < offset + length)
    case WriteFailed(at) => at == next && !calls.writeOk(at)
  }

  method ServeFileData(file: seq<Byte>, offset: nat, length: nat, calls: Calls)
    returns (status: Result<(), Fault>, out: seq<Write>)
    ensures status.Ok? ==> Served(file, offset, calls, out, length)
    ensures status.Err? ==> |Joined(out)| < length && Served(file, offset, calls, out, |Joined(out)|)
    ensures status.Err? ==> Blamed(file, offset, length, calls, status.error, offset + |Joined(out)|)
  {
    out := [];
    assert Served(file, offset, calls, out, 0);
    if length == 0 { return Ok(()), out; }
    if !calls.opens { return Err(OpenFailed), out; }
    var chunk := if length <= MAX_READ_CHUNK then length else MAX_READ_CHUNK;
    if !calls.allocates { return Err(OutOfMemory), out; }
    var written := 0;
    while written < length
      invariant written <= length && Served(file, offset, calls, out, written)
    {
      var toRead := if chunk <= length - written then chunk else length - written;
      var at := offset + written;
      if !calls.readOk(at) || at + toRead > |file| { return Err(ReadFailed(at)), out; }
      var w := Write(at, file[at..at + toRead]);
      if !calls.writeOk(at) { return Err(WriteFailed(at)), out; }
      ServedNext(file, offset, calls, out, written, toRead);
      out := out + [w];
      written := written + toRead;
    }
    return Ok(()), out;
  }
}
