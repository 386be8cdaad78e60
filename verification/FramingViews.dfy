/** The memory object and the two views of it, as objects. */
module FramingViews {
  import opened Framing

  /** NULL is find's null pointer; other results are positions. */
  const NULL: int := -1

  class Memory {
    const data: array<char>
    const beyond: char
    var mapped: bool

    constructor (capacity: nat, beyond: char)
      requires 0 < capacity < SIZE_ERROR
      ensures mapped && data.Length == capacity && fresh(data) && this.beyond == beyond
    {
      data := new char[capacity](_ => '\0');
      this.beyond := beyond;
      mapped := true;
    }

    method FindChar(offset: int, ch: char) returns (pos: int)
      ensures pos == if !mapped || offset < 0 || offset >= data.Length then NULL else Find(data[..], offset, [ch])
    {
      if !mapped || offset < 0 || offset >= data.Length {
        return NULL;
      }
      pos := offset;
      while pos < data.Length && data[pos] != ch
        invariant offset <= pos <= data.Length
        invariant Find(data[..], offset, [ch]) == Find(data[..], pos, [ch])
      {
        pos := pos + 1;
      }
    }

    method FindAny(offset: int, chars: string) returns (pos: int)
      requires chars != ""
      ensures pos == if !mapped || offset < 0 || offset >= data.Length then NULL else Find(data[..], offset, chars)
    {
      if !mapped || offset < 0 || offset >= data.Length {
        return NULL;
      }
      pos := offset;
      while pos < data.Length
        invariant offset <= pos <= data.Length
        invariant Find(data[..], offset, chars) == Find(data[..], pos, chars)
      {
        var i := 0;
        while i < |chars|
          invariant 0 <= i <= |chars|
          invariant data[pos] !in chars[..i]
        {
          if data[pos] == chars[i] {
            return;
          }
          assert chars[..i + 1] == chars[..i] + [chars[i]];
          i := i + 1;
        }
        assert chars[..i] == chars;
        pos := pos + 1;
      }
    }

    method Write(offset: int, buffer: string) returns (written: int)
      modifies data
      ensures forall b: Buffer | b.bytes == old(data[..]) && b.mapped == mapped ::
                data[..] == Written(b, offset, buffer) && written == WriteLen(b, offset, |buffer|)
    {
      if !mapped || offset < 0 || offset >= data.Length {
        return SIZE_ERROR;
      }
      written := Min(|buffer|, data.Length - offset);
      forall i | 0 <= i < written {
        data[offset + i] := buffer[i];
      }
      assert data[..] == old(data[..])[..offset] + buffer[..written] + old(data[..])[offset + written..];
    }

    method Add(offset: int, ch: char) returns (ok: bool)
      modifies data
      ensures ok == (mapped && 0 <= offset < data.Length)
      ensures data[..] == if ok then old(data[..])[offset := ch] else old(data[..])
    {
      if !mapped || offset < 0 || offset >= data.Length {
        return false;
      }
      data[offset] := ch;
      ok := true;
    }
  }

  class WriteBufferView {
    const mem: Memory
    var pos: nat
    var headersInitialized: bool
    var headersFinalized: bool
    var memoryFinalized: bool

    ghost function Abs(): Buffer
      reads this, mem, mem.data
    {
      Buffer(mem.data[..], mem.mapped, mem.beyond, pos, headersInitialized, headersFinalized, memoryFinalized)
    }

    constructor (mem: Memory)
      ensures this.mem == mem && Abs() == View(mem.data[..], mem.beyond).(mapped := mem.mapped)
    {
      this.mem := mem;
      pos := 0;
      headersInitialized, headersFinalized, memoryFinalized := false, false, false;
    }

    method Reset()
      modifies this
      ensures Abs() == Framing.Reset(old(Abs()))
    {
      pos := 0;
      headersFinalized := false;
      memoryFinalized := false;
    }

    method AddHeader(header: string) returns (ok: bool)
      modifies this, mem.data
      ensures (Abs(), ok) == Framing.AddHeader(old(Abs()), header)
    {
      hide Written, WriteLen, Advanced;
      if memoryFinalized || headersFinalized || !mem.mapped {
        return false;
      }
      if headersInitialized {
        ok := mem.Add(pos, HEADER_DELIMITER);
        if !ok {
          return;
        }
        pos := pos + 1;
        headersInitialized := true;
      }
      ok := WriteHeader(header);
    }

    /** The part of addHeader after the delimiter. */
    method WriteHeader(header: string) returns (ok: bool)
      modifies this`pos, this`headersInitialized, mem.data
      ensures Abs() == Advanced(old(Abs()), header).(started := true)
      ensures ok == (WriteLen(old(Abs()), old(pos), |header|) == |header|)
    {
      ghost var b := Abs();
      var size := mem.Write(pos, header);
      pos := (pos + size) % SIZE_RANGE;
      headersInitialized := true;
      ok := size == |header|;
      assert mem.data[..] == Written(b, b.pos, header);
    }

    method FinalizeHeader() returns (ok: bool)
      modifies this, mem.data
      ensures (Abs(), ok) == Framing.FinalizeHeader(old(Abs()))
    {
      if memoryFinalized {
        return headersFinalized;
      }
      if headersFinalized {
        return true;
      }
      if !mem.mapped {
        return false;
      }
      ok := mem.Add(pos, MEMORY_DELIMITER);
      if !ok {
        return;
      }
      pos := pos + 1;
      headersFinalized := true;
    }

    method FinalizePayload() returns (ok: bool)
      modifies this, mem.data
      ensures (Abs(), ok) == Framing.FinalizePayload(old(Abs()))
    {
      if !mem.mapped {
        return false;
      }
      if memoryFinalized {
        return true;
      }
      if !headersFinalized {
        ok := FinalizeHeader();
        if !ok {
          return;
        }
      }
      ok := mem.Add(pos, MEMORY_FINALIZER);
      if !ok {
        return;
      }
      pos := pos + 1;
      memoryFinalized := true;
    }

    method SetPayload(payload: string) returns (ok: bool)
      modifies this, mem.data
      ensures (Abs(), ok) == Framing.SetPayload(old(Abs()), payload)
    {
      hide Framing.FinalizePayload, Written, WriteLen, Advanced;
      if memoryFinalized {
        return false;
      }
      if !headersFinalized {
        ok := FinalizeHeader();
        if !ok {
          return;
        }
      }
      ok := WritePayload(payload);
      if !ok {
        return;
      }
      ok := FinalizePayload();
    }

    /** The part of setPayload that writes; the error value of write counts as success. */
    method WritePayload(payload: string) returns (ok: bool)
      modifies this`pos, mem.data
      ensures ok == (WriteLen(old(Abs()), old(pos), |payload|) > 0)
      ensures Abs() == if ok then Advanced(old(Abs()), payload) else old(Abs())
    {
      ghost var b := Abs();
      var size := mem.Write(pos, payload);
      if size <= 0 {
        assert mem.data[..] == b.bytes;
        return false;
      }
      pos := (pos + size) % SIZE_RANGE;
      assert Abs() == Advanced(b, payload);
      ok := true;
    }
  }

  class ReadBufferView {
    const mem: Memory
    var pos: nat
    var headersFinalized: bool
    var memoryFinalized: bool

    ghost function Abs(): Buffer
      reads this, mem, mem.data
    {
      Buffer(mem.data[..], mem.mapped, mem.beyond, pos, false, headersFinalized, memoryFinalized)
    }

    constructor (mem: Memory)
      ensures this.mem == mem && Abs() == View(mem.data[..], mem.beyond).(mapped := mem.mapped)
    {
      this.mem := mem;
      pos := 0;
      headersFinalized, memoryFinalized := false, false;
    }

    method GetHeader() returns (header: Fetch)
      modifies this
      ensures (Abs(), header) == Framing.GetHeader(old(Abs()))
    {
      if memoryFinalized || headersFinalized || !mem.mapped {
        return Nothing;
      }
      var start := pos;
      var end := mem.FindAny(pos, [HEADER_DELIMITER, MEMORY_DELIMITER, MEMORY_FINALIZER]);
      if end == mem.data.Length {
        return Nothing;
      }
      if end == NULL {
        return Crash;
      }
      var size := end - start;
      var text := mem.data[start..end];
      assert text == mem.data[..][start..end];
      if mem.data[end] == HEADER_DELIMITER {
        pos := pos + size + 1;
        return Got(text);
      } else if mem.data[end] == MEMORY_DELIMITER {
        pos := pos + size + 1;
        headersFinalized := true;
        return Got(text);
      }
      pos := pos + size + 1;
      headersFinalized := true;
      memoryFinalized := true;
      return Nothing;
    }

    method FinalizeHeader() returns (ok: bool)
      modifies this
      ensures (Abs(), ok) == SkipHeaders(old(Abs()))
    {
      if memoryFinalized {
        return headersFinalized;
      }
      if headersFinalized {
        return true;
      }
      if !mem.mapped {
        return false;
      }
      var delim := mem.FindChar(pos, MEMORY_DELIMITER);
      if delim == NULL || delim == mem.data.Length {
        return false;
      }
      pos := delim + 1;
      headersFinalized := true;
      ok := true;
    }

    method GetPayload() returns (payload: Fetch)
      modifies this
      ensures (Abs(), payload) == Framing.GetPayload(old(Abs()))
    {
      if memoryFinalized {
        return Nothing;
      }
      if !headersFinalized {
        var ok := FinalizeHeader();
        if !ok {
          return Nothing;
        }
      }
      if !mem.mapped {
        return Nothing;
      }
      var start := pos;
      var end := mem.FindChar(pos, MEMORY_FINALIZER);
      if end == NULL {
        return Crash;
      }
      var last := if end == mem.data.Length then mem.beyond else mem.data[end];
      if last == MEMORY_FINALIZER {
        var text := mem.data[start..end];
        assert text == mem.data[..][start..end];
        pos := end;
        memoryFinalized := true;
        return Got(text);
      }
      payload := Nothing;
    }

    method FinalizePayload() returns (ok: bool)
      modifies this
      ensures (Abs(), ok) == SkipPayload(old(Abs()))
    {
      if !mem.mapped {
        return false;
      }
      if memoryFinalized {
        return true;
      }
      if !headersFinalized {
        headersFinalized := true;
      }
      var delim := mem.FindChar(pos, MEMORY_FINALIZER);
      if delim == NULL {
        return false;
      }
      memoryFinalized := true;
      pos := mem.data.Length;
      ok := true;
    }
  }
}
