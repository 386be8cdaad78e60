/** The layout of a message in a shared buffer: what the writing and the reading view do to their position and
    flags, as functions of the buffer's bytes. */
module Framing {
  const HEADER_DELIMITER: char := '\t'
  const MEMORY_DELIMITER: char := '\n'
  const MEMORY_FINALIZER: char := '\0'

  /** The number of values of size_t; an error result of -1 is one less. */
  const SIZE_RANGE: int := 0x1_0000_0000_0000_0000
  const SIZE_ERROR: int := SIZE_RANGE - 1

  /** A mapped region together with one view of it. started is used by the writing view only; beyond is the
      byte just past the region, which the reading view may look at. */
  datatype Buffer = Buffer(bytes: string, mapped: bool, beyond: char, pos: nat, started: bool, headersDone: bool,
      done: bool)

  function View(bytes: string, beyond: char): Buffer {
    Buffer(bytes, true, beyond, 0, false, false, false)
  }

  /** The region is not empty, and the position is in it or just past it. */
  predicate InBounds(b: Buffer) {
    0 < |b.bytes| < SIZE_ERROR && b.pos <= |b.bytes|
  }

  // ---------- the memory ----------

  function Min(a: int, b: int): int {
    if a < b then a else b
  }

  /** Memory::write: the number of bytes written, or the error value. */
  function WriteLen(b: Buffer, offset: int, len: nat): int {
    if !b.mapped || offset < 0 || offset >= |b.bytes| then SIZE_ERROR else Min(len, |b.bytes| - offset)
  }

  function Written(b: Buffer, offset: int, data: string): string {
    if !b.mapped || offset < 0 || offset >= |b.bytes| then b.bytes
    else
      var n := Min(|data|, |b.bytes| - offset);
      b.bytes[..offset] + data[..n] + b.bytes[offset + n..]
  }

  /** Memory::add */
  function CanAdd(b: Buffer): bool {
    b.mapped && 0 <= b.pos < |b.bytes|
  }

  /** One character at the position, which moves on. */
  function Added(b: Buffer, c: char): Buffer
    requires CanAdd(b)
  {
    b.(bytes := b.bytes[b.pos := c], pos := b.pos + 1)
  }

  /** Data at the position, which moves by the result of write, error value included, modulo 2^64. */
  function Advanced(b: Buffer, data: string): Buffer {
    b.(bytes := Written(b, b.pos, data), pos := (b.pos + WriteLen(b, b.pos, |data|)) % SIZE_RANGE)
  }

  /** Memory::find: the first of the characters at or after an offset, or the length of the region. */
  function Find(bytes: string, offset: nat, chars: string): (r: nat)
    requires offset <= |bytes|
    ensures offset <= r <= |bytes|
    ensures r < |bytes| ==> bytes[r] in chars
    ensures forall i | offset <= i < r :: bytes[i] !in chars
    decreases |bytes| - offset
  {
    if offset == |bytes| || bytes[offset] in chars then offset else Find(bytes, offset + 1, chars)
  }

  // ---------- the writing view ----------

  function AddHeader(b: Buffer, header: string): (Buffer, bool) {
    if b.done || b.headersDone || !b.mapped then (b, false)
    else if b.started && !CanAdd(b) then (b, false)
    else
      var b1 := if b.started then Added(b, HEADER_DELIMITER) else b;
      (Advanced(b1, header).(started := true), WriteLen(b1, b1.pos, |header|) == |header|)
  }

  function FinalizeHeader(b: Buffer): (Buffer, bool) {
    if b.done then (b, b.headersDone)
    else if b.headersDone then (b, true)
    else if !b.mapped || !CanAdd(b) then (b, false)
    else (Added(b, MEMORY_DELIMITER).(headersDone := true), true)
  }

  function FinalizePayload(b: Buffer): (Buffer, bool) {
    if !b.mapped then (b, false)
    else if b.done then (b, true)
    else
      var (b1, ok) := FinalizeHeader(b);
      if !ok || !CanAdd(b1) then (b1, false) else (Added(b1, MEMORY_FINALIZER).(done := true), true)
  }

  function SetPayload(b: Buffer, payload: string): (Buffer, bool) {
    if b.done then (b, false)
    else
      var (b1, ok) := FinalizeHeader(b);
      if !ok || WriteLen(b1, b1.pos, |payload|) <= 0 then (b1, false) else FinalizePayload(Advanced(b1, payload))
  }

  /** BufferView::reset keeps the flag that a header has been written. */
  function Reset(b: Buffer): Buffer {
    b.(pos := 0, headersDone := false, done := false)
  }

  // ---------- the reading view ----------

  /** What the application gets from a reading view: a text or nothing. In the third case the view follows the
      null pointer that find returned, and the process is gone. */
  datatype Fetch = Got(text: string) | Nothing | Crash

  function GetHeader(b: Buffer): (Buffer, Fetch) {
    if b.done || b.headersDone || !b.mapped then (b, Nothing)
    else if b.pos >= |b.bytes| then (b, Crash)
    else
      var end := Find(b.bytes, b.pos, [HEADER_DELIMITER, MEMORY_DELIMITER, MEMORY_FINALIZER]);
      if end == |b.bytes| then (b, Nothing)
      else if b.bytes[end] == HEADER_DELIMITER then (b.(pos := end + 1), Got(b.bytes[b.pos..end]))
      else if b.bytes[end] == MEMORY_DELIMITER then (b.(pos := end + 1, headersDone := true), Got(b.bytes[b.pos..end]))
      else (b.(pos := end + 1, headersDone := true, done := true), Nothing)
  }

  /** Moves on to the payload, over the headers not read yet. */
  function SkipHeaders(b: Buffer): (Buffer, bool) {
    if b.done then (b, b.headersDone)
    else if b.headersDone then (b, true)
    else if !b.mapped || b.pos >= |b.bytes| then (b, false)
    else
      var end := Find(b.bytes, b.pos, [MEMORY_DELIMITER]);
      if end == |b.bytes| then (b, false) else (b.(pos := end + 1, headersDone := true), true)
  }

  function GetPayload(b: Buffer): (Buffer, Fetch) {
    if b.done then (b, Nothing)
    else
      var (b1, ok) := SkipHeaders(b);
      if !ok || !b1.mapped then (b1, Nothing)
      else if b1.pos >= |b1.bytes| then (b1, Crash)
      else
        var end := Find(b1.bytes, b1.pos, [MEMORY_FINALIZER]);
        if end < |b1.bytes| || b1.beyond == MEMORY_FINALIZER then (b1.(pos := end, done := true),
            Got(b1.bytes[b1.pos..end]))
        else (b1, Nothing)
  }

  function SkipPayload(b: Buffer): (Buffer, bool) {
    if !b.mapped then (b, false)
    else if b.done then (b, true)
    else if b.pos >= |b.bytes| then (b.(headersDone := true), false)
    else (b.(headersDone := true, done := true, pos := |b.bytes|), true)
  }
}
