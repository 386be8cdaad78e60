/** What the layout is for: what has been written is read back, whatever surrounds it in the buffer. */
module FramingLaws {
  import opened Framing

  // ---------- the position never leaves the region ----------

  /** A write to an unmapped region fails, but its error value has moved the position back by one. */
  predicate Underflows(b: Buffer) {
    !b.mapped && b.headersDone && !b.done && b.pos == 0
  }

  /** On a mapped region the position stays within bounds, even though the error value is added to it. */
  lemma WriterInBounds(b: Buffer, text: string)
    requires InBounds(b)
    ensures var b' := AddHeader(b, text).0; InBounds(b') && |b'.bytes| == |b.bytes|
    ensures var b' := FinalizeHeader(b).0; InBounds(b') && |b'.bytes| == |b.bytes|
    ensures var b' := FinalizePayload(b).0; InBounds(b') && |b'.bytes| == |b.bytes|
    ensures var b' := SetPayload(b, text).0; |b'.bytes| == |b.bytes| && (InBounds(b') <==> !Underflows(b))
    ensures InBounds(Reset(b))
  {
    AdvancedInBounds(b, text);
    FinishInBounds(b);
    if CanAdd(b) {
      AddedInBounds(b, HEADER_DELIMITER);
      AddedInBounds(b, MEMORY_DELIMITER);
      AdvancedInBounds(Added(b, HEADER_DELIMITER), text);
    }
    var b1 := FinalizeHeader(b).0;
    AdvancedInBounds(b1, text);
    PayloadInBounds(b, text);
    hide Advanced, Added, WriteLen, Written;
  }

  lemma PayloadInBounds(b: Buffer, text: string)
    requires InBounds(b)
    ensures var b' := SetPayload(b, text).0; |b'.bytes| == |b.bytes| && (InBounds(b') <==> !Underflows(b))
  {
    FinishInBounds(b);
    var b1 := FinalizeHeader(b).0;
    if CanAdd(b) {
      AddedInBounds(b, MEMORY_DELIMITER);
    }
    AdvancedInBounds(b1, text);
    if b1.mapped {
      FinishInBounds(Advanced(b1, text));
    }
    hide Added, Written;
  }

  lemma FinishInBounds(b: Buffer)
    requires InBounds(b)
    ensures var b' := FinalizePayload(b).0; InBounds(b') && |b'.bytes| == |b.bytes|
  {
  }

  lemma AddedInBounds(b: Buffer, c: char)
    requires InBounds(b) && CanAdd(b)
    ensures InBounds(Added(b, c)) && |Added(b, c).bytes| == |b.bytes|
  {
  }

  lemma AdvancedInBounds(b: Buffer, text: string)
    requires InBounds(b)
    ensures |Advanced(b, text).bytes| == |b.bytes|
    ensures InBounds(Advanced(b, text)) <==> b.mapped || b.pos > 0
  {
  }

  /** What can happen to a writing view: a call to it, or the mapping and unmapping of its region, which always
      has the same size. */
  datatype Call =
    | CallAddHeader(text: string) | CallFinalizeHeader | CallSetPayload(text: string) | CallFinalizePayload | CallReset
    | CallMap(pages: string) | CallUnmap

  function Perform(b: Buffer, call: Call): Buffer {
    match call
    case CallAddHeader(text) => AddHeader(b, text).0
    case CallFinalizeHeader => FinalizeHeader(b).0
    case CallSetPayload(text) => SetPayload(b, text).0
    case CallFinalizePayload => FinalizePayload(b).0
    case CallReset => Reset(b)
    case CallMap(pages) => if |pages| == |b.bytes| then b.(bytes := pages, mapped := true) else b
    case CallUnmap => b.(mapped := false)
  }

  function PerformAll(b: Buffer, calls: seq<Call>): Buffer
    decreases |calls|
  {
    if calls == [] then b else PerformAll(Perform(b, calls[0]), calls[1..])
  }

  lemma {:induction false} PerformSnoc(b: Buffer, calls: seq<Call>, n: nat)
    requires n < |calls|
    ensures PerformAll(b, calls[..n + 1]) == Perform(PerformAll(b, calls[..n]), calls[n])
    decreases n
  {
    hide Perform;
    assert calls[..n + 1][0] == calls[0] && calls[..n + 1][1..] == calls[1..][..n];
    if n == 0 {
      assert calls[1..][..0] == [];
    } else {
      assert calls[..n][0] == calls[0] && calls[..n][1..] == calls[1..][..n - 1];
      PerformSnoc(Perform(b, calls[0]), calls[1..], n - 1);
    }
  }

  /** One call leaves the region unless it is a setPayload that underflows. */
  lemma PerformInBounds(b: Buffer, call: Call)
    requires InBounds(b)
    ensures |Perform(b, call).bytes| == |b.bytes|
    ensures InBounds(Perform(b, call)) <==> !(call.CallSetPayload? && Underflows(b))
  {
    hide AddHeader, FinalizeHeader, SetPayload, FinalizePayload;
    WriterInBounds(b, if call.CallAddHeader? || call.CallSetPayload? then call.text else "");
  }

  /** The position is in the region after each of the calls. */
  ghost predicate StaysInBounds(b: Buffer, calls: seq<Call>) {
    forall n | 0 <= n <= |calls| :: InBounds(PerformAll(b, calls[..n]))
  }

  /** The region is unmapped while the payload is open. */
  predicate Exposed(b: Buffer) {
    !b.mapped && b.headersDone && !b.done
  }

  predicate Undisturbed(calls: seq<Call>) {
    forall call <- calls :: !call.CallMap? && !call.CallReset?
  }

  function Payloads(calls: seq<Call>): nat {
    if calls == [] then 0
    else Payloads(calls[..|calls| - 1]) + (if calls[|calls| - 1].CallSetPayload? then 1 else 0)
  }

  lemma PayloadsSnoc(calls: seq<Call>, i: nat, j: nat)
    requires i <= j < |calls|
    ensures Payloads(calls[i..j + 1]) == Payloads(calls[i..j]) + (if calls[j].CallSetPayload? then 1 else 0)
    ensures Undisturbed(calls[i..j + 1]) ==> Undisturbed(calls[i..j]) && !calls[j].CallMap? && !calls[j].CallReset?
  {
    var some, more := calls[i..j], calls[i..j + 1];
    assert more == some + [calls[j]];
    assert more[..|more| - 1] == some && more[|more| - 1] == calls[j];
    assert forall call <- some :: call in more;
  }

  /** On an unmapped region an open payload stays open, and only setPayload moves the position. */
  lemma ExposedStep(b: Buffer, call: Call)
    requires InBounds(b) && Exposed(b) && !call.CallMap? && !call.CallReset?
    ensures Exposed(Perform(b, call))
    ensures b.pos > 0 || !call.CallSetPayload? ==>
              Perform(b, call).pos == b.pos - (if call.CallSetPayload? then 1 else 0)
  {
    hide Written;
  }

  /** A stretch of calls without a mapping or a reset that begins with an open payload on an unmapped region:
      each setPayload moves the position back by one. */
  lemma {:induction false} ExposedStretch(b: Buffer, calls: seq<Call>, i: nat, j: nat)
    requires i <= j <= |calls| && StaysInBounds(b, calls)
    requires Exposed(PerformAll(b, calls[..i])) && Undisturbed(calls[i..j])
    ensures Exposed(PerformAll(b, calls[..j]))
    ensures PerformAll(b, calls[..j]).pos == PerformAll(b, calls[..i]).pos - Payloads(calls[i..j])
    decreases j
  {
    hide Exposed, Perform, PerformAll, Underflows, Payloads, Undisturbed;
    if i == j {
      NoPayloads(calls, i);
    } else {
      PayloadsSnoc(calls, i, j - 1);
      ExposedStretch(b, calls, i, j - 1);
      PerformSnoc(b, calls, j - 1);
      var before := PerformAll(b, calls[..j - 1]);
      PerformInBounds(before, calls[j - 1]);
      UnderflowMeans(before);
      ExposedStep(before, calls[j - 1]);
    }
  }

  lemma NoPayloads(calls: seq<Call>, i: nat)
    requires i <= |calls|
    ensures Payloads(calls[i..i]) == 0
  {
  }

  lemma UnderflowMeans(b: Buffer)
    ensures Underflows(b) <==> Exposed(b) && b.pos == 0
  {
  }

  /** On every stretch of calls that finds an open payload on an unmapped region, and neither maps it nor resets
      the view, there are at most as many calls of setPayload as the position allows. */
  ghost predicate FewPayloads(b: Buffer, calls: seq<Call>) {
    forall i, j | 0 <= i <= j <= |calls| && Exposed(PerformAll(b, calls[..i])) && Undisturbed(calls[i..j]) ::
      Payloads(calls[i..j]) <= PerformAll(b, calls[..i]).pos
  }

  /** Exactly when the position stays within the region, whatever is called in whatever order. */
  lemma WriterAlwaysInBounds(b: Buffer, calls: seq<Call>)
    requires InBounds(b)
    ensures StaysInBounds(b, calls) <==> FewPayloads(b, calls)
  {
    hide Exposed, Perform, PerformAll, Payloads, Undisturbed;
    if StaysInBounds(b, calls) {
      forall i, j | 0 <= i <= j <= |calls| && Exposed(PerformAll(b, calls[..i])) && Undisturbed(calls[i..j])
        ensures Payloads(calls[i..j]) <= PerformAll(b, calls[..i]).pos
      {
        ExposedStretch(b, calls, i, j);
      }
    }
    if FewPayloads(b, calls) {
      forall n | 0 <= n <= |calls| ensures InBounds(PerformAll(b, calls[..n])) {
        FewStay(b, calls, n);
      }
    }
  }

  lemma {:induction false} FewStay(b: Buffer, calls: seq<Call>, n: nat)
    requires InBounds(b) && FewPayloads(b, calls) && n <= |calls|
    ensures InBounds(PerformAll(b, calls[..n]))
    decreases n
  {
    hide Perform, Exposed, Underflows, FewPayloads, Payloads, InBounds;
    if n == 0 {
    } else {
      FewStay(b, calls, n - 1);
      PerformSnoc(b, calls, n - 1);
      var before := PerformAll(b, calls[..n - 1]);
      PerformInBounds(before, calls[n - 1]);
      UnderflowMeans(before);
      if calls[n - 1].CallSetPayload? && Exposed(before) {
        FewHere(b, calls, n);
      }
    }
  }

  lemma FewHere(b: Buffer, calls: seq<Call>, n: nat)
    requires FewPayloads(b, calls) && 0 < n <= |calls|
    requires calls[n - 1].CallSetPayload? && Exposed(PerformAll(b, calls[..n - 1]))
    ensures PerformAll(b, calls[..n - 1]).pos > 0
  {
    hide PerformAll, Exposed;
    PayloadsSnoc(calls, n - 1, n - 1);
    NoPayloads(calls, n - 1);
    assert Undisturbed(calls[n - 1..n]);
  }

  /** A region that is never unmapped is never left. */
  lemma {:induction false} MappedInBounds(b: Buffer, calls: seq<Call>)
    requires InBounds(b) && b.mapped && forall call <- calls :: !call.CallUnmap?
    ensures InBounds(PerformAll(b, calls)) && |PerformAll(b, calls).bytes| == |b.bytes|
    decreases |calls|
  {
    hide Perform;
    if calls != [] {
      PerformInBounds(b, calls[0]);
      StaysMapped(b, calls[0]);
      MappedInBounds(Perform(b, calls[0]), calls[1..]);
    }
  }

  lemma StaysMapped(b: Buffer, call: Call)
    requires b.mapped && !call.CallUnmap?
    ensures Perform(b, call).mapped
  {
    hide Written, WriteLen;
  }

  /** It does happen: the headers are finished, the region is unmapped, and two payloads follow. */
  lemma UnmappedUnderflow(bytes: string, beyond: char)
    requires 0 < |bytes| < SIZE_ERROR
    ensures var calls := [CallFinalizeHeader, CallUnmap, CallSetPayload("x"), CallSetPayload("x")];
            && PerformAll(View(bytes, beyond), calls).pos == SIZE_ERROR && !StaysInBounds(View(bytes, beyond), calls)
  {
    hide Perform;
    var calls := [CallFinalizeHeader, CallUnmap, CallSetPayload("x"), CallSetPayload("x")];
    var b0 := View(bytes, beyond);
    FourSteps(b0);
    PerformFour(b0, calls[0], calls[1], calls[2], calls[3]);
    assert calls[..4] == calls;
  }

  lemma {:induction false} PerformFour(b: Buffer, c0: Call, c1: Call, c2: Call, c3: Call)
    ensures PerformAll(b, [c0, c1, c2, c3]) == Perform(Perform(Perform(Perform(b, c0), c1), c2), c3)
  {
    hide Perform;
    var b3 := Perform(Perform(Perform(b, c0), c1), c2);
    assert [c0, c1, c2, c3][1..] == [c1, c2, c3] && [c1, c2, c3][1..] == [c2, c3] && [c2, c3][1..] == [c3] &&
        [c3][1..] == [];
    assert PerformAll(Perform(b3, c3), []) == Perform(b3, c3);
    assert PerformAll(b3, [c3]) == Perform(b3, c3);
    assert PerformAll(Perform(Perform(b, c0), c1), [c2, c3]) == Perform(b3, c3);
  }

  lemma FourSteps(b: Buffer)
    requires b == View(b.bytes, b.beyond) && 0 < |b.bytes|
    ensures Perform(Perform(Perform(Perform(b, CallFinalizeHeader), CallUnmap), CallSetPayload("x")),
            CallSetPayload("x")).pos == SIZE_ERROR
  {
  }

  // ---------- when a payload is accepted ----------

  /** On a mapped buffer whose headers are open, a non-empty payload is accepted exactly if newline, payload and
      terminator fit, or if the newline has just filled the buffer. */
  lemma PayloadAccepted(b: Buffer, payload: string)
    requires InBounds(b) && b.mapped && !b.headersDone && !b.done && payload != ""
    ensures SetPayload(b, payload).1 <==> b.pos + |payload| + 2 <= |b.bytes| || b.pos + 1 == |b.bytes|
  {
    if CanAdd(b) {
      var b1 := FinalizeHeader(b).0;
      PayloadAdvances(b1, payload);
      hide Advanced, Written, Added;
    }
  }

  lemma PayloadAdvances(b: Buffer, payload: string)
    requires InBounds(b) && b.mapped && payload != ""
    ensures var b2 := Advanced(b, payload);
            && b2 == b.(bytes := b2.bytes, pos := b2.pos) && |b2.bytes| == |b.bytes|
            && WriteLen(b, b.pos, |payload|) > 0
            && b2.pos == if b.pos == |b.bytes| then b.pos - 1 else if b.pos + |payload| < |b.bytes| then b.pos +
                 |payload| else |b.bytes|
  {
  }

  /** What an accepted payload leaves in the buffer. In the second case that is nothing: the terminator takes the
      newline's place. */
  lemma PayloadBytes(b: Buffer, payload: string)
    requires InBounds(b) && b.mapped && !b.headersDone && !b.done && payload != ""
    ensures b.pos + |payload| + 2 <= |b.bytes| ==>
              SetPayload(b, payload).0.bytes ==
                b.bytes[..b.pos] + [MEMORY_DELIMITER] + payload + [MEMORY_FINALIZER] + b.bytes[b.pos + |payload| + 2..]
    ensures b.pos + 1 == |b.bytes| ==> SetPayload(b, payload).0.bytes == b.bytes[..b.pos] + [MEMORY_FINALIZER]
  {
    if CanAdd(b) {
      var b1 := FinalizeHeader(b).0;
      var b2 := Advanced(b1, payload);
      if b.pos + |payload| + 2 <= |b.bytes| {
        assert b2.bytes == b.bytes[..b.pos] + [MEMORY_DELIMITER] + payload + b.bytes[b.pos + |payload| + 1..];
        assert b2.pos == b.pos + 1 + |payload|;
      } else if b.pos + 1 == |b.bytes| {
        assert b2.pos == b.pos;
      }
    }
  }

  // ---------- messages ----------

  /** Free of the three characters that structure a message. */
  predicate Plain(text: string) {
    HEADER_DELIMITER !in text && MEMORY_DELIMITER !in text && MEMORY_FINALIZER !in text
  }

  function Joined(headers: seq<string>): string {
    if headers == [] then ""
    else if |headers| == 1 then headers[0]
    else headers[0] + [HEADER_DELIMITER] + Joined(headers[1..])
  }

  function Encode(headers: seq<string>, payload: string): string {
    Joined(headers) + [MEMORY_DELIMITER] + payload + [MEMORY_FINALIZER]
  }

  // ---------- writing ----------

  function AddHeaders(b: Buffer, headers: seq<string>): (Buffer, bool)
    decreases |headers|
  {
    if headers == [] then (b, true)
    else
      var (b1, ok) := AddHeader(b, headers[0]);
      if ok then AddHeaders(b1, headers[1..]) else (b1, false)
  }

  /** The bytes that a list of headers takes; all but the first are preceded by a delimiter. */
  function Line(started: bool, headers: seq<string>): string
    decreases |headers|
  {
    if headers == [] then ""
    else (if started then [HEADER_DELIMITER] else []) + headers[0] + Line(true, headers[1..])
  }

  lemma {:induction false} LineJoined(headers: seq<string>)
    requires headers != []
    ensures Line(false, headers) == Joined(headers)
    ensures Line(true, headers) == [HEADER_DELIMITER] + Joined(headers)
  {
    if |headers| == 1 {
      assert headers[1..] == [];
    } else {
      LineJoined(headers[1..]);
    }
  }

  /** The buffer with text put at the position. */
  function Put(b: Buffer, text: string): Buffer
    requires 0 <= b.pos && b.pos + |text| <= |b.bytes|
  {
    b.(bytes := b.bytes[..b.pos] + text + b.bytes[b.pos + |text|..], pos := b.pos + |text|)
  }

  lemma PutTwice(b: Buffer, text: string, more: string)
    requires 0 <= b.pos && b.pos + |text| + |more| <= |b.bytes|
    ensures Put(Put(b, text), more) == Put(b, text + more)
  {
    var b1 := Put(b, text);
    assert b1.bytes[..b1.pos] == b.bytes[..b.pos] + text;
    assert b1.bytes[b1.pos + |more|..] == b.bytes[b.pos + |text| + |more|..];
    assert b.bytes[..b.pos] + text + more + b.bytes[b.pos + |text| + |more|..] ==
           b.bytes[..b.pos] + (text + more) + b.bytes[b.pos + |text| + |more|..];
  }

  lemma AddHeaderPuts(b: Buffer, header: string)
    requires InBounds(b) && b.mapped && !b.headersDone && !b.done
    requires b.pos + |Line(b.started, [header])| < |b.bytes|
    ensures AddHeader(b, header) == (Put(b, Line(b.started, [header])).(started := true), true)
  {
    assert Line(b.started, [header]) == (if b.started then [HEADER_DELIMITER] else []) + header by {
      assert [header][1..] == [];
    }
    if b.started {
      var b1 := Added(b, HEADER_DELIMITER);
      assert b1 == Put(b, [HEADER_DELIMITER]);
      AdvancedPuts(b1, header);
      PutTwice(b, [HEADER_DELIMITER], header);
    } else {
      AdvancedPuts(b, header);
      assert [] + header == header;
    }
  }

  lemma AdvancedPuts(b: Buffer, text: string)
    requires InBounds(b) && b.mapped && b.pos + |text| <= |b.bytes| && b.pos < |b.bytes|
    ensures Advanced(b, text) == Put(b, text) && WriteLen(b, b.pos, |text|) == |text|
  {
    assert text[..|text|] == text;
  }

  lemma {:induction false} AddHeadersPuts(b: Buffer, headers: seq<string>)
    requires InBounds(b) && b.mapped && !b.headersDone && !b.done
    requires b.pos + |Line(b.started, headers)| < |b.bytes|
    ensures AddHeaders(b, headers) == (Put(b, Line(b.started, headers)).(started := b.started || headers != []), true)
    decreases |headers|
  {
    hide AddHeader, Put;
    if headers == [] {
      PutNothing(b);
    } else {
      var line := Line(b.started, [headers[0]]);
      LineSplit(b.started, headers);
      AddHeaderPuts(b, headers[0]);
      var b1 := Put(b, line).(started := true);
      PutInBounds(b, line);
      AddHeadersPuts(b1, headers[1..]);
      PutTwice(b, line, Line(true, headers[1..]));
      PutStarted(Put(b, line), Line(true, headers[1..]), true);
    }
  }

  lemma PutNothing(b: Buffer)
    requires InBounds(b)
    ensures Put(b, "") == b
  {
    assert b.bytes[..b.pos] + "" + b.bytes[b.pos..] == b.bytes;
  }

  lemma LineSplit(started: bool, headers: seq<string>)
    requires headers != []
    ensures Line(started, headers) == Line(started, [headers[0]]) + Line(true, headers[1..])
  {
    assert [headers[0]][1..] == [];
    assert Line(started, [headers[0]]) == (if started then [HEADER_DELIMITER] else []) + headers[0];
  }

  lemma PutInBounds(b: Buffer, text: string)
    requires InBounds(b) && b.pos + |text| <= |b.bytes|
    ensures var b' := Put(b, text);
            InBounds(b') && |b'.bytes| == |b.bytes| && b'.pos == b.pos + |text| &&
                b' == b.(bytes := b'.bytes, pos := b'.pos)
  {
  }

  lemma PutStarted(b: Buffer, text: string, started: bool)
    requires 0 <= b.pos && b.pos + |text| <= |b.bytes|
    ensures Put(b.(started := started), text) == Put(b, text).(started := started)
  {
  }

  /** A message that fits is written completely, wherever the headers begin. */
  lemma WriteMessage(b: Buffer, headers: seq<string>, payload: string)
    requires InBounds(b) && b.mapped && !b.headersDone && !b.done && payload != ""
    requires b.pos + |Line(b.started, headers)| + |payload| + 2 <= |b.bytes|
    ensures AddHeaders(b, headers).1 && SetPayload(AddHeaders(b, headers).0, payload).1
    ensures SetPayload(AddHeaders(b, headers).0, payload).0.bytes ==
              Put(b, Line(b.started, headers) + [MEMORY_DELIMITER] + payload + [MEMORY_FINALIZER]).bytes
  {
    hide SetPayload, AddHeaders, Line;
    AddHeadersPuts(b, headers);
    var line := Line(b.started, headers);
    var b1 := AddHeaders(b, headers).0;
    PutInBounds(b, line);
    assert b1 == Put(b, line).(started := b.started || headers != []) by {
      hide Put;
    }
    hide Put;
    PayloadAccepted(b1, payload);
    PayloadPuts(b1, payload);
    var rest := [MEMORY_DELIMITER] + payload + [MEMORY_FINALIZER];
    PutStarted(Put(b, line), rest, b.started || headers != []);
    PutTwice(b, line, rest);
    assert line + rest == line + [MEMORY_DELIMITER] + payload + [MEMORY_FINALIZER];
  }

  lemma PayloadPuts(b: Buffer, payload: string)
    requires InBounds(b) && b.mapped && !b.headersDone && !b.done && payload != "" && b.pos + |payload| + 2 <= |b.bytes|
    ensures SetPayload(b, payload).0.bytes == Put(b, [MEMORY_DELIMITER] + payload + [MEMORY_FINALIZER]).bytes
  {
    hide SetPayload;
    PayloadBytes(b, payload);
    var rest := [MEMORY_DELIMITER] + payload + [MEMORY_FINALIZER];
    assert b.bytes[..b.pos] + [MEMORY_DELIMITER] + payload + [MEMORY_FINALIZER] + b.bytes[b.pos + |payload| + 2..] ==
           b.bytes[..b.pos] + rest + b.bytes[b.pos + |rest|..];
  }

  // ---------- reading ----------

  /** What stands at the position of a reading view. */
  predicate At(b: Buffer, text: string) {
    InBounds(b) && b.mapped && text <= b.bytes[b.pos..]
  }

  function ReadHeaders(b: Buffer, n: nat): (Buffer, seq<Fetch>)
    decreases n
  {
    if n == 0 then (b, [])
    else
      var (b1, h) := GetHeader(b);
      var (b2, hs) := ReadHeaders(b1, n - 1);
      (b2, [h] + hs)
  }

  datatype ReadCall = ReadHeader | SkipToPayload | ReadPayloadCall | SkipToEnd | Rewind | Remap(pages: string) | Unmap

  function PerformRead(b: Buffer, call: ReadCall): Buffer {
    match call
    case ReadHeader => GetHeader(b).0
    case SkipToPayload => SkipHeaders(b).0
    case ReadPayloadCall => GetPayload(b).0
    case SkipToEnd => SkipPayload(b).0
    case Rewind => Reset(b)
    case Remap(pages) => if |pages| == |b.bytes| then b.(bytes := pages, mapped := true) else b
    case Unmap => b.(mapped := false)
  }

  function PerformReads(b: Buffer, calls: seq<ReadCall>): Buffer
    decreases |calls|
  {
    if calls == [] then b else PerformReads(PerformRead(b, calls[0]), calls[1..])
  }

  /** A reading view never leaves its region, mapped or not. */
  lemma {:induction false} ReaderInBounds(b: Buffer, calls: seq<ReadCall>)
    requires InBounds(b)
    ensures InBounds(PerformReads(b, calls))
    decreases |calls|
  {
    hide PerformRead;
    if calls != [] {
      PerformReadInBounds(b, calls[0]);
      ReaderInBounds(PerformRead(b, calls[0]), calls[1..]);
    }
  }

  lemma PerformReadInBounds(b: Buffer, call: ReadCall)
    requires InBounds(b)
    ensures InBounds(PerformRead(b, call))
  {
  }

  /** Exactly when reading follows a null pointer: a header is asked for at the end of a region, or a payload when
      nothing stands behind the headers because the newline is the last byte. */
  lemma ReadCrashes(b: Buffer)
    requires InBounds(b)
    ensures GetHeader(b).1.Crash? <==> b.mapped && !b.done && !b.headersDone && b.pos == |b.bytes|
    ensures GetPayload(b).1.Crash? <==>
              b.mapped && !b.done &&
              if b.headersDone then b.pos == |b.bytes|
              else
                && b.pos < |b.bytes| && b.bytes[|b.bytes| - 1] == MEMORY_DELIMITER
                && MEMORY_DELIMITER !in b.bytes[b.pos..|b.bytes| - 1]
  {
    if b.mapped && !b.done && !b.headersDone && b.pos < |b.bytes| {
      var end := Find(b.bytes, b.pos, [MEMORY_DELIMITER]);
      var line := b.bytes[b.pos..|b.bytes| - 1];
      assert forall i | 0 <= i < |line| :: line[i] == b.bytes[b.pos + i];
      if end < |b.bytes| - 1 {
        assert line[end - b.pos] == MEMORY_DELIMITER;
      }
    }
  }

  /** It does happen, in a region of any size: a line that ends at the region's last byte is read, and the view is asked
      once more; or there is nothing behind the headers. */
  lemma CrashesHappen(head: string, beyond: char)
    requires Plain(head) && |head| + 1 < SIZE_ERROR
    ensures var b := View(head + [HEADER_DELIMITER], beyond);
            GetHeader(b).1 == Got(head) && GetHeader(GetHeader(b).0).1 == Crash
    ensures var b := View(head + [MEMORY_DELIMITER], beyond);
            && GetPayload(b).1 == Crash
            && GetHeader(b).1 == Got(head) && GetPayload(GetHeader(b).0).1 == Crash
  {
    hide GetHeader, GetPayload, Find;
    EndsWith(head, HEADER_DELIMITER, beyond);
    EndsWith(head, MEMORY_DELIMITER, beyond);
    var b := View(head + [MEMORY_DELIMITER], beyond);
    ReadCrashes(GetHeader(View(head + [HEADER_DELIMITER], beyond)).0);
    ReadCrashes(b);
    ReadCrashes(GetHeader(b).0);
    assert b.bytes[0..|b.bytes| - 1] == head;
  }

  lemma EndsWith(head: string, delimiter: char, beyond: char)
    requires Plain(head) && |head| + 1 < SIZE_ERROR && (delimiter == HEADER_DELIMITER || delimiter == MEMORY_DELIMITER)
    ensures var b := View(head + [delimiter], beyond);
            GetHeader(b) == (b.(pos := |b.bytes|, headersDone := delimiter == MEMORY_DELIMITER), Got(head))
  {
    var b := View(head + [delimiter], beyond);
    assert b.bytes[0..] == head + ([delimiter] + []);
    ReadOneHeader(b, head, delimiter, []);
  }

  lemma FindAt(bytes: string, offset: nat, text: string, c: char, chars: string)
    requires offset + |text| < |bytes| && bytes[offset..offset + |text|] == text
    requires bytes[offset + |text|] == c && c in chars && forall x <- text :: x !in chars
    ensures Find(bytes, offset, chars) == offset + |text|
  {
    forall i | offset <= i < offset + |text| ensures bytes[i] !in chars {
      assert bytes[i] == text[i - offset];
    }
  }

  lemma AtSplit(b: Buffer, text: string, more: string)
    requires At(b, text + more)
    ensures b.pos + |text| + |more| <= |b.bytes|
    ensures b.bytes[b.pos..b.pos + |text|] == text
    ensures At(b.(pos := b.pos + |text|), more)
  {
    var all := text + more;
    assert forall i | 0 <= i < |all| :: b.bytes[b.pos + i] == all[i];
    assert b.bytes[b.pos..b.pos + |text|] == text;
    assert forall i | 0 <= i < |more| :: b.bytes[b.pos + |text|..][i] == all[|text| + i] == more[i];
  }

  lemma AtFirst(b: Buffer, c: char, more: string)
    requires At(b, [c] + more)
    ensures b.pos < |b.bytes| && b.bytes[b.pos] == c
    ensures At(b.(pos := b.pos + 1), more)
  {
    AtSplit(b, [c], more);
    assert b.bytes[b.pos..b.pos + 1][0] == c;
  }

  lemma ReadOneHeader(b: Buffer, header: string, delimiter: char, rest: string)
    requires At(b, header + ([delimiter] + rest)) && Plain(header) && !b.headersDone && !b.done
    requires delimiter == HEADER_DELIMITER || delimiter == MEMORY_DELIMITER
    ensures GetHeader(b) == (b.(pos := b.pos + |header| + 1, headersDone := delimiter == MEMORY_DELIMITER), Got(header))
    ensures At(GetHeader(b).0, rest)
  {
    AtSplit(b, header, [delimiter] + rest);
    AtFirst(b.(pos := b.pos + |header|), delimiter, rest);
    FindAt(b.bytes, b.pos, header, delimiter, [HEADER_DELIMITER, MEMORY_DELIMITER, MEMORY_FINALIZER]);
  }

  /** The payload is what stands between the position and the next terminator. */
  lemma ReadPayload(b: Buffer, payload: string)
    requires At(b, payload + [MEMORY_FINALIZER]) && MEMORY_FINALIZER !in payload && b.headersDone && !b.done
    ensures GetPayload(b).1 == Got(payload)
  {
    AtSplit(b, payload, [MEMORY_FINALIZER]);
    assert [MEMORY_FINALIZER] + [] == [MEMORY_FINALIZER];
    AtFirst(b.(pos := b.pos + |payload|), MEMORY_FINALIZER, []);
    FindAt(b.bytes, b.pos, payload, MEMORY_FINALIZER, [MEMORY_FINALIZER]);
  }

  lemma SkipLine(b: Buffer, head: string, rest: string)
    requires At(b, head + ([MEMORY_DELIMITER] + rest)) && MEMORY_DELIMITER !in head && !b.headersDone && !b.done
    ensures var b1 := b.(pos := b.pos + |head| + 1, headersDone := true); SkipHeaders(b) == (b1, true) && At(b1, rest)
  {
    AtSplit(b, head, [MEMORY_DELIMITER] + rest);
    AtFirst(b.(pos := b.pos + |head|), MEMORY_DELIMITER, rest);
    FindAt(b.bytes, b.pos, head, MEMORY_DELIMITER, [MEMORY_DELIMITER]);
  }

  lemma SkipFirst(b: Buffer, b1: Buffer)
    requires SkipHeaders(b) == (b1, true) && !b.done && b1.headersDone && !b1.done
    ensures GetPayload(b) == GetPayload(b1)
  {
    hide Find;
  }

  /** Going straight to the payload skips the headers that have not been read. */
  lemma SkipTo(b: Buffer, head: string, payload: string)
    requires At(b, head + ([MEMORY_DELIMITER] + (payload + [MEMORY_FINALIZER]))) && MEMORY_DELIMITER !in head
    requires MEMORY_FINALIZER !in payload && !b.headersDone && !b.done
    ensures GetPayload(b).1 == Got(payload)
  {
    hide At, SkipHeaders, GetPayload;
    var b1 := b.(pos := b.pos + |head| + 1, headersDone := true);
    SkipLine(b, head, payload + [MEMORY_FINALIZER]);
    ReadPayload(b1, payload);
    SkipFirst(b, b1);
  }

  // ---------- the laws ----------

  lemma {:induction false} JoinedFree(headers: seq<string>)
    requires forall h <- headers :: Plain(h)
    ensures MEMORY_DELIMITER !in Joined(headers)
  {
    if headers != [] {
      assert Plain(headers[0]);
    }
    if |headers| > 1 {
      JoinedFree(headers[1..]);
    }
  }

  lemma EncodeNext(headers: seq<string>, payload: string)
    requires headers != []
    ensures var delimiter, rest := if |headers| == 1 then MEMORY_DELIMITER else HEADER_DELIMITER,
                                   if |headers| == 1 then payload +
                                       [MEMORY_FINALIZER] else Encode(headers[1..], payload);
            Encode(headers, payload) == headers[0] + ([delimiter] + rest)
  {
    if |headers| == 1 {
      assert headers[0] + [MEMORY_DELIMITER] + payload + [MEMORY_FINALIZER] == headers[0] +
          ([MEMORY_DELIMITER] + (payload + [MEMORY_FINALIZER]));
    } else {
      var rest := Joined(headers[1..]) + [MEMORY_DELIMITER] + payload + [MEMORY_FINALIZER];
      assert headers[0] + [HEADER_DELIMITER] + Joined(headers[1..]) + [MEMORY_DELIMITER] + payload +
          [MEMORY_FINALIZER] ==
             headers[0] + ([HEADER_DELIMITER] + rest);
    }
  }

  function Gots(headers: seq<string>): seq<Fetch> {
    if headers == [] then [] else [Got(headers[0])] + Gots(headers[1..])
  }

  /** Reading any number of the headers returns them in order; the payload can be fetched at that point, and
      after the last header there is none left. What follows the terminator in the buffer does not matter. */
  lemma {:induction false} ReadBack(b: Buffer, headers: seq<string>, payload: string, k: nat)
    requires At(b, Encode(headers, payload)) && !b.headersDone && !b.done && headers != [] && k <= |headers|
    requires (forall h <- headers :: Plain(h)) && MEMORY_FINALIZER !in payload
    ensures ReadHeaders(b, k).1 == Gots(headers[..k])
    ensures GetPayload(ReadHeaders(b, k).0).1 == Got(payload)
    ensures k == |headers| ==> GetHeader(ReadHeaders(b, k).0) == (ReadHeaders(b, k).0, Nothing)
    decreases |headers|
  {
    hide GetHeader, GetPayload, Plain, Joined;
    if k == 0 {
      JoinedFree(headers);
      var head := Joined(headers);
      assert Encode(headers, payload) == head + ([MEMORY_DELIMITER] + (payload + [MEMORY_FINALIZER]));
      SkipTo(b, head, payload);
    } else {
      EncodeNext(headers, payload);
      var delimiter := if |headers| == 1 then MEMORY_DELIMITER else HEADER_DELIMITER;
      var rest := if |headers| == 1 then payload + [MEMORY_FINALIZER] else Encode(headers[1..], payload);
      ReadOneHeader(b, headers[0], delimiter, rest);
      var b1 := GetHeader(b).0;
      assert headers[..k] == [headers[0]] + headers[1..][..k - 1];
      if |headers| == 1 {
        ReadPayload(b1, payload);
        NoMoreHeaders(b1);
        assert headers[..k][1..] == [];
      } else {
        ReadBack(b1, headers[1..], payload, k - 1);
      }
    }
  }

  lemma NoMoreHeaders(b: Buffer)
    requires b.headersDone
    ensures GetHeader(b) == (b, Nothing)
  {
  }

  /** The headers as the reader will see them. A view that was reset after use still believes that a header
      has been written and begins with a delimiter, which reads as an empty header. */
  function Seen(started: bool, headers: seq<string>): seq<string> {
    if started then [""] + headers else headers
  }

  lemma SeenLine(started: bool, headers: seq<string>)
    requires headers != []
    ensures Line(started, headers) == Joined(Seen(started, headers)) && Seen(started, headers) != []
    ensures (forall h <- headers :: Plain(h)) ==> forall h <- Seen(started, headers) :: Plain(h)
  {
    LineJoined(headers);
    if started {
      assert ([""] + headers)[1..] == headers;
      assert "" + [HEADER_DELIMITER] + Joined(headers) == [HEADER_DELIMITER] + Joined(headers);
    }
  }

  /** Writing a message that fits succeeds, and the buffer then begins with its encoding. */
  lemma WriteEncodes(b: Buffer, headers: seq<string>, payload: string)
    requires InBounds(b) && b.mapped && !b.headersDone && !b.done && b.pos == 0 && headers != [] && payload != ""
    requires |Encode(Seen(b.started, headers), payload)| <= |b.bytes|
    ensures AddHeaders(b, headers).1 && SetPayload(AddHeaders(b, headers).0, payload).1
    ensures var text := Encode(Seen(b.started, headers), payload);
            SetPayload(AddHeaders(b, headers).0, payload).0.bytes == text + b.bytes[|text|..]
  {
    hide SetPayload, AddHeaders, Joined, Line, Put, Seen;
    SeenLine(b.started, headers);
    WriteMessage(b, headers, payload);
    PutFirst(b, Encode(Seen(b.started, headers), payload));
  }

  lemma PutFirst(b: Buffer, text: string)
    requires b.pos == 0 && |text| <= |b.bytes|
    ensures Put(b, text).bytes == text + b.bytes[|text|..]
  {
    assert b.bytes[..0] + text == text;
  }

  /** The round trip. Any region, whatever is in it; any headers free of structure characters and any payload
      free of the terminator that fit; any number of headers read before the payload; and whatever stands
      behind the message when it is read. */
  lemma RoundTrip(b: Buffer, headers: seq<string>, payload: string, k: nat, tail: string, beyond: char)
    requires InBounds(b) && b.mapped && !b.headersDone && !b.done && b.pos == 0 && headers != [] && payload != ""
    requires (forall h <- headers :: Plain(h)) && MEMORY_FINALIZER !in payload && k <= |Seen(b.started, headers)|
    requires |Encode(Seen(b.started, headers), payload)| + |tail| == |b.bytes|
    ensures AddHeaders(b, headers).1 && SetPayload(AddHeaders(b, headers).0, payload).1
    ensures var text := Encode(Seen(b.started, headers), payload);
            SetPayload(AddHeaders(b, headers).0, payload).0.bytes == text + b.bytes[|text|..]
    ensures var seen := Seen(b.started, headers);
            var (r, got) := ReadHeaders(View(Encode(seen, payload) + tail, beyond), k);
            && got == Gots(seen[..k])
            && GetPayload(r).1 == Got(payload)
            && (k == |seen| ==> GetHeader(r).1 == Nothing)
  {
    hide SetPayload, AddHeaders, Joined, GetHeader, GetPayload, Plain, ReadHeaders, Encode;
    WriteEncodes(b, headers, payload);
    SeenLine(b.started, headers);
    var text := Encode(Seen(b.started, headers), payload);
    assert (text + tail)[0..] == text + tail;
    ReadBack(View(text + tail, beyond), Seen(b.started, headers), payload, k);
  }
}
