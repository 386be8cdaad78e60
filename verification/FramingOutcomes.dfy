/** What each call on a view does, on every state of the view and every content of the memory. */
module FramingOutcomes {
  import opened Framing
  import opened FramingLaws

  // ---------- writing ----------

  /** A writing view that still takes headers. */
  predicate Open(b: Buffer) {
    b.mapped && !b.headersDone && !b.done
  }

  /** The region with as much of the text as fits from a position on. */
  function Overlay(bytes: string, pos: nat, text: string): (r: string)
    requires pos <= |bytes|
    ensures |r| == |bytes|
    ensures forall i | 0 <= i < |bytes| ::
              r[i] == if pos <= i < pos + |text| then text[i - pos] else bytes[i]
  {
    var n := Min(|text|, |bytes| - pos);
    bytes[..pos] + text[..n] + bytes[pos + n..]
  }

  lemma AdvancedEffect(b: Buffer, text: string)
    requires InBounds(b) && b.mapped
    ensures var b' := Advanced(b, text);
            && b' == b.(bytes := Overlay(b.bytes, b.pos, if b.pos < |b.bytes| then text else ""), pos := b'.pos)
            && b'.pos == (if b.pos == |b.bytes| then b.pos - 1 else Min(b.pos + |text|, |b.bytes|))
            && InBounds(b')
    ensures WriteLen(b, b.pos, |text|) <= 0 <==> b.pos < |b.bytes| && text == ""
  {
    assert b.pos == |b.bytes| ==> b.bytes == Overlay(b.bytes, b.pos, "");
  }

  /** Laying texts one behind the other. */
  lemma OverlayMore(b: Buffer, first: string, second: string)
    requires b.pos + |first| <= |b.bytes|
    ensures var both := Overlay(Overlay(b.bytes, b.pos, first), b.pos + |first|, second);
            var end := Min(b.pos + |first| + |second|, |b.bytes|);
            && both == Overlay(b.bytes, b.pos, first + second)
            && Overlay(both, end, [MEMORY_FINALIZER]) == Overlay(b.bytes, b.pos, first + second + [MEMORY_FINALIZER])
  {
  }

  /** A header is taken if and only if the view is open and all of it fits, behind a tab if it is not the first; a part
      of it is written all the same. At the end of the region the position goes back by one. */
  lemma HeaderOutcome(b: Buffer, header: string)
    requires InBounds(b) && |header| < SIZE_ERROR
    ensures var (b', ok) := AddHeader(b, header);
            var text := (if b.started then [HEADER_DELIMITER] else "") + header;
            var start := if b.started then b.pos + 1 else b.pos;
            && (ok <==> Open(b) && start < |b.bytes| && start + |header| <= |b.bytes|)
            && (!Open(b) || (b.started && b.pos == |b.bytes|) ==> b' == b)
            && (Open(b) && !(b.started && b.pos == |b.bytes|) ==>
                  && b'.bytes == Overlay(b.bytes, b.pos, text)
                  && b' == b.(bytes := b'.bytes, started := true, pos := b'.pos)
                  && b'.pos == if start == |b.bytes| then start - 1 else Min(b.pos + |text|, |b.bytes|))
  {
    hide Overlay, Advanced, WriteLen;
    if Open(b) && !(b.started && b.pos == |b.bytes|) {
      var b1 := if b.started then Added(b, HEADER_DELIMITER) else b;
      HeaderStart(b);
      AdvancedEffect(b1, header);
      HeaderFits(b1, header);
      OverlayMore(b, if b.started then [HEADER_DELIMITER] else "", header);
      OverlayNothing(b1);
    }
  }

  lemma HeaderStart(b: Buffer)
    requires InBounds(b) && Open(b) && (b.started ==> b.pos < |b.bytes|)
    ensures var text := if b.started then [HEADER_DELIMITER] else "";
            var b1 := if b.started then Added(b, HEADER_DELIMITER) else b;
            b1 == b.(bytes := Overlay(b.bytes, b.pos, text), pos := b.pos + |text|) && InBounds(b1)
  {
    assert b.bytes == Overlay(b.bytes, b.pos, "");
    if b.started {
      assert b.bytes[b.pos := HEADER_DELIMITER] == Overlay(b.bytes, b.pos, [HEADER_DELIMITER]);
    }
  }

  lemma HeaderFits(b: Buffer, header: string)
    requires InBounds(b) && b.mapped && |header| < SIZE_ERROR
    ensures WriteLen(b, b.pos, |header|) == |header| <==> b.pos < |b.bytes| && b.pos + |header| <= |b.bytes|
  {
  }

  lemma OverlayNothing(b: Buffer)
    requires b.pos <= |b.bytes|
    ensures forall text | b.pos == |b.bytes| :: Overlay(b.bytes, b.pos, text) == b.bytes
  {
  }

  /** Resetting a view starts over with the message, but not with the headers: if one was taken before, the next is put
      behind a tab, at the very beginning. */
  lemma HeaderAfterReset(b: Buffer, header: string)
    requires InBounds(b) && b.mapped && |header| < SIZE_ERROR
    ensures AddHeader(Reset(b), header).0.bytes ==
            Overlay(b.bytes, 0, (if b.started then [HEADER_DELIMITER] else "") + header)
  {
    hide AddHeader, Overlay;
    HeaderOutcome(Reset(b), header);
  }

  /** The headers can be closed if and only if they are, or there is room for the newline. */
  lemma CloseOutcome(b: Buffer)
    requires InBounds(b)
    ensures var (b', ok) := FinalizeHeader(b);
            && (ok <==> b.headersDone || (b.mapped && !b.done && b.pos < |b.bytes|))
            && (ok && !b.headersDone ==>
                  b' == b.(bytes := Overlay(b.bytes, b.pos, [MEMORY_DELIMITER]), pos := b.pos + 1, headersDone := true))
            && (!ok || b.headersDone ==> b' == b)
  {
    if !b.headersDone && b.mapped && b.pos < |b.bytes| {
      assert b.bytes[b.pos := MEMORY_DELIMITER] == Overlay(b.bytes, b.pos, [MEMORY_DELIMITER]);
    }
  }

  /** The message can be finished if and only if it is, or there is room for what is missing. */
  lemma FinishOutcome(b: Buffer)
    requires InBounds(b)
    ensures var (b', ok) := FinalizePayload(b);
            var missing := (if b.headersDone then "" else [MEMORY_DELIMITER]) + [MEMORY_FINALIZER];
            && (ok <==> b.mapped && (b.done || b.pos + |missing| <= |b.bytes|))
            && (b.mapped && !b.done ==>
                  b' == b.(bytes := Overlay(b.bytes, b.pos, missing), pos := Min(b.pos + |missing|, |b.bytes|),
                           headersDone := b.headersDone || b.pos < |b.bytes|, done := ok))
            && (!b.mapped || b.done ==> b' == b)
  {
    var b' := FinalizePayload(b).0;
    var missing := (if b.headersDone then "" else [MEMORY_DELIMITER]) + [MEMORY_FINALIZER];
    if b.mapped && !b.done {
      assert b'.bytes == Overlay(b.bytes, b.pos, missing);
    }
  }

  predicate PayloadFits(b: Buffer, start: nat, payload: string) {
    payload != "" && start + |payload| + 1 <= |b.bytes|
  }

  /** A payload is accepted if and only if the view is mapped and unfinished and it fits with the terminator, and is not
      empty; or if the position is at the end of the region once the headers are closed. */
  lemma PayloadOutcome(b: Buffer, payload: string)
    requires InBounds(b)
    ensures var (b', ok) := SetPayload(b, payload);
            var start := if b.headersDone then b.pos else b.pos + 1;
            && (ok <==> b.mapped && !b.done && (PayloadFits(b, start, payload) || start == |b.bytes|))
            && (ok ==> b'.headersDone && b'.done)
            && (b.done ==> b' == b)
  {
  }

  /** What is left of a payload that is accepted or not: the newline, the payload and the terminator as far as they fit,
      nothing but the newline of an empty one, and the terminator alone, on the last byte, of any payload that meets the
      end of the region. */
  lemma PayloadEffect(b: Buffer, payload: string)
    requires InBounds(b) && b.mapped && !b.done && (b.headersDone || b.pos < |b.bytes|)
    ensures var (b', ok) := SetPayload(b, payload);
            var newline := if b.headersDone then "" else [MEMORY_DELIMITER];
            var text := newline + payload + (if payload == "" then "" else [MEMORY_FINALIZER]);
            && b' == b.(bytes := b'.bytes, pos := b'.pos, headersDone := true, done := ok)
            && (b.pos + |newline| < |b.bytes| ==>
                  b'.bytes == Overlay(b.bytes, b.pos, text) && b'.pos == Min(b.pos + |text|, |b.bytes|))
            && (b.pos + |newline| == |b.bytes| ==>
                  b'.bytes == b.bytes[|b.bytes| - 1 := MEMORY_FINALIZER] && b'.pos == |b.bytes|)
  {
    hide FinalizeHeader, FinalizePayload, Overlay;
    CloseOutcome(b);
    var b1 := FinalizeHeader(b).0;
    AdvancedEffect(b1, payload);
    var b2 := Advanced(b1, payload);
    FinishOutcome(b2);
    OverlayMore(b, if b.headersDone then "" else [MEMORY_DELIMITER], payload);
  }

  // ---------- reading ----------

  /** What a reading view has in front of it. */
  function Ahead(b: Buffer): string
    requires b.pos <= |b.bytes|
  {
    b.bytes[b.pos..]
  }

  /** The next header: plain text up to a tab or a newline. */
  predicate HeaderAhead(b: Buffer, text: string)
    requires b.pos <= |b.bytes|
  {
    && Plain(text) && |text| < |Ahead(b)| && text <= Ahead(b)
    && (Ahead(b)[|text|] == HEADER_DELIMITER || Ahead(b)[|text|] == MEMORY_DELIMITER)
  }

  const DELIMITERS: string := [HEADER_DELIMITER, MEMORY_DELIMITER, MEMORY_FINALIZER]

  lemma FirstDelimiter(b: Buffer)
    requires b.pos <= |b.bytes|
    ensures var end := Find(b.bytes, b.pos, DELIMITERS);
            Plain(b.bytes[b.pos..end]) && (end < |b.bytes| ==> b.bytes[end] in DELIMITERS)
  {
    var end := Find(b.bytes, b.pos, DELIMITERS);
    assert forall i | b.pos <= i < end :: b.bytes[i] == b.bytes[b.pos..end][i - b.pos];
  }

  lemma DelimiterAt(b: Buffer, text: string)
    requires b.pos <= |b.bytes| && Plain(text) && |text| < |Ahead(b)| && text <= Ahead(b)
    requires Ahead(b)[|text|] in DELIMITERS
    ensures Find(b.bytes, b.pos, DELIMITERS) == b.pos + |text|
  {
    FindAt(b.bytes, b.pos, text, b.bytes[b.pos + |text|], DELIMITERS);
  }

  /** A header is read if and only if the view is open and there is one ahead. The position moves behind its delimiter,
      and a newline closes the headers. */
  lemma HeaderReadOutcome(b: Buffer, text: string)
    requires InBounds(b)
    ensures var (b', header) := GetHeader(b);
            && (header == Got(text) <==> Open(b) && HeaderAhead(b, text))
            && (header == Got(text) ==>
                  b' == b.(pos := b.pos + |text| + 1, headersDone := Ahead(b)[|text|] == MEMORY_DELIMITER))
            && (header == Crash <==> Open(b) && Ahead(b) == "")
  {
    hide Plain, Find;
    if Open(b) && b.pos < |b.bytes| {
      FirstDelimiter(b);
      if HeaderAhead(b, text) {
        DelimiterAt(b, text);
      }
    }
  }

  /** Where a terminator comes before any delimiter there is no header any more, and the view is finished behind the
      terminator; where nothing comes the view stays as it is. */
  lemma NoHeaderOutcome(b: Buffer, text: string)
    requires InBounds(b) && Open(b) && Plain(text)
    ensures text + [MEMORY_FINALIZER] <= Ahead(b) ==>
              GetHeader(b) == (b.(pos := b.pos + |text| + 1, headersDone := true, done := true), Nothing)
    ensures text == Ahead(b) != "" ==> GetHeader(b) == (b, Nothing)
  {
    hide Plain, Find;
    if text + [MEMORY_FINALIZER] <= Ahead(b) {
      assert Ahead(b)[|text|] == MEMORY_FINALIZER;
      DelimiterAt(b, text);
    } else if text == Ahead(b) != "" {
      NoDelimiter(b);
    }
  }

  lemma NoDelimiter(b: Buffer)
    requires b.pos <= |b.bytes| && Plain(Ahead(b))
    ensures Find(b.bytes, b.pos, DELIMITERS) == |b.bytes|
  {
    assert forall i | b.pos <= i < |b.bytes| :: b.bytes[i] == Ahead(b)[i - b.pos];
  }

  /** The payload: behind the headers, text up to a terminator, for which the byte past the region will do. head is what
      is left of the headers. */
  predicate PayloadAhead(b: Buffer, head: string, text: string)
    requires b.pos <= |b.bytes|
  {
    && (if b.headersDone then head == "" else HeadersEnd(head))
    && head < Ahead(b)
    && MEMORY_FINALIZER !in text && text + [MEMORY_FINALIZER] <= Ahead(b)[|head|..] + [b.beyond]
  }

  /** The last character is a newline, and the only one. */
  predicate HeadersEnd(head: string) {
    && head != "" && head[|head| - 1] == MEMORY_DELIMITER && MEMORY_DELIMITER !in head[..|head| - 1]
  }

  /** A payload is read if and only if the view is mapped and unfinished and there is one ahead. Then the view is
      finished and stands at the terminator; otherwise it stands behind the headers, if they end. */
  lemma PayloadReadOutcome(b: Buffer, text: string)
    requires InBounds(b)
    ensures var (b', payload) := GetPayload(b);
            && (payload == Got(text) <==> b.mapped && !b.done && exists head :: PayloadAhead(b, head, text))
            && (payload.Got? ==> b'.headersDone && b'.done && b'.bytes == b.bytes && b'.mapped)
            && (forall head | b.mapped && !b.done && PayloadAhead(b, head, text) :: b'.pos == b.pos + |head| + |text|)
            && (!payload.Got? ==> b' == if b.done then b else SkipHeaders(b).0)
  {
    hide GetPayload, PayloadAhead;
    if exists head :: b.mapped && !b.done && PayloadAhead(b, head, text) {
      forall head | PayloadAhead(b, head, text)
        ensures GetPayload(b) == (b.(pos := b.pos + |head| + |text|, headersDone := true, done := true), Got(text))
      {
        PayloadFound(b, head, text);
      }
    } else if GetPayload(b).1 == Got(text) {
      var head := PayloadThere(b, text);
    }
    GotFinishes(b);
  }

  lemma GotFinishes(b: Buffer)
    ensures var (b', payload) := GetPayload(b);
            && (payload.Got? ==> b'.headersDone && b'.done && b'.bytes == b.bytes && b'.mapped)
            && (!payload.Got? ==> b' == if b.done then b else SkipHeaders(b).0)
  {
  }

  lemma HeadersSkipped(b: Buffer, head: string)
    requires InBounds(b) && Open(b) && HeadersEnd(head) && head <= Ahead(b)
    ensures SkipHeaders(b) == (b.(pos := b.pos + |head|, headersDone := true), true)
  {
    var line := head[..|head| - 1];
    assert Ahead(b)[..|head|] == head;
    FindAt(b.bytes, b.pos, line, MEMORY_DELIMITER, [MEMORY_DELIMITER]);
  }

  lemma PayloadFound(b: Buffer, head: string, text: string)
    requires InBounds(b) && b.mapped && !b.done && PayloadAhead(b, head, text)
    ensures GetPayload(b) == (b.(pos := b.pos + |head| + |text|, headersDone := true, done := true), Got(text))
  {
    hide Find, HeadersEnd;
    var b1 := b.(pos := b.pos + |head|, headersDone := true);
    if !b.headersDone {
      HeadersSkipped(b, head);
    }
    assert SkipHeaders(b) == (b1, true);
    assert Ahead(b1) == Ahead(b)[|head|..];
    TerminatorAt(b1, text);
  }

  lemma TerminatorAt(b: Buffer, text: string)
    requires b.pos < |b.bytes| && MEMORY_FINALIZER !in text && text + [MEMORY_FINALIZER] <= Ahead(b) + [b.beyond]
    ensures Find(b.bytes, b.pos, [MEMORY_FINALIZER]) == b.pos + |text| && text == b.bytes[b.pos..b.pos + |text|]
    ensures b.pos + |text| < |b.bytes| || b.beyond == MEMORY_FINALIZER
  {
    var whole := Ahead(b) + [b.beyond];
    assert whole[..|text|] == text && whole[|text|] == MEMORY_FINALIZER;
    assert b.bytes[b.pos..b.pos + |text|] == text;
    assert forall i | b.pos <= i < b.pos + |text| :: b.bytes[i] == text[i - b.pos];
  }

  lemma HeadOf(b: Buffer) returns (head: string)
    requires b.pos <= |b.bytes| && SkipHeaders(b).1 && !b.done && b.mapped
    ensures head <= Ahead(b) && (if b.headersDone then head == "" else HeadersEnd(head))
    ensures SkipHeaders(b).0 == b.(pos := b.pos + |head|, headersDone := true)
  {
    if b.headersDone {
      head := "";
    } else {
      var end := Find(b.bytes, b.pos, [MEMORY_DELIMITER]);
      head := b.bytes[b.pos..end + 1];
      assert forall i | b.pos <= i < end :: b.bytes[i] == head[..|head| - 1][i - b.pos];
    }
  }

  lemma TextThere(b: Buffer, text: string)
    requires b.pos < |b.bytes| && b.mapped && !b.done && b.headersDone && GetPayload(b).1 == Got(text)
    ensures MEMORY_FINALIZER !in text && text + [MEMORY_FINALIZER] <= Ahead(b) + [b.beyond]
  {
    var end := Find(b.bytes, b.pos, [MEMORY_FINALIZER]);
    assert forall i | b.pos <= i < end :: b.bytes[i] == text[i - b.pos];
    assert (Ahead(b) + [b.beyond])[end - b.pos] == MEMORY_FINALIZER;
  }

  lemma PayloadThere(b: Buffer, text: string) returns (head: string)
    requires InBounds(b) && GetPayload(b).1 == Got(text)
    ensures b.mapped && !b.done && PayloadAhead(b, head, text)
  {
    hide Find, HeadersEnd;
    head := HeadOf(b);
    var b1 := SkipHeaders(b).0;
    TextThere(b1, text);
    assert Ahead(b1) == Ahead(b)[|head|..];
  }

  /** Skipping the headers works if and only if they are closed or a newline is ahead, and leads behind it. */
  lemma SkipOutcome(b: Buffer)
    requires InBounds(b)
    ensures var (b', ok) := SkipHeaders(b);
            && (ok <==> b.headersDone || (Open(b) && MEMORY_DELIMITER in Ahead(b)))
            && (ok && !b.headersDone ==> exists head :: HeadersEnd(head) && head <= Ahead(b)
                                           && b' == b.(pos := b.pos + |head|, headersDone := true))
            && (!ok || b.headersDone ==> b' == b)
  {
    hide HeadersEnd;
    if Open(b) && b.pos < |b.bytes| {
      var end := Find(b.bytes, b.pos, [MEMORY_DELIMITER]);
      if SkipHeaders(b).1 {
        assert Ahead(b)[end - b.pos] == MEMORY_DELIMITER;
        var head := HeadOf(b);
      } else {
        assert forall i | 0 <= i < |Ahead(b)| :: Ahead(b)[i] == b.bytes[b.pos + i];
      }
    }
  }

  /** Skipping the payload works if and only if there is a byte left of it, or it has been read. */
  lemma SkipPayloadOutcome(b: Buffer)
    requires InBounds(b)
    ensures var (b', ok) := SkipPayload(b);
            && (ok <==> b.mapped && (b.done || Ahead(b) != ""))
            && (!b.mapped || b.done ==> b' == b)
            && (b.mapped && !b.done ==> b' == b.(pos := |b.bytes|, headersDone := true, done := ok))
  {
  }
}
