/** The bounded line stream over a stored object. */
module ObjectLines {
  import opened Common
  import opened ObjectStreams

  const READ: nat := 65_536

  /** Position of the first newline. */
  function FindNewline(s: Bytes): (r: Option<nat>)
    ensures r.Some? ==> r.value < |s| && s[r.value] == NEWLINE && forall i :: 0 <= i < r.value ==> s[i] != NEWLINE
    ensures r.None? ==> forall i :: 0 <= i < |s| ==> s[i] != NEWLINE
  {
    if s == [] then None
    else if s[0] == NEWLINE then Some(0)
    else
      match FindNewline(s[1..])
      case None => None
      case Some(k) => Some(k + 1)
  }

  /** A line keeps its newline, which is then its only one. */
  ghost predicate Terminated(line: Bytes) {
    line != [] && line[|line| - 1] == NEWLINE && forall i :: 0 <= i < |line| - 1 ==> line[i] != NEWLINE
  }

  ghost predicate Unterminated(line: Bytes) { line != [] && forall i :: 0 <= i < |line| ==> line[i] != NEWLINE }

  /** The newline split of a whole object. */
  function Lines(s: Bytes): (r: seq<Bytes>)
    decreases |s|
  {
    if s == [] then []
    else
      match FindNewline(s)
      case None => [s]
      case Some(k) => [s[..k + 1]] + Lines(s[k + 1..])
  }

  function Join(lines: seq<Bytes>): Bytes {
    if lines == [] then [] else lines[0] + Join(lines[1..])
  }

  /** Every line but the last ends with its only newline; the last may lack it. */
  ghost predicate WellSplit(lines: seq<Bytes>) {
    forall i :: 0 <= i < |lines| ==> Terminated(lines[i]) || (i == |lines| - 1 && Unterminated(lines[i]))
  }

  lemma {:induction false} LinesJoin(s: Bytes)
    ensures Join(Lines(s)) == s
    decreases |s|
  {
    var r := Lines(s);
    if s != [] && FindNewline(s).Some? {
      var k := FindNewline(s).value;
      LinesJoin(s[k + 1..]);
      assert r[1..] == Lines(s[k + 1..]);
      assert s == s[..k + 1] + s[k + 1..];
    } else if s != [] {
      assert r[1..] == [];
    }
  }

  lemma {:induction false} LinesWellSplit(s: Bytes)
    ensures WellSplit(Lines(s))
    decreases |s|
  {
    var r := Lines(s);
    if s != [] && FindNewline(s).Some? {
      var k := FindNewline(s).value;
      LinesWellSplit(s[k + 1..]);
      assert r[1..] == Lines(s[k + 1..]);
      assert Terminated(r[0]);
      forall i | 0 <= i < |r| ensures Terminated(r[i]) || (i == |r| - 1 && Unterminated(r[i])) {
        assert i > 0 ==> r[i] == r[1..][i - 1];
      }
    }
  }

  /** The split loses nothing, and every line is well formed. */
  lemma SplitIsFaithful(s: Bytes)
    ensures Join(Lines(s)) == s && WellSplit(Lines(s))
  {
    LinesJoin(s);
    LinesWellSplit(s);
  }

  /** Taking one terminated line off the front. */
  lemma LinesStep(line: Bytes, rest: Bytes)
    requires Terminated(line)
    ensures Lines(line + rest) == [line] + Lines(rest)
  {
    var s := line + rest;
    var k := FindNewline(s).value;
    assert s[|line| - 1] == NEWLINE;
    assert forall i :: 0 <= i < |line| - 1 ==> s[i] != NEWLINE;
    assert k == |line| - 1;
    assert s[..k + 1] == line && s[k + 1..] == rest;
  }

  /** The split is the only way to cut an object into well-formed lines. */
  lemma {:induction false} SplitIsUnique(lines: seq<Bytes>)
    requires WellSplit(lines)
    ensures Lines(Join(lines)) == lines
  {
    if lines != [] {
      var rest := lines[1..];
      assert forall i :: 0 <= i < |rest| ==> rest[i] == lines[i + 1];
      SplitIsUnique(rest);
      if Terminated(lines[0]) {
        LinesStep(lines[0], Join(rest));
        assert lines == [lines[0]] + rest;
      } else {
        assert rest == [];
        assert Join(lines) == lines[0];
      }
    }
  }

  lemma LongLine(pending: Bytes, rest: Bytes, k: nat)
    requires |pending| > k && forall i :: 0 <= i < k ==> pending[i] != NEWLINE
    ensures Lines(pending + rest) != [] && |Lines(pending + rest)[0]| > k
  {
    var s := pending + rest;
    assert forall i :: 0 <= i < k ==> s[i] == pending[i];
  }

  /** Bytes without a newline are one last line, or none. */
  lemma LastLine(pending: Bytes)
    requires forall i :: 0 <= i < |pending| ==> pending[i] != NEWLINE
    ensures Lines(pending) == if pending == [] then [] else [pending]
  {}

  datatype Metadata = Metadata(size: nat, checksum: Bytes)

  datatype Ending =
    | Complete
    | AdmissionRefused
    | TimedOut
    | ReadFailed
    | ByteLimit
    | LineLimit
    | IntegrityFailed
    | Abandoned

  predicate Admitted(expected: Metadata, maxBytes: int, maxLine: int) {
    maxBytes >= 0 && maxLine >= 1 && expected.size <= maxBytes
  }

  ghost predicate WithinLimit(lines: seq<Bytes>, maxLine: int) {
    forall i :: 0 <= i < |lines| ==> |lines[i]| <= maxLine
  }

  /** The objects a stream accepts. */
  ghost predicate Acceptable(hash: Bytes -> Bytes, content: Bytes, expected: Metadata, maxLine: int) {
    |content| == expected.size && hash(content) == expected.checksum
    && WithinLimit(Lines(content), maxLine)
  }

  /** Endings that the clock, the network or the consumer can force on any object. */
  predicate FromOutside(e: Ending) { e == TimedOut || e == ReadFailed || e == Abandoned }

  /** `diagnostic_stream_lines`, drained by a consumer that may stop early. Whatever the splits: the
      lines handed out are always the first ones of the newline split, all of them on completion; the
      stream completes exactly for acceptable objects unless it is stopped from outside; it reports a
      failed read exactly when there was one; and it makes no more than `max_bytes + 1` non-empty reads. */
  method StreamLines(body: ByteStream, hash: Bytes -> Bytes, expected: Metadata, maxBytes: int, maxLine: int)
    returns (lines: seq<Bytes>, ending: Ending, count: nat)
    requires body.Valid()
    modifies body`position, body`failures
    ensures body.Valid()
    ensures ending == ReadFailed <==> body.failures > old(body.failures)
    ensures ending == AdmissionRefused <==> !Admitted(expected, maxBytes, maxLine)
    ensures lines <= Lines(old(body.Rest()))
    ensures ending == Complete ==> lines == Lines(old(body.Rest()))
    ensures Admitted(expected, maxBytes, maxLine) && !FromOutside(ending) ==>
              (ending == Complete <==> Acceptable(hash, old(body.Rest()), expected, maxLine))
    ensures Admitted(expected, maxBytes, maxLine) ==> count <= maxBytes + 1
    ensures !Admitted(expected, maxBytes, maxLine) ==> count == 0 && lines == []
  {
    hide Lines, FindNewline;
    lines, count := [], 0;
    if maxBytes < 0 || maxLine < 1 || expected.size > maxBytes {
      return lines, AdmissionRefused, count;
    }
    ghost var content := body.Rest();
    var digest: Bytes := [];
    var size: nat := 0;
    var pending: Bytes := [];
    while true
      invariant body.Valid() && size <= expected.size && count <= size && body.failures == old(body.failures)
      invariant content == digest + body.Rest() && |digest| == size
      invariant forall i :: 0 <= i < |pending| ==> pending[i] != NEWLINE
      invariant Lines(content) == lines + Lines(pending + body.Rest()) && WithinLimit(lines, maxLine)
      decreases |body.Rest()|
    {
      if * {
        return lines, TimedOut, count;
      }
      var limit := if READ <= maxBytes - size + 1 then READ else maxBytes - size + 1;
      var chunk := body.Read(limit);
      if chunk.None? {
        return lines, ReadFailed, count;
      }
      if chunk.value == [] {
        break;
      }
      count := count + 1;
      size := size + |chunk.value|;
      assert content == (digest + chunk.value) + body.Rest();
      if size > maxBytes || size > expected.size {
        return lines, ByteLimit, count;
      }
      digest := digest + chunk.value;
      assert pending + (chunk.value + body.Rest()) == (pending + chunk.value) + body.Rest();
      pending := pending + chunk.value;
      var stopped;
      lines, pending, stopped := CutLines(body, content, lines, pending, maxLine);
      if stopped.Some? {
        return lines, stopped.value, count;
      }
    }
    assert body.Rest() == [] && pending + body.Rest() == pending && digest == content;
    LastLine(pending);
    if pending != [] {
      if |pending| > maxLine {
        LongLine(pending, [], maxLine);
        TooLong(content, lines, pending, maxLine);
        return lines, LineLimit, count;
      }
      lines := lines + [pending];
    }
    if size != expected.size || hash(digest) != expected.checksum {
      return lines, IntegrityFailed, count;
    }
    return lines, Complete, count;
  }

  lemma TooLong(content: Bytes, lines: seq<Bytes>, rest: Bytes, maxLine: int)
    requires Lines(content) == lines + Lines(rest) && Lines(rest) != [] && |Lines(rest)[0]| > maxLine
    ensures !WithinLimit(Lines(content), maxLine)
  {
    assert Lines(content)[|lines|] == Lines(rest)[0];
  }

  /** The first line of the pending bytes is the first line of whatever is left. */
  lemma FirstLine(done: seq<Bytes>, pending: Bytes, unread: Bytes, k: nat)
    requires k < |pending| && pending[k] == NEWLINE && forall i :: 0 <= i < k ==> pending[i] != NEWLINE
    ensures done + Lines(pending + unread) == (done + [pending[..k + 1]]) + Lines(pending[k + 1..] + unread)
  {
    hide Lines;
    var line := pending[..k + 1];
    var rest := pending[k + 1..];
    assert pending + unread == line + (rest + unread);
    LinesStep(line, rest + unread);
    assert done + ([line] + Lines(rest + unread)) == (done + [line]) + Lines(rest + unread);
  }

  lemma AddWithinLimit(lines: seq<Bytes>, line: Bytes, maxLine: int)
    requires WithinLimit(lines, maxLine) && |line| <= maxLine
    ensures WithinLimit(lines + [line], maxLine)
  {}

  /** The inner loop: hands out every line that is complete in the pending bytes. */
  method CutLines(body: ByteStream, ghost content: Bytes, done: seq<Bytes>, unread: Bytes, maxLine: int)
    returns (lines: seq<Bytes>, pending: Bytes, stopped: Option<Ending>)
    requires body.Valid() && maxLine >= 1
    requires Lines(content) == done + Lines(unread + body.Rest()) && WithinLimit(done, maxLine)
    ensures WithinLimit(lines, maxLine)
    ensures Lines(content) == lines + Lines(pending + body.Rest())
    ensures stopped.None? ==> forall i :: 0 <= i < |pending| ==> pending[i] != NEWLINE
    ensures stopped.Some? ==> stopped.value == LineLimit || stopped.value == TimedOut || stopped.value == Abandoned
    ensures stopped == Some(LineLimit) ==> !WithinLimit(Lines(content), maxLine)
  {
    hide Lines, FindNewline, WithinLimit;
    lines, pending := done, unread;
    while true
      invariant Lines(content) == lines + Lines(pending + body.Rest()) && WithinLimit(lines, maxLine)
      decreases |pending|
    {
      var newline := FindNewline(pending);
      if newline.None? {
        if |pending| > maxLine {
          LongLine(pending, body.Rest(), maxLine);
          TooLong(content, lines, pending + body.Rest(), maxLine);
          return lines, pending, Some(LineLimit);
        }
        return lines, pending, None;
      }
      if newline.value + 1 > maxLine {
        LongLine(pending, body.Rest(), newline.value);
        TooLong(content, lines, pending + body.Rest(), maxLine);
        return lines, pending, Some(LineLimit);
      }
      if * {
        return lines, pending, Some(TimedOut);
      }
      FirstLine(lines, pending, body.Rest(), newline.value);
      AddWithinLimit(lines, pending[..newline.value + 1], maxLine);
      lines := lines + [pending[..newline.value + 1]];
      pending := pending[newline.value + 1..];
      if * {
        return lines, pending, Some(Abandoned);
      }
    }
  }
}
