/**
 * What the protocol client guarantees, stated over the specification
 * functions of module Protocol.
 */
module Properties {
  import opened Basics
  import opened MpdTypes
  import opened Protocol

  /**
   * The greeting is accepted exactly when the bytes the server sent begin
   * with "OK MPD": the zero padding of a short read never matches.
   */
  lemma HandshakeAcceptsExactly(greeting: Option<seq<byte>>)
    ensures Handshake(greeting).Ok? <==> greeting.Some? && StartsWith(greeting.value, OK_MPD)
    ensures Handshake(greeting).Err? ==>
      Handshake(greeting).error == (if greeting.None? then GreetingUnreadable else NotMpd)
  {
    if greeting.Some? {
      var offered := greeting.value;
      var buf := GreetingBuffer(offered);
      if |offered| >= |OK_MPD| {
        assert buf[..|OK_MPD|] == offered[..|OK_MPD|];
      } else {
        var n := |offered|;
        assert buf[n] == 0;
        assert OK_MPD[n] != 0;
        assert buf[..|OK_MPD|][n] != OK_MPD[n];
      }
    }
  }

  /**
   * Framing returns the lines read before the first sentinel line, failed
   * reads skipped, and consumes the sentinel; when there is none it returns
   * every line that remains and consumes all of the input.
   */
  lemma {:induction false} FrameUpToSentinel(input: seq<Incoming>, k: nat)
    requires k <= |input| && NoSentinel(input[..k])
    requires k < |input| ==> IsSentinel(input[k])
    ensures Frame(input).body == Received(input[..k])
    ensures Frame(input).consumed == if k < |input| then k + 1 else k
  {
    if k > 0 {
      assert input[..k][0] == input[0];
      assert input[..k][1..] == input[1..][..k - 1];
      FrameUpToSentinel(input[1..], k - 1);
    }
  }

  /**
   * The sentinel line never appears in a framed body, and framing stops
   * early only right after reading it.
   */
  lemma {:induction false} FrameExcludesSentinel(input: seq<Incoming>)
    ensures forall i :: 0 <= i < |Frame(input).body| ==> Frame(input).body[i] != SENTINEL
    ensures Frame(input).consumed < |input| ==>
      0 < Frame(input).consumed && IsSentinel(input[Frame(input).consumed - 1])
    decreases |input|
  {
    if input != [] {
      FrameExcludesSentinel(input[1..]);
    }
  }

  /** No body line carries a line feed. */
  lemma {:induction false} FrameBodyHasNoLineFeed(input: seq<Incoming>)
    ensures forall i :: 0 <= i < |Frame(input).body| ==> '\n' !in Frame(input).body[i]
    decreases |input|
  {
    if input != [] {
      FrameBodyHasNoLineFeed(input[1..]);
    }
  }

  /** A write failure ends every command before anything is read or written. */
  lemma WriteFailureReadsNothing(d: Duplex, command: string)
    requires d.writeBroken
    ensures FirstAndBody(d, command) == Step(Err(FailedWrite), d)
    ensures BodyAfterFirst(d, command) == Step(Err(FailedWrite), d)
    ensures FirstOnly(d, command) == Step(Err(FailedWrite), d)
  {
  }

  /** A failed read of the first reply line fails every command, after one read. */
  lemma FirstReadFailure(d: Duplex, command: string)
    requires !d.writeBroken && d.incoming != [] && d.incoming[0].ReadFailed?
    ensures var after := Duplex(d.incoming[1..], d.written + command, false);
      && FirstAndBody(d, command) == Step(Err(FailedCommand), after)
      && BodyAfterFirst(d, command) == Step(Err(FailedCommand), after)
      && FirstOnly(d, command) == Step(Err(FailedCommand), after)
  {
  }

  /** An `ACK [` first line fails every command, and no further line is read. */
  lemma AckRejected(d: Duplex, command: string)
    requires !d.writeBroken && d.incoming != [] && d.incoming[0].Line?
    requires StartsWith(Raw(d.incoming[0]), ACK_PREFIX)
    ensures var after := Duplex(d.incoming[1..], d.written + command, false);
      && FirstAndBody(d, command) == Step(Err(FailedCommand), after)
      && BodyAfterFirst(d, command) == Step(Err(FailedCommand), after)
      && FirstOnly(d, command) == Step(Err(FailedCommand), after)
  {
  }

  /** Commands that return a listing fail only when the exchange of the first line fails. */
  lemma FailureOnlyFromFirstLine(d: Duplex, command: string)
    ensures FirstAndBody(d, command).result.Err? <==> Exchange(d, command).result.Err?
    ensures BodyAfterFirst(d, command).result.Err? <==> Exchange(d, command).result.Err?
    ensures Exchange(d, command).result.Err? ==>
      && FirstAndBody(d, command) == Step(Err(Exchange(d, command).result.error), Exchange(d, command).after)
      && BodyAfterFirst(d, command) == FirstAndBody(d, command)
  {
  }

  /**
   * A successful listing is the first reply line followed by the lines after
   * it up to, not including, the next sentinel line; the command is written.
   */
  lemma {:induction false} FirstAndBodyOnSuccess(d: Duplex, command: string, k: nat)
    requires Exchange(d, command).result.Ok?
    requires var rest := Exchange(d, command).after.incoming;
      k <= |rest| && NoSentinel(rest[..k]) && (k < |rest| ==> IsSentinel(rest[k]))
    ensures var rest := Exchange(d, command).after.incoming;
      && FirstAndBody(d, command).result == Ok([Exchange(d, command).result.value] + Received(rest[..k]))
      && FirstAndBody(d, command).after.incoming == rest[if k < |rest| then k + 1 else k..]
      && FirstAndBody(d, command).after.written == d.written + command
  {
    FrameUpToSentinel(Exchange(d, command).after.incoming, k);
  }

  /**
   * A response that ends without a sentinel line is not an error: every
   * remaining line is returned and the stream is used up.
   */
  lemma {:induction false} EarlyEndStillOk(d: Duplex, command: string)
    requires Exchange(d, command).result.Ok? && NoSentinel(Exchange(d, command).after.incoming)
    ensures var rest := Exchange(d, command).after.incoming;
      && FirstAndBody(d, command).result == Ok([Exchange(d, command).result.value] + Received(rest))
      && FirstAndBody(d, command).after.incoming == []
  {
    var rest := Exchange(d, command).after.incoming;
    assert rest[..|rest|] == rest;
    FirstAndBodyOnSuccess(d, command, |rest|);
  }

  /**
   * The first reply line is never compared with the sentinel: an empty
   * response "OK" comes back as the data line "OK\n" and reading goes on
   * into whatever follows it.
   */
  lemma FirstLineNotCheckedForSentinel(d: Duplex, command: string)
    requires !d.writeBroken && d.incoming != [] && d.incoming[0] == Line("OK", true)
    ensures var f := Frame(d.incoming[1..]);
      && FirstAndBody(d, command).result == Ok(["OK\n"] + f.body)
      && BodyAfterFirst(d, command).result == Ok(f.body)
      && FirstAndBody(d, command).after.incoming == d.incoming[1 + f.consumed..]
  {
    assert Raw(d.incoming[0]) == "OK\n";
    assert !StartsWith("OK\n", ACK_PREFIX) by {
      assert "OK\n"[0] != ACK_PREFIX[0];
    }
  }

  /**
   * At the end of the stream the first read succeeds with nothing read, so a
   * listing is the single empty line, not a truncation error.
   */
  lemma EndOfStreamIsNotAnError(d: Duplex, command: string)
    requires !d.writeBroken && d.incoming == []
    ensures FirstAndBody(d, command) == Step(Ok([""]), d.(written := d.written + command))
    ensures BodyAfterFirst(d, command) == Step(Ok([]), d.(written := d.written + command))
    ensures FirstOnly(d, command) == Step(Ok(()), d.(written := d.written + command))
  {
    assert [""] + Frame([]).body == [""];
  }

  /**
   * The first element of a listing keeps the line feed `read_line` left on
   * it; the framed elements after it have none.
   */
  lemma LineFeedOnlyOnFirst(d: Duplex, command: string)
    requires FirstAndBody(d, command).result.Ok?
    ensures var v := FirstAndBody(d, command).result.value;
      && |v| >= 1
      && (d.incoming != [] && d.incoming[0].Line? && d.incoming[0].terminated ==>
            |v[0]| > 0 && v[0][|v[0]| - 1] == '\n' && '\n' !in v[0][..|v[0]| - 1])
      && (forall i :: 1 <= i < |v| ==> '\n' !in v[i])
  {
    var s := Exchange(d, command);
    var v := FirstAndBody(d, command).result.value;
    FrameBodyHasNoLineFeed(s.after.incoming);
    assert v[1..] == Frame(s.after.incoming).body;
    if d.incoming != [] && d.incoming[0].Line? && d.incoming[0].terminated {
      var t := d.incoming[0].text;
      assert v[0] == t + "\n";
      assert v[0][..|v[0]| - 1] == t;
    }
  }

  /** `currentsong` returns exactly a listing without its first line, and leaves the stream alike. */
  lemma BodyAfterFirstDropsFirst(d: Duplex, command: string)
    ensures BodyAfterFirst(d, command).after == FirstAndBody(d, command).after
    ensures BodyAfterFirst(d, command).result.Ok? <==> FirstAndBody(d, command).result.Ok?
    ensures FirstAndBody(d, command).result.Ok? ==>
      FirstAndBody(d, command).result.value
        == [Exchange(d, command).result.value] + BodyAfterFirst(d, command).result.value
  {
  }

  /**
   * `clear_queue` and `load_playlist` read at most one line and succeed
   * unless that line is an `ACK [` line or its read fails.
   */
  lemma FirstOnlyReadsOneLine(d: Duplex, command: string)
    requires !d.writeBroken
    ensures FirstOnly(d, command).after
      == Duplex(if d.incoming == [] then [] else d.incoming[1..], d.written + command, false)
    ensures FirstOnly(d, command).result.Ok? <==>
      d.incoming == [] || (d.incoming[0].Line? && !StartsWith(Raw(d.incoming[0]), ACK_PREFIX))
  {
  }
}
