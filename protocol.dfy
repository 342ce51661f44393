/**
 * The MPD protocol as the client speaks it, over an abstract duplex stream.
 *
 * The server side of the connection is a sequence of read attempts: each
 * either delivers one line or fails. The client side is the text written so
 * far and a flag saying whether writing fails. Each operation of the client
 * is specified here as a function from the stream before the call to its
 * result and the stream after it.
 */
module Protocol {
  import opened Basics
  import opened MpdTypes

  /** The text of one line as the server sent it, without its line feed. */
  type LineText = s: string | '\n' !in s

  /** One read attempt on the response side of the stream. */
  datatype Incoming =
    | Line(text: LineText, terminated: bool)  // `terminated`: ended by "\n" rather than by the end of the stream
    | ReadFailed                              // an I/O error, a timeout or bytes that are not UTF-8

  /** The line that closes a successful response. */
  const SENTINEL := "OK"

  /** The start of a protocol error reply. */
  const ACK_PREFIX := "ACK ["

  /** What `read_line` appends to its buffer for a line: the line feed is kept. */
  function Raw(e: Incoming): string
    requires e.Line?
  {
    if e.terminated then e.text + "\n" else e.text
  }

  /** What `lines()` yields for a line: the line feed and a carriage return before it are dropped. */
  function Stripped(e: Incoming): (s: string)
    requires e.Line?
    ensures '\n' !in s
  {
    var t := e.text;
    if e.terminated && |t| > 0 && t[|t| - 1] == '\r' then
      assert forall i :: 0 <= i < |t| - 1 ==> t[..|t| - 1][i] == t[i];
      t[..|t| - 1]
    else t
  }

  /** A read attempt that delivers the sentinel line. */
  predicate IsSentinel(e: Incoming) {
    e.Line? && Stripped(e) == SENTINEL
  }

  predicate NoSentinel(s: seq<Incoming>) {
    forall i :: 0 <= i < |s| ==> !IsSentinel(s[i])
  }

  /** Every line that `lines().flatten()` yields from `s`: failed reads are skipped. */
  function Received(s: seq<Incoming>): seq<string> {
    if s == [] then []
    else (if s[0].Line? then [Stripped(s[0])] else []) + Received(s[1..])
  }

  /** A response body and the number of read attempts spent to get it. */
  datatype Framed = Framed(body: seq<string>, consumed: nat)

  /**
   * The `lines!` macro: lines are read, failed reads skipped, until a line
   * equal to the sentinel, which is consumed and left out. When the stream
   * ends first, reading stops and what was read is the body.
   */
  function Frame(input: seq<Incoming>): (r: Framed)
    ensures |r.body| <= r.consumed <= |input|
    decreases |input|
  {
    if input == [] then Framed([], 0)
    else match input[0]
      case ReadFailed =>
        var rest := Frame(input[1..]);
        Framed(rest.body, rest.consumed + 1)
      case Line(_, _) =>
        var line := Stripped(input[0]);
        if line == SENTINEL then Framed([], 1)
        else
          var rest := Frame(input[1..]);
          Framed([line] + rest.body, rest.consumed + 1)
  }

  /** The connection: responses still to be read, text written so far, whether writes fail. */
  datatype Duplex = Duplex(incoming: seq<Incoming>, written: string, writeBroken: bool)

  /** The outcome of one client call and the connection after it. */
  datatype Step<T> = Step(result: Result<T, MpdError>, after: Duplex)

  /**
   * `mpd_command`: write and flush `command`, then read one line. At the end
   * of the stream `read_line` succeeds with nothing read, so the reply is
   * the empty string.
   */
  function Exchange(d: Duplex, command: string): Step<string> {
    if d.writeBroken then Step(Err(FailedWrite), d)
    else
      var sent := d.(written := d.written + command);
      if d.incoming == [] then Step(Ok(""), sent)
      else
        var after := sent.(incoming := d.incoming[1..]);
        match d.incoming[0]
        case ReadFailed => Step(Err(FailedCommand), after)
        case Line(_, _) =>
          var reply := Raw(d.incoming[0]);
          if StartsWith(reply, ACK_PREFIX) then Step(Err(FailedCommand), after)
          else Step(Ok(reply), after)
  }

  /** `playlist`, `list_playlist`, `get_status`: the first reply line, then the framed body. */
  function FirstAndBody(d: Duplex, command: string): Step<seq<string>> {
    var s := Exchange(d, command);
    match s.result
    case Err(e) => Step(Err(e), s.after)
    case Ok(first) =>
      var f := Frame(s.after.incoming);
      Step(Ok([first] + f.body), s.after.(incoming := s.after.incoming[f.consumed..]))
  }

  /** `currentsong`: the first reply line is dropped, the framed body returned. */
  function BodyAfterFirst(d: Duplex, command: string): Step<seq<string>> {
    var s := Exchange(d, command);
    match s.result
    case Err(e) => Step(Err(e), s.after)
    case Ok(_) =>
      var f := Frame(s.after.incoming);
      Step(Ok(f.body), s.after.(incoming := s.after.incoming[f.consumed..]))
  }

  /** `clear_queue`, `load_playlist`: only the first reply line is read. */
  function FirstOnly(d: Duplex, command: string): Step<()> {
    var s := Exchange(d, command);
    match s.result
    case Err(e) => Step(Err(e), s.after)
    case Ok(_) => Step(Ok(()), s.after)
  }

  const PLAYLIST_COMMAND := "playlist\n"
  const STATUS_COMMAND := "status\n"
  const CLEAR_COMMAND := "clear\n"
  const CURRENT_SONG_COMMAND := "currentsong\n"

  /** `format!("listplaylist {}\n", name)`: the name goes in as it is, unquoted. */
  function ListPlaylistCommand(name: string): string {
    "listplaylist " + name + "\n"
  }

  /** `format!("load {}\n", name)`. */
  function LoadCommand(name: string): string {
    "load " + name + "\n"
  }

  /** Why opening a client fails. */
  datatype ConnectError =
    | GreetingUnreadable  // the read of the greeting failed
    | NotMpd              // "MPD OK was not received"

  /** Size of the buffer the greeting is read into. */
  const GREETING_SIZE := 20

  /** "OK MPD" in ASCII. */
  const OK_MPD: seq<byte> := [0x4F, 0x4B, 0x20, 0x4D, 0x50, 0x44]

  /**
   * The zero-initialised 20-byte buffer after one `read` into it of the bytes
   * the server has sent: at most 20 of them are copied.
   */
  function GreetingBuffer(offered: seq<byte>): (buf: seq<byte>)
    ensures |buf| == GREETING_SIZE
  {
    var n := if |offered| < GREETING_SIZE then |offered| else GREETING_SIZE;
    offered[..n] + seq(GREETING_SIZE - n, _ => 0 as byte)
  }

  /** The greeting check of `MPDClient::new`; `None` stands for a failed read. */
  function Handshake(greeting: Option<seq<byte>>): Result<(), ConnectError> {
    match greeting
    case None => Err(GreetingUnreadable)
    case Some(offered) =>
      if StartsWith(GreetingBuffer(offered), OK_MPD) then Ok(()) else Err(NotMpd)
  }
}
