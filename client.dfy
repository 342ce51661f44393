/**
 * `MPDClient`: one connection to the daemon. The reader half is the
 * sequence of read attempts still to come, the writer half the text sent so
 * far; every method consumes from the one and appends to the other in
 * place, and is proved against the specification functions of Protocol.
 */
module Client {
  import opened Basics
  import opened MpdTypes
  import opened Protocol
  import Properties

  class MpdClient {
    var incoming: seq<Incoming>
    var written: string
    var writeBroken: bool

    /** The connection as a value. */
    function State(): Duplex
      reads this
    {
      Duplex(incoming, written, writeBroken)
    }

    constructor (incoming: seq<Incoming>, writeBroken: bool)
      ensures State() == Duplex(incoming, [], writeBroken)
    {
      this.incoming := incoming;
      this.written := [];
      this.writeBroken := writeBroken;
    }

    /**
     * `MPDClient::new` once the stream is connected: read the greeting once
     * and accept the connection only if it starts with "OK MPD".
     */
    static method Open(greeting: Option<seq<byte>>, incoming: seq<Incoming>, writeBroken: bool)
      returns (r: Result<MpdClient, ConnectError>)
      ensures r.Ok? <==> greeting.Some? && StartsWith(greeting.value, OK_MPD)
      ensures r.Err? ==> Handshake(greeting) == Err(r.error)
      ensures r.Ok? ==> fresh(r.value) && r.value.State() == Duplex(incoming, [], writeBroken)
    {
      match greeting {
        case None =>
          r := Err(GreetingUnreadable);
        case Some(offered) =>
          var buffer := GreetingBuffer(offered);
          if !StartsWith(buffer, OK_MPD) {
            r := Err(NotMpd);
          } else {
            var client := new MpdClient(incoming, writeBroken);
            r := Ok(client);
          }
      }
      Properties.HandshakeAcceptsExactly(greeting);
    }

    /** `mpd_command`: write and flush the command, then read the first reply line. */
    method Command(command: string) returns (r: Result<string, MpdError>)
      modifies this
      ensures Step(r, State()) == Exchange(old(State()), command)
    {
      if writeBroken {
        return Err(FailedWrite);
      }
      written := written + command;
      if incoming == [] {
        return Ok("");
      }
      var e := incoming[0];
      incoming := incoming[1..];
      match e {
        case ReadFailed =>
          r := Err(FailedCommand);
        case Line(_, _) =>
          var reply := Raw(e);
          if StartsWith(reply, ACK_PREFIX) {
            r := Err(FailedCommand);
          } else {
            r := Ok(reply);
          }
      }
    }

    /** The `lines!` macro: read lines until the sentinel line, skipping failed reads. */
    method ReadBody() returns (body: seq<string>)
      modifies this
      ensures body == Frame(old(incoming)).body
      ensures incoming == old(incoming)[Frame(old(incoming)).consumed..]
      ensures written == old(written) && writeBroken == old(writeBroken)
    {
      body := [];
      ghost var start, n := incoming, 0;
      while incoming != []
        invariant written == old(written) && writeBroken == old(writeBroken)
        invariant n <= |start| && incoming == start[n..]
        invariant Frame(start) == Framed(body + Frame(incoming).body, n + Frame(incoming).consumed)
        decreases |incoming|
      {
        var e := incoming[0];
        FrameStep(incoming);
        incoming := incoming[1..];
        n := n + 1;
        if e.Line? {
          var line := Stripped(e);
          if line == SENTINEL {
            assert body + [] == body;
            return;
          }
          assert body + ([line] + Frame(incoming).body) == (body + [line]) + Frame(incoming).body;
          body := body + [line];
        }
      }
      assert body + [] == body;
    }

    /** `playlist`: the queue listing. */
    method Playlist() returns (r: Result<seq<string>, MpdError>)
      modifies this
      ensures Step(r, State()) == FirstAndBody(old(State()), PLAYLIST_COMMAND)
      ensures !writeBroken ==> written == old(written) + "playlist\n"
    {
      r := Listing(PLAYLIST_COMMAND);
    }

    /** `list_playlist`: the contents of the stored playlist `name`. */
    method ListPlaylist(name: string) returns (r: Result<seq<string>, MpdError>)
      modifies this
      ensures Step(r, State()) == FirstAndBody(old(State()), ListPlaylistCommand(name))
      ensures !writeBroken ==> written == old(written) + "listplaylist " + name + "\n"
    {
      r := Listing(ListPlaylistCommand(name));
    }

    /** `get_status`: the raw status lines. */
    method GetStatus() returns (r: Result<seq<string>, MpdError>)
      modifies this
      ensures Step(r, State()) == FirstAndBody(old(State()), STATUS_COMMAND)
      ensures !writeBroken ==> written == old(written) + "status\n"
    {
      r := Listing(STATUS_COMMAND);
    }

    /** The shared body of `playlist`, `list_playlist` and `get_status`. */
    method Listing(command: string) returns (r: Result<seq<string>, MpdError>)
      modifies this
      ensures Step(r, State()) == FirstAndBody(old(State()), command)
    {
      var first := Command(command);
      if first.Err? {
        return Err(first.error);
      }
      var rest := ReadBody();
      r := Ok([first.value] + rest);
    }

    /** `clear_queue`: empty the queue; only the first reply line is read. */
    method ClearQueue() returns (r: Result<(), MpdError>)
      modifies this
      ensures Step(r, State()) == FirstOnly(old(State()), CLEAR_COMMAND)
      ensures !writeBroken ==> written == old(written) + "clear\n"
    {
      var first := Command(CLEAR_COMMAND);
      if first.Err? {
        return Err(first.error);
      }
      r := Ok(());
    }

    /** `load_playlist`: append the stored playlist `name` to the queue. */
    method LoadPlaylist(name: string) returns (r: Result<(), MpdError>)
      modifies this
      ensures Step(r, State()) == FirstOnly(old(State()), LoadCommand(name))
      ensures !writeBroken ==> written == old(written) + "load " + name + "\n"
    {
      var first := Command(LoadCommand(name));
      if first.Err? {
        return Err(first.error);
      }
      r := Ok(());
    }

    /** `currentsong`: the lines describing the current song; the first reply line is dropped. */
    method CurrentSong() returns (r: Result<seq<string>, MpdError>)
      modifies this
      ensures Step(r, State()) == BodyAfterFirst(old(State()), CURRENT_SONG_COMMAND)
      ensures !writeBroken ==> written == old(written) + "currentsong\n"
    {
      ghost var before := State();
      var first := Command(CURRENT_SONG_COMMAND);
      ghost var sent := State();
      if first.Err? {
        return Err(first.error);
      }
      var songPairs := ReadBody();
      r := Ok(songPairs);
      assert BodyAfterFirst(before, CURRENT_SONG_COMMAND)
        == Step(Ok(Frame(sent.incoming).body), sent.(incoming := sent.incoming[Frame(sent.incoming).consumed..]));
    }
  }

  /** One read attempt of framing, unfolded. */
  lemma FrameStep(input: seq<Incoming>)
    requires input != []
    ensures input[0].ReadFailed? ==>
      Frame(input) == Framed(Frame(input[1..]).body, Frame(input[1..]).consumed + 1)
    ensures IsSentinel(input[0]) ==> Frame(input) == Framed([], 1)
    ensures input[0].Line? && !IsSentinel(input[0]) ==>
      Frame(input) == Framed([Stripped(input[0])] + Frame(input[1..]).body, Frame(input[1..]).consumed + 1)
  {
  }
}
