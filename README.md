# MPD protocol client, modelled in Dafny

This project models the protocol client of `mpd-player`, a small Rust client
for the Music Player Daemon (MPD). MPD speaks a line-oriented text protocol:
the client writes one command line, and the server answers with lines. A
successful answer ends with a line `OK`. A failed answer is one line that
begins with `ACK [`.

The model replaces the TCP socket with an abstract duplex stream:

- The reader half is a sequence of read attempts (`Protocol.Incoming`). Each
  attempt either delivers one line or fails. A failed attempt stands for an
  I/O error, a timeout or bytes that are not UTF-8, and it uses up one attempt.
  A line is its text without the line feed, plus a flag saying whether a line
  feed ended it or the end of the stream did.
- The writer half is the text written so far.
- A flag (`writeBroken`) says whether writing and flushing fail.

`read_line` gives a line with its line feed kept. `lines()` gives it with the
line feed and any carriage return before it removed. `flatten` skips failed
reads.

Modules:

- `Basics`: `Option`, `Result`, `byte` and the `StartsWith` prefix test.
- `MpdTypes`: `MpdError`, the enumerations `QueueState` and `PlayState`, the
  `Status` and `Stats` records, and their default values.
- `Protocol`: the stream, plus one specification function per operation.
  `Exchange` is `mpd_command`. `Frame` is the `lines!` macro.
  `FirstAndBody`, `BodyAfterFirst` and `FirstOnly` are the three shapes of
  the facade methods. `Handshake` is the greeting check.
- `Properties`: lemmas about those functions.
- `Client`: the class `MpdClient`. Its fields are the two halves of the
  stream. Its methods consume read attempts and append to the written text
  in place, and each one is proved equal to its specification function.

Where the code and the protocol's intended design differ, the model follows
the code:

- A response that ends before its `OK` line is returned as a success. There
  is no truncation error.
- If the stream ends before the first reply line, the reply is the empty
  string, and that counts as a success.
- `get_status` returns the raw lines rather than a decoded status record.
- Playlist names are inserted into commands verbatim, without quoting.

## Model

| member | source | states |
|---|---|---|
| MpdTypes.DefaultEnumerations | src/mpd/client.rs:30-52 | the queue modifier state defaults to `Off` and the playback state to `Stop` |
| MpdTypes.DefaultStatusIsEmpty | src/mpd/client.rs:54-80 | the default status has every optional field absent, all four queue modifiers `Off` and state `Stop` |
| MpdTypes.DefaultStatsAreZero | src/mpd/client.rs:90-98 | the default statistics have all six counters equal to 0 |
| Protocol.Stripped | src/mpd/client.rs:24 | a line yielded by `lines()` never contains a line feed |
| Protocol.GreetingBuffer | src/mpd/client.rs:127-128 | the greeting buffer always holds exactly 20 bytes |
| Protocol.Frame | src/mpd/client.rs:19-28 | framing never uses more read attempts than the input holds, and each body line costs at least one attempt |
| Properties.FrameExcludesSentinel | src/mpd/client.rs:26 | the framed body never contains a line equal to `OK`; if framing stops before the input runs out, the last attempt it used delivered the `OK` line |
| Properties.HandshakeAcceptsExactly | src/mpd/client.rs:127-132 | the connection is accepted exactly when the greeting read succeeds and its bytes start with `OK MPD`; a short read never matches; otherwise the error says which check failed |
| Properties.FrameUpToSentinel | src/mpd/client.rs:19-28 | framing returns exactly the lines before the first `OK` line (failed reads skipped) and consumes that `OK` line; if there is no `OK` line, it returns all remaining lines and consumes all input |
| Properties.FrameBodyHasNoLineFeed | src/mpd/client.rs:24-25 | no framed body line contains a line feed |
| Properties.WriteFailureReadsNothing | src/mpd/client.rs:141-144 | a write or flush failure gives `FailedWrite` for every command, with nothing read and nothing written |
| Properties.FirstReadFailure | src/mpd/client.rs:146-149 | a failed read of the first reply line gives `FailedCommand` for every command, after exactly one read and with the command written |
| Properties.AckRejected | src/mpd/client.rs:151-153 | a first line starting with `ACK [` gives `FailedCommand` for every command, and no further line is read |
| Properties.FailureOnlyFromFirstLine | src/mpd/client.rs:158-200 | a listing command fails if and only if the first-line exchange fails, and it then fails with the same error and the same stream |
| Properties.FirstAndBodyOnSuccess | src/mpd/client.rs:158-174 | a successful listing is the first reply line followed by the lines up to, but not including, the next `OK` line; the stream resumes after that `OK` line, and the command has been written |
| Properties.EarlyEndStillOk | src/mpd/client.rs:19-28 | a response with no `OK` line still succeeds, returns every remaining line and uses up the stream |
| Properties.FirstLineNotCheckedForSentinel | src/mpd/client.rs:158-162 | an `OK` first line is returned as the data line `OK\n`, and reading continues past it to the next `OK` line |
| Properties.EndOfStreamIsNotAnError | src/mpd/client.rs:146-155 | at end of stream the first reply is the empty string: a listing gives `[""]`, `currentsong` gives `[]`, and clear/load succeed |
| Properties.LineFeedOnlyOnFirst | src/mpd/client.rs:146-162 | in a successful listing, the first element ends with the line feed of a terminated line and has no other; no later element contains a line feed |
| Properties.BodyAfterFirstDropsFirst | src/mpd/client.rs:195-200 | `currentsong` returns the corresponding listing without its first line, succeeds exactly when that listing does, and leaves the same stream |
| Properties.FirstOnlyReadsOneLine | src/mpd/client.rs:176-184 | clear/load consume exactly one read attempt (none at end of stream), never read up to an `OK` line, and succeed unless that line starts with `ACK [` or its read fails |
| Client.MpdClient.constructor | src/mpd/client.rs:134-137 | a new client holds the given stream and has written nothing |
| Client.MpdClient.Open | src/mpd/client.rs:120-138 | a client is returned exactly when the greeting starts with `OK MPD`, as a fresh client over the stream; otherwise the handshake error is returned |
| Client.MpdClient.Command | src/mpd/client.rs:140-156 | the result and the new stream are those of `Exchange`: write the command, read one line, fail on a write error, a read error or an `ACK [` line |
| Client.MpdClient.ReadBody | src/mpd/client.rs:19-28 | the loop returns the framed body and removes exactly the read attempts that framing uses; the written text is unchanged |
| Client.MpdClient.Listing | src/mpd/client.rs:158-174 | the first reply line followed by the framed body, as `FirstAndBody` |
| Client.MpdClient.Playlist | src/mpd/client.rs:158-165 | writes exactly `playlist\n`; the result is as `FirstAndBody` |
| Client.MpdClient.ListPlaylist | src/mpd/client.rs:167-174 | writes exactly `listplaylist `, the name verbatim, then `\n`; the result is as `FirstAndBody` |
| Client.MpdClient.GetStatus | src/mpd/client.rs:186-193 | writes exactly `status\n`; the result is as `FirstAndBody` |
| Client.MpdClient.ClearQueue | src/mpd/client.rs:176-179 | writes exactly `clear\n`; the result and stream are as `FirstOnly` |
| Client.MpdClient.LoadPlaylist | src/mpd/client.rs:181-184 | writes exactly `load `, the name verbatim, then `\n`; the result and stream are as `FirstOnly` |
| Client.MpdClient.CurrentSong | src/mpd/client.rs:195-200 | writes exactly `currentsong\n`; the result is as `BodyAfterFirst` |

## Left out

- TCP connect, `set_read_timeout`, `try_clone` and the buffering of `BufReader`/`BufWriter` (src/mpd/client.rs:121-125) are socket plumbing. The stream is abstract, so a connect failure is not modelled.
- Timeouts and other read errors are each one consumed read attempt. A real timeout can repeat without limit, and `flatten` would keep skipping it.
- A write failure is modelled as writing nothing. A partial write that reached the server before the failure is not modelled.
- The greeting is one read of at most 20 bytes, separate from the response lines. If the server's greeting is longer than 20 bytes, the rest stays in the reader's buffer and would be read as the first reply line. That case is not modelled.
- A line not ended by a line feed can only come last in a real stream. The model does not enforce this.
- Text is modelled as characters, not UTF-8 bytes. Command text and names are written as characters.
- `MPDStatus::new` and `MPDStats::new` (src/mpd/client.rs:82-88, 100-106) have no behaviour: their bodies are `todo!()`. No decoding is modelled.
- The `f32` fields `elapsed` and `duration` are modelled as `Option<real>`. Only their default `None` is used.
- The `Display` and `Error` impls for `MPDError` (src/mpd/client.rs:108-117) only give message strings.
- src/main.rs is not part of this model. It is the entry point and only prints.
