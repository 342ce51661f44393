/**
 * The value types of the MPD client: its error type, the two closed
 * enumerations of the status record and the status and statistics records
 * with the values `#[derive(Default)]` gives them.
 */
module MpdTypes {
  import opened Basics

  /** The ways a command can fail. */
  datatype MpdError =
    | FailedWrite     // the command could not be written and flushed
    | FailedCommand   // the reply could not be read, or it was an `ACK [` error line

  type uint8 = x: int | 0 <= x < 0x100
  type uint16 = x: int | 0 <= x < 0x1_0000
  type uint32 = x: int | 0 <= x < 0x1_0000_0000
  type uint64 = x: int | 0 <= x < 0x1_0000_0000_0000_0000

  /** Three-state queue modifier (repeat, random, single, consume). */
  datatype QueueState = Off | On | Oneshot

  /** Playback state of the daemon. */
  datatype PlayState = Play | Stop | Pause

  /** `impl Default for MPDQueueState`. */
  function DefaultQueueState(): QueueState { Off }

  /** `impl Default for MPDState`. */
  function DefaultPlayState(): PlayState { Stop }

  /** The status record; `elapsed` and `duration` are `f32` in the program. */
  datatype Status = Status(
    partition: Option<string>,
    volume: Option<uint8>,
    repeat: QueueState,
    random: QueueState,
    single: QueueState,
    consume: QueueState,
    playlist: Option<uint32>,
    playlistlength: Option<uint64>,
    state: PlayState,
    song: Option<uint32>,
    songid: Option<uint32>,
    nextsong: Option<uint32>,
    nextsongid: Option<uint32>,
    time: Option<uint32>,
    elapsed: Option<real>,
    duration: Option<real>,
    bitrate: Option<uint16>,
    xfade: Option<uint16>,
    mixramdb: Option<uint16>,
    mixrampdelay: Option<uint16>,
    audio: Option<string>,
    error: Option<string>,
    lastloadedplaylist: Option<string>)

  /** `#[derive(Default)]` on the status record: every field takes its own type's default. */
  function DefaultStatus(): Status {
    Status(None, None,
           DefaultQueueState(), DefaultQueueState(), DefaultQueueState(), DefaultQueueState(),
           None, None,
           DefaultPlayState(),
           None, None, None, None, None, None, None, None, None, None, None, None, None, None)
  }

  /** The statistics record. */
  datatype Stats = Stats(
    artists: uint32,
    albums: uint32,
    uptime: uint32,
    dbPlaytime: uint64,
    dbUpdate: uint64,
    playtime: uint32)

  /** `#[derive(Default)]` on the statistics record. */
  function DefaultStats(): Stats {
    Stats(0, 0, 0, 0, 0, 0)
  }

  /** A status record in which no optional field is present. */
  predicate NothingReported(s: Status) {
    && s.partition.None? && s.volume.None? && s.playlist.None? && s.playlistlength.None?
    && s.song.None? && s.songid.None? && s.nextsong.None? && s.nextsongid.None?
    && s.time.None? && s.elapsed.None? && s.duration.None? && s.bitrate.None?
    && s.xfade.None? && s.mixramdb.None? && s.mixrampdelay.None?
    && s.audio.None? && s.error.None? && s.lastloadedplaylist.None?
  }

  lemma DefaultEnumerations()
    ensures DefaultQueueState() == Off
    ensures DefaultPlayState() == Stop
  {
  }

  lemma DefaultStatusIsEmpty()
    ensures NothingReported(DefaultStatus())
    ensures var s := DefaultStatus();
      s.repeat == Off && s.random == Off && s.single == Off && s.consume == Off && s.state == Stop
  {
  }

  lemma DefaultStatsAreZero()
    ensures var s := DefaultStats();
      s.artists == 0 && s.albums == 0 && s.uptime == 0
      && s.dbPlaytime == 0 && s.dbUpdate == 0 && s.playtime == 0
  {
  }
}
