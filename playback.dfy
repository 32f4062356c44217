/** The playback controller of the music player as pure values: the state
    held in the four module-level variables of script.js (plus the parts of
    the audio element the controller writes), one function per operation,
    and the lemmas stating the controller's policy. The host's two inputs
    are explicit: `draw` is the value Math.random returned (in [0, 1)) and
    `accepted` says whether the promise returned by audio.play() resolved. */
module Playback {
  import opened Wrappers

  /** One playlist entry. */
  datatype Track = Track(title: string, artist: string, src: string, cover: string)

  /** The playlist the player is configured with. */
  const Songs: seq<Track> := [
    Track("Polladhvan BGM", "GV Prakesh", "songs/song1.mp3", "assets/cover1.jpg"),
    Track("Thalaiva BGM", "GV Prakesh", "songs/song2.mp3", "assets/cover2.jpg"),
    Track("Pirai Thedum", "GV Prakesh", "songs/song3.mp3", "assets/cover3.jpg")
  ]

  /** The controller's variables (`index`, `playing`, `shuffle`, `repeat`)
      together with the audio element's source slot (None while `audio.src`
      is still empty), its playback position in seconds and its volume. */
  datatype State = State(
    index: int,
    playing: bool,
    shuffle: bool,
    repeat: bool,
    source: Option<string>,
    position: real,
    volume: real)

  /** What the controller guarantees between events: the index names a
      track, the loaded source (once there is one) is that track's, and the
      volume is one the audio element accepts. */
  ghost predicate Inv(songs: seq<Track>, s: State) {
    && 0 <= s.index < |songs|
    && (s.source.Some? ==> s.source.value == songs[s.index].src)
    && 0.0 <= s.volume <= 1.0
  }

  /** The index rule of loadSong: a negative index selects the last track,
      and an index at or past the end (after that first correction) selects
      the first one. This is not arithmetic modulo the length. */
  function NormalizeIndex(index: int, length: nat): (k: int)
    requires length > 0
    ensures 0 <= k < length
    ensures 0 <= index < length ==> k == index
    ensures index < 0 ==> k == length - 1
    ensures index >= length ==> k == 0
  {
    var i := if index < 0 then length - 1 else index;
    if i >= length then 0 else i
  }

  /** The index playRandom draws: floor(draw * length). */
  function RandomIndex(draw: real, length: nat): (k: int)
    requires 0.0 <= draw < 1.0 && length > 0
    ensures 0 <= k < length
  {
    var n := length as real;
    assert 0.0 <= draw * n < n by {
      assert draw * n <= 1.0 * n;
      assert draw * n != n;
    }
    (draw * n).Floor
  }

  /** The state before init runs: first track selected, nothing loaded,
      paused, shuffle and repeat off, volume as the slider starts. */
  function Initial(volume: real): State {
    State(0, false, false, false, None, 0.0, volume)
  }

  /** loadSong: select the normalised index and point the audio element at
      that track. Assigning a new source restarts the media at time 0. */
  function Load(songs: seq<Track>, s: State, index: int): State
    requires |songs| > 0
  {
    var k := NormalizeIndex(index, |songs|);
    s.(index := k, source := Some(songs[k].src), position := 0.0)
  }

  /** playSong: the flag is set only when the play request is accepted;
      a rejected request is logged and changes nothing. */
  function Play(s: State, accepted: bool): State {
    if accepted then s.(playing := true) else s
  }

  /** pauseSong. */
  function Pause(s: State): State {
    s.(playing := false)
  }

  /** playRandom. */
  function PlayRandom(songs: seq<Track>, s: State, draw: real, accepted: bool): State
    requires |songs| > 0 && 0.0 <= draw < 1.0
  {
    Play(Load(songs, s, RandomIndex(draw, |songs|)), accepted)
  }

  /** The state after init: track 0 loaded with the slider's volume. */
  function Init(songs: seq<Track>, volume: real): State
    requires |songs| > 0
  {
    Load(songs, Initial(volume), 0)
  }

  /** The gestures and media events the controller reacts to. */
  datatype Event =
    | PlayClick(accepted: bool)
    | NextClick(draw: real, accepted: bool)
    | PrevClick(accepted: bool)
    | ShuffleClick
    | RepeatClick
    | PlaylistClick(item: int, accepted: bool)
    | Ended(draw: real, accepted: bool)
    | SeekInput(percent: real, duration: real)
    | VolumeInput(level: real)

  /** Host guarantees about an event's inputs: Math.random lies in [0, 1)
      and the volume slider in [0, 1]. */
  predicate WellFormed(e: Event) {
    match e
    case NextClick(draw, _) => 0.0 <= draw < 1.0
    case Ended(draw, _) => 0.0 <= draw < 1.0
    case VolumeInput(level) => 0.0 <= level <= 1.0
    case _ => true
  }

  /** The effect of one event, handler by handler. */
  function Step(songs: seq<Track>, s: State, e: Event): State
    requires |songs| > 0 && WellFormed(e)
  {
    match e
    case PlayClick(accepted) =>
      var s1 := if s.source == None then Load(songs, s, s.index) else s;
      if !s1.playing then Play(s1, accepted) else Pause(s1)
    case NextClick(draw, accepted) =>
      if s.shuffle then PlayRandom(songs, s, draw, accepted)
      else Play(Load(songs, s, s.index + 1), accepted)
    case PrevClick(accepted) =>
      Play(Load(songs, s, s.index - 1), accepted)
    case ShuffleClick =>
      s.(shuffle := !s.shuffle)
    case RepeatClick =>
      s.(repeat := !s.repeat)
    case PlaylistClick(item, accepted) =>
      Play(Load(songs, s, item), accepted)
    case Ended(draw, accepted) =>
      if s.repeat then Play(s.(position := 0.0), accepted)
      else if s.shuffle then PlayRandom(songs, s, draw, accepted)
      else Play(Load(songs, s, s.index + 1), accepted)
    case SeekInput(percent, duration) =>
      if duration != 0.0 then s.(position := percent / 100.0 * duration) else s
    case VolumeInput(level) =>
      s.(volume := level)
  }

  /** A sequence of events processed one at a time, in order. */
  function Run(songs: seq<Track>, s: State, events: seq<Event>): State
    requires |songs| > 0 && forall i :: 0 <= i < |events| ==> WellFormed(events[i])
    decreases |events|
  {
    if events == [] then s else Run(songs, Step(songs, s, events[0]), events[1..])
  }

  // ---------------------------------------------------------------------
  // The controller's invariant

  /** Loading any index establishes the index and source parts of Inv. */
  lemma LoadEstablishesInv(songs: seq<Track>, s: State, index: int)
    requires |songs| > 0 && 0.0 <= s.volume <= 1.0
    ensures Inv(songs, Load(songs, s, index))
    ensures Load(songs, s, index).source == Some(songs[Load(songs, s, index).index].src)
  {
  }

  /** Init leaves the player on track 0 with its source loaded. */
  lemma InitEstablishesInv(songs: seq<Track>, volume: real)
    requires |songs| > 0 && 0.0 <= volume <= 1.0
    ensures Inv(songs, Init(songs, volume))
    ensures Init(songs, volume).index == 0 && Init(songs, volume).source == Some(songs[0].src)
    ensures !Init(songs, volume).playing && !Init(songs, volume).shuffle && !Init(songs, volume).repeat
  {
  }

  /** Every event keeps the index in range and the source in step with it. */
  lemma StepPreservesInv(songs: seq<Track>, s: State, e: Event)
    requires |songs| > 0 && WellFormed(e) && Inv(songs, s)
    ensures Inv(songs, Step(songs, s, e))
  {
  }

  /** Whatever the user does and however the host answers, the invariant
      holds after every event of a session. */
  lemma {:induction false} RunPreservesInv(songs: seq<Track>, s: State, events: seq<Event>)
    requires |songs| > 0 && forall i :: 0 <= i < |events| ==> WellFormed(events[i])
    requires Inv(songs, s)
    ensures Inv(songs, Run(songs, s, events))
    decreases |events|
  {
    if events != [] {
      StepPreservesInv(songs, s, events[0]);
      RunPreservesInv(songs, Step(songs, s, events[0]), events[1..]);
    }
  }

  /** Once a source is loaded, no event unloads it. */
  lemma {:induction false} RunKeepsSourceLoaded(songs: seq<Track>, s: State, events: seq<Event>)
    requires |songs| > 0 && forall i :: 0 <= i < |events| ==> WellFormed(events[i])
    requires s.source.Some?
    ensures Run(songs, s, events).source.Some?
    decreases |events|
  {
    if events != [] {
      RunKeepsSourceLoaded(songs, Step(songs, s, events[0]), events[1..]);
    }
  }

  /** A session started by init satisfies the invariant throughout, and a
      source is loaded at every point, so the play button's "load first"
      branch is never taken after init. */
  lemma SessionKeepsInv(songs: seq<Track>, volume: real, events: seq<Event>)
    requires |songs| > 0 && 0.0 <= volume <= 1.0
    requires forall i :: 0 <= i < |events| ==> WellFormed(events[i])
    ensures Inv(songs, Run(songs, Init(songs, volume), events))
    ensures Run(songs, Init(songs, volume), events).source.Some?
  {
    InitEstablishesInv(songs, volume);
    RunPreservesInv(songs, Init(songs, volume), events);
    RunKeepsSourceLoaded(songs, Init(songs, volume), events);
  }

  // ---------------------------------------------------------------------
  // Next, previous and the playlist

  /** Next without shuffle advances by one and wraps from the last track to
      the first; it then requests playback. */
  lemma NextAdvances(songs: seq<Track>, s: State, draw: real, accepted: bool)
    requires |songs| > 0 && 0.0 <= draw < 1.0 && Inv(songs, s) && !s.shuffle
    ensures Step(songs, s, NextClick(draw, accepted)).index
      == (if s.index == |songs| - 1 then 0 else s.index + 1)
    ensures Step(songs, s, NextClick(draw, accepted)).playing == (s.playing || accepted)
    ensures Step(songs, s, NextClick(draw, accepted)).source
      == Some(songs[Step(songs, s, NextClick(draw, accepted)).index].src)
  {
  }

  /** Next with shuffle loads the drawn track, which may be the current one. */
  lemma NextShuffles(songs: seq<Track>, s: State, draw: real, accepted: bool)
    requires |songs| > 0 && 0.0 <= draw < 1.0 && s.shuffle
    ensures Step(songs, s, NextClick(draw, accepted)).index == RandomIndex(draw, |songs|)
    ensures Step(songs, s, NextClick(draw, accepted)).playing == (s.playing || accepted)
  {
  }

  /** Previous moves back by one, wrapping from the first track to the
      last, whatever the shuffle flag says; it then requests playback. */
  lemma PrevRetreats(songs: seq<Track>, s: State, accepted: bool)
    requires |songs| > 0 && Inv(songs, s)
    ensures Step(songs, s, PrevClick(accepted)).index
      == (if s.index == 0 then |songs| - 1 else s.index - 1)
    ensures Step(songs, s, PrevClick(accepted)).playing == (s.playing || accepted)
    ensures Step(songs, s, PrevClick(accepted)).shuffle == s.shuffle
  {
  }

  /** Next and previous undo each other when shuffle is off. */
  lemma PrevUndoesNext(songs: seq<Track>, s: State, draw: real, a1: bool, a2: bool)
    requires |songs| > 0 && 0.0 <= draw < 1.0 && Inv(songs, s) && !s.shuffle
    ensures Step(songs, Step(songs, s, NextClick(draw, a1)), PrevClick(a2)).index == s.index
  {
  }

  /** Clicking a playlist entry selects exactly that track. */
  lemma PlaylistClickSelects(songs: seq<Track>, s: State, item: int, accepted: bool)
    requires 0 <= item < |songs|
    ensures Step(songs, s, PlaylistClick(item, accepted)).index == item
    ensures Step(songs, s, PlaylistClick(item, accepted)).source == Some(songs[item].src)
    ensures Step(songs, s, PlaylistClick(item, accepted)).playing == (s.playing || accepted)
  {
  }

  /** Every track can come out of the shuffle draw. */
  lemma RandomIndexCovers(k: nat, length: nat)
    requires k < length
    ensures 0.0 <= k as real / length as real < 1.0
    ensures RandomIndex(k as real / length as real, length) == k
  {
  }

  // ---------------------------------------------------------------------
  // Play and pause

  /** A play request sets the flag exactly when accepted; a rejected one
      leaves the whole state as it was, the flag included. */
  lemma PlayOutcome(s: State, accepted: bool)
    ensures Play(s, accepted).playing == (s.playing || accepted)
    ensures !accepted ==> Play(s, accepted) == s
    ensures Play(s, accepted).(playing := s.playing) == s
  {
  }

  /** Pausing always leaves the player paused and is idempotent. */
  lemma PauseIdempotent(s: State)
    ensures !Pause(s).playing
    ensures Pause(Pause(s)) == Pause(s)
    ensures Pause(s).(playing := s.playing) == s
  {
  }

  /** The play button plays when paused and pauses when playing. Once a
      source is loaded nothing but the flag can change. */
  lemma PlayClickToggles(songs: seq<Track>, s: State, accepted: bool)
    requires |songs| > 0 && s.source.Some?
    ensures Step(songs, s, PlayClick(accepted))
      == if s.playing then Pause(s) else Play(s, accepted)
  {
  }

  /** The first click on the play button after a fresh start loads the
      current track before asking to play it. */
  lemma PlayClickLoadsFirst(songs: seq<Track>, s: State, accepted: bool)
    requires |songs| > 0 && Inv(songs, s) && s.source == None
    ensures Step(songs, s, PlayClick(accepted)).source == Some(songs[s.index].src)
    ensures Step(songs, s, PlayClick(accepted)).index == s.index
    ensures Step(songs, s, PlayClick(accepted))
      == if s.playing then Pause(Load(songs, s, s.index)) else Play(Load(songs, s, s.index), accepted)
  {
  }

  /** Play, pause, play with accepted requests ends playing, on the same
      track, with nothing else changed. */
  lemma PlayPausePlay(songs: seq<Track>, s: State)
    requires |songs| > 0 && s.source.Some? && !s.playing
    ensures Run(songs, s, [PlayClick(true), PlayClick(true), PlayClick(true)])
      == s.(playing := true)
  {
  }

  // ---------------------------------------------------------------------
  // Shuffle and repeat

  /** The shuffle button flips the shuffle flag and nothing else; two
      clicks restore the state. */
  lemma ShuffleClickFlips(songs: seq<Track>, s: State)
    requires |songs| > 0
    ensures Step(songs, s, ShuffleClick).shuffle == !s.shuffle
    ensures Step(songs, s, ShuffleClick).(shuffle := s.shuffle) == s
    ensures Step(songs, Step(songs, s, ShuffleClick), ShuffleClick) == s
  {
  }

  /** The repeat button flips the repeat flag and nothing else; two clicks
      restore the state. */
  lemma RepeatClickFlips(songs: seq<Track>, s: State)
    requires |songs| > 0
    ensures Step(songs, s, RepeatClick).repeat == !s.repeat
    ensures Step(songs, s, RepeatClick).(repeat := s.repeat) == s
    ensures Step(songs, Step(songs, s, RepeatClick), RepeatClick) == s
  {
  }

  // ---------------------------------------------------------------------
  // End of track

  /** Repeat wins over shuffle: the same track restarts at time 0 and
      playback is requested again. */
  lemma EndedWithRepeat(songs: seq<Track>, s: State, draw: real, accepted: bool)
    requires |songs| > 0 && 0.0 <= draw < 1.0 && s.repeat
    ensures Step(songs, s, Ended(draw, accepted)).index == s.index
    ensures Step(songs, s, Ended(draw, accepted)).position == 0.0
    ensures Step(songs, s, Ended(draw, accepted)).source == s.source
    ensures Step(songs, s, Ended(draw, accepted)).playing == (s.playing || accepted)
  {
  }

  /** Without repeat, shuffle picks the drawn track, always in range and
      possibly the current one. */
  lemma EndedWithShuffle(songs: seq<Track>, s: State, draw: real, accepted: bool)
    requires |songs| > 0 && 0.0 <= draw < 1.0 && !s.repeat && s.shuffle
    ensures Step(songs, s, Ended(draw, accepted)).index == RandomIndex(draw, |songs|)
    ensures 0 <= Step(songs, s, Ended(draw, accepted)).index < |songs|
    ensures Step(songs, s, Ended(draw, accepted)).position == 0.0
  {
  }

  /** With neither flag, the player advances, wrapping after the last track. */
  lemma EndedAdvances(songs: seq<Track>, s: State, draw: real, accepted: bool)
    requires |songs| > 0 && 0.0 <= draw < 1.0 && Inv(songs, s) && !s.repeat && !s.shuffle
    ensures Step(songs, s, Ended(draw, accepted)).index
      == (if s.index == |songs| - 1 then 0 else s.index + 1)
    ensures Step(songs, s, Ended(draw, accepted)).playing == (s.playing || accepted)
  {
  }

  /** Without repeat, the end of a track behaves exactly like the next
      button, shuffle or not. */
  lemma EndedIsNextWithoutRepeat(songs: seq<Track>, s: State, draw: real, accepted: bool)
    requires |songs| > 0 && 0.0 <= draw < 1.0 && !s.repeat
    ensures Step(songs, s, Ended(draw, accepted)) == Step(songs, s, NextClick(draw, accepted))
  {
  }

  // ---------------------------------------------------------------------
  // Seek and volume

  /** Seeking places the position at the given percentage of a known
      duration and is ignored while the duration is 0. */
  lemma SeekMoves(songs: seq<Track>, s: State, percent: real, duration: real)
    requires |songs| > 0
    ensures duration == 0.0 ==> Step(songs, s, SeekInput(percent, duration)) == s
    ensures duration != 0.0 ==>
      Step(songs, s, SeekInput(percent, duration)).position * 100.0 == percent * duration
    ensures Step(songs, s, SeekInput(percent, duration)).(position := s.position) == s
  {
  }

  /** The slider value is the volume read back afterwards. */
  lemma VolumeRoundTrip(songs: seq<Track>, s: State, level: real)
    requires |songs| > 0 && 0.0 <= level <= 1.0
    ensures Step(songs, s, VolumeInput(level)).volume == level
    ensures Step(songs, s, VolumeInput(level)).(volume := s.volume) == s
  {
  }
}
