/** The playback controller as the source holds it: mutable variables
    updated in place by loadSong, playSong, pauseSong, playRandom and the
    event handlers. Each method is tied to the pure operation of module
    Playback that specifies it, through Snapshot(). */
module Controller {
  import opened Wrappers
  import opened Playback

  class Player {
    /** The fixed playlist. */
    const songs: seq<Track>

    var currentIndex: int
    var isPlaying: bool
    var isShuffle: bool
    var isRepeat: bool

    /** The parts of the audio element the controller writes. */
    var source: Option<string>
    var position: real
    var volume: real

    /** The controller's state as a value of Playback.State. */
    function Snapshot(): State
      reads this
    {
      State(currentIndex, isPlaying, isShuffle, isRepeat, source, position, volume)
    }

    ghost predicate Valid()
      reads this
    {
      |songs| > 0 && Inv(songs, Snapshot())
    }

    /** The module-level variables as declared, before init runs. */
    constructor (playlist: seq<Track>, sliderVolume: real)
      requires |playlist| > 0 && 0.0 <= sliderVolume <= 1.0
      ensures Valid() && songs == playlist
      ensures Snapshot() == Initial(sliderVolume)
    {
      songs := playlist;
      currentIndex := 0;
      isPlaying := false;
      isShuffle := false;
      isRepeat := false;
      source := None;
      position := 0.0;
      volume := sliderVolume;
    }

    /** init: load the first track. */
    method Init()
      requires Valid()
      modifies this
      ensures Valid()
      ensures Snapshot() == Load(songs, old(Snapshot()), 0)
      ensures currentIndex == 0 && source == Some(songs[0].src)
    {
      LoadSong(0);
    }

    /** loadSong: normalise the index, select it and load its source. */
    method LoadSong(index: int)
      requires Valid()
      modifies this
      ensures Valid()
      ensures Snapshot() == Load(songs, old(Snapshot()), index)
      ensures currentIndex == NormalizeIndex(index, |songs|)
      ensures source == Some(songs[currentIndex].src)
      ensures isPlaying == old(isPlaying) && isShuffle == old(isShuffle) && isRepeat == old(isRepeat)
    {
      var i := index;
      if i < 0 {
        i := |songs| - 1;
      }
      if i >= |songs| {
        i := 0;
      }
      currentIndex := i;
      source := Some(songs[currentIndex].src);
      position := 0.0;
    }

    /** playSong: `accepted` is the outcome of the play request. */
    method PlaySong(accepted: bool)
      requires Valid()
      modifies this
      ensures Valid()
      ensures Snapshot() == Play(old(Snapshot()), accepted)
      ensures isPlaying == (old(isPlaying) || accepted)
      ensures !accepted ==> unchanged(this)
    {
      if accepted {
        isPlaying := true;
      }
    }

    /** pauseSong. */
    method PauseSong()
      requires Valid()
      modifies this
      ensures Valid()
      ensures Snapshot() == Pause(old(Snapshot()))
      ensures !isPlaying
    {
      isPlaying := false;
    }

    /** playRandom: `draw` is the value Math.random returned. */
    method PlayRandom(draw: real, accepted: bool)
      requires Valid() && 0.0 <= draw < 1.0
      modifies this
      ensures Valid()
      ensures Snapshot() == Playback.PlayRandom(songs, old(Snapshot()), draw, accepted)
      ensures currentIndex == RandomIndex(draw, |songs|)
    {
      var next := (draw * |songs| as real).Floor;
      LoadSong(next);
      PlaySong(accepted);
    }

    /** The play button. */
    method ClickPlay(accepted: bool)
      requires Valid()
      modifies this
      ensures Valid()
      ensures Snapshot() == Step(songs, old(Snapshot()), PlayClick(accepted))
    {
      if source == None {
        LoadSong(currentIndex);
      }
      if !isPlaying {
        PlaySong(accepted);
      } else {
        PauseSong();
      }
    }

    /** The next button. */
    method ClickNext(draw: real, accepted: bool)
      requires Valid() && 0.0 <= draw < 1.0
      modifies this
      ensures Valid()
      ensures Snapshot() == Step(songs, old(Snapshot()), NextClick(draw, accepted))
    {
      if isShuffle {
        PlayRandom(draw, accepted);
      } else {
        LoadSong(currentIndex + 1);
        PlaySong(accepted);
      }
    }

    /** The previous button; it ignores shuffle. */
    method ClickPrev(accepted: bool)
      requires Valid()
      modifies this
      ensures Valid()
      ensures Snapshot() == Step(songs, old(Snapshot()), PrevClick(accepted))
    {
      LoadSong(currentIndex - 1);
      PlaySong(accepted);
    }

    /** The shuffle button. */
    method ClickShuffle()
      requires Valid()
      modifies this
      ensures Valid()
      ensures Snapshot() == Step(songs, old(Snapshot()), ShuffleClick)
      ensures isShuffle == !old(isShuffle)
    {
      isShuffle := !isShuffle;
    }

    /** The repeat button. */
    method ClickRepeat()
      requires Valid()
      modifies this
      ensures Valid()
      ensures Snapshot() == Step(songs, old(Snapshot()), RepeatClick)
      ensures isRepeat == !old(isRepeat)
    {
      isRepeat := !isRepeat;
    }

    /** A click on playlist entry `item`. */
    method ClickPlaylistItem(item: int, accepted: bool)
      requires Valid()
      modifies this
      ensures Valid()
      ensures Snapshot() == Step(songs, old(Snapshot()), PlaylistClick(item, accepted))
    {
      LoadSong(item);
      PlaySong(accepted);
    }

    /** The audio element's "ended" event: repeat, else shuffle, else advance. */
    method OnEnded(draw: real, accepted: bool)
      requires Valid() && 0.0 <= draw < 1.0
      modifies this
      ensures Valid()
      ensures Snapshot() == Step(songs, old(Snapshot()), Ended(draw, accepted))
    {
      if isRepeat {
        position := 0.0;
        PlaySong(accepted);
      } else if isShuffle {
        PlayRandom(draw, accepted);
      } else {
        LoadSong(currentIndex + 1);
        PlaySong(accepted);
      }
    }

    /** The progress slider: `percent` is its value, `duration` the audio
        element's duration (0 while unknown). */
    method OnSeek(percent: real, duration: real)
      requires Valid()
      modifies this
      ensures Valid()
      ensures Snapshot() == Step(songs, old(Snapshot()), SeekInput(percent, duration))
    {
      if duration != 0.0 {
        position := percent / 100.0 * duration;
      }
    }

    /** The volume slider. */
    method OnVolume(level: real)
      requires Valid() && 0.0 <= level <= 1.0
      modifies this
      ensures Valid()
      ensures Snapshot() == Step(songs, old(Snapshot()), VolumeInput(level))
    {
      volume := level;
    }
  }

  /** A fresh player on the configured playlist: with nothing saved and no
      gesture yet, it sits on the first track, loaded and paused. */
  method StartUp(sliderVolume: real) returns (p: Player)
    requires 0.0 <= sliderVolume <= 1.0
    ensures fresh(p) && p.Valid() && p.songs == Songs
    ensures p.Snapshot() == Init(Songs, sliderVolume)
    ensures p.currentIndex == 0 && !p.isPlaying && p.source == Some("songs/song1.mp3")
  {
    p := new Player(Songs, sliderVolume);
    p.Init();
  }
}
