/**
 * The playback side of `Application` (music_app.py:64-141), the seek keys
 * of `ImagePanel` (music_app.py:290-320) and the two list actions of
 * `SongListPanel` (music_app.py:342-374). The mixer, the widgets and the
 * progress timer are not modelled; each call to them is a no-op here.
 */
module Player {
  import opened Wrappers
  import opened Tracks
  import opened Cursor
  import opened Playlist

  /** The three states the flags `is_playing` and `is_paused` stand for. */
  datatype PlayState = Stopped | Playing | Paused

  /** How `toggle_play_pause` reads the two flags: `is_playing` is tested first. */
  function StateOf(isPlaying: bool, isPaused: bool): (r: PlayState)
    ensures r == Stopped <==> !isPlaying
    ensures r == Paused <==> isPlaying && isPaused
  {
    if !isPlaying then Stopped else if isPaused then Paused else Playing
  }

  /** `play_song`: with a track to play, playback (re)starts; otherwise nothing changes. */
  function Play(s: PlayState, hasSong: bool): (r: PlayState)
    ensures hasSong ==> r == Playing
    ensures !hasSong ==> r == s
  {
    if hasSong then Playing else s
  }

  /** `toggle_play_pause`: Stopped starts playing, Paused resumes, Playing pauses. */
  function Toggle(s: PlayState, hasSong: bool): (r: PlayState)
    ensures r == Paused <==> s == Playing
    ensures r == Stopped <==> s == Stopped && !hasSong
  {
    match s
    case Stopped => Play(s, hasSong)
    case Paused => Playing
    case Playing => Paused
  }

  /** Pressing space twice while a track is loaded comes back to the same state. */
  lemma ToggleTwice(s: PlayState, hasSong: bool)
    requires s != Stopped
    ensures Toggle(Toggle(s, hasSong), hasSong) == s
  {
  }

  /** Python's truth value of `current_song()`: both None and "" are false. */
  predicate Truthy(song: Option<TrackPath>) {
    song.Some? && song.value != ""
  }

  /** Seconds moved by one press of an arrow key. */
  const SEEK_STEP: int := 5

  /** `seek_forward`'s target: five seconds on, with no upper clamp. */
  function ForwardTarget(pos: int): (r: int)
    ensures r > pos
    ensures r - pos == SEEK_STEP
  {
    pos + SEEK_STEP
  }

  /** `seek_backward`'s target: five seconds back, but never before 0. */
  function BackwardTarget(pos: int): (r: int)
    ensures r >= 0
    ensures pos >= SEEK_STEP ==> r == pos - SEEK_STEP
    ensures pos < SEEK_STEP ==> r == 0
  {
    if pos - SEEK_STEP > 0 then pos - SEEK_STEP else 0
  }

  /** Forward then back returns to any position that is not negative. */
  lemma SeekRoundTrip(pos: int)
    requires pos >= 0
    ensures BackwardTarget(ForwardTarget(pos)) == pos
  {
  }

  /** Back then forward returns to the position only when the clamp did not act. */
  lemma SeekBackClamp(pos: int)
    ensures ForwardTarget(BackwardTarget(pos)) == pos <==> pos >= SEEK_STEP
  {
  }

  /**
   * The seek state of `ImagePanel`: whether the user moved the slider
   * (`slider_used`), the slider's value in whole seconds, and
   * `current_time`.
   */
  class ImagePanel {
    var sliderUsed: bool
    var sliderPos: int
    var currentTime: int

    /** The state `play_song` leaves the panel in: slider at 0, handed back to the timer. */
    ghost predicate Reset()
      reads this
    {
      !sliderUsed && sliderPos == 0 && currentTime == 0
    }

    constructor ()
      ensures Reset()
    {
      sliderUsed := false;
      sliderPos := 0;
      currentTime := 0;
    }

    /**
     * `seek_song`: with a current song (a non-empty path), the slider is marked as user-set and
     * the mixer is asked to jump to its value; the slider itself stays put.
     */
    method SeekSong(manager: MusicManager)
      requires manager.Valid()
      modifies this`sliderUsed
      ensures sliderUsed == (old(sliderUsed) || Truthy(manager.CurrentSong()))
    {
      if Truthy(manager.CurrentSong()) {
        sliderUsed := true;
      }
    }

    /**
     * `seek_forward`: with a current song, the slider is marked as user-set
     * and, when the mixer accepts the jump (`setPosOk`), moved five seconds on.
     */
    method SeekForward(manager: MusicManager, setPosOk: bool)
      requires manager.Valid()
      modifies this`sliderUsed, this`sliderPos
      ensures !Truthy(manager.CurrentSong()) ==> sliderUsed == old(sliderUsed) && sliderPos == old(sliderPos)
      ensures Truthy(manager.CurrentSong()) ==> sliderUsed
      ensures Truthy(manager.CurrentSong()) && setPosOk ==> sliderPos == ForwardTarget(old(sliderPos))
      ensures !setPosOk ==> sliderPos == old(sliderPos)
    {
      if Truthy(manager.CurrentSong()) {
        var newPos := ForwardTarget(sliderPos);
        sliderUsed := true;
        if setPosOk {
          sliderPos := newPos;
        }
      }
    }

    /**
     * `seek_backward`: as `seek_forward`, five seconds back, clamped at 0.
     */
    method SeekBackward(manager: MusicManager, setPosOk: bool)
      requires manager.Valid()
      modifies this`sliderUsed, this`sliderPos
      ensures !Truthy(manager.CurrentSong()) ==> sliderUsed == old(sliderUsed) && sliderPos == old(sliderPos)
      ensures Truthy(manager.CurrentSong()) ==> sliderUsed
      ensures Truthy(manager.CurrentSong()) && setPosOk ==> sliderPos == BackwardTarget(old(sliderPos))
      ensures !setPosOk ==> sliderPos == old(sliderPos)
    {
      if Truthy(manager.CurrentSong()) {
        var newPos := BackwardTarget(sliderPos);
        sliderUsed := true;
        if setPosOk {
          sliderPos := newPos;
        }
      }
    }
  }

  /** The music player window, reduced to its playlist and playback flags. */
  class Application {
    var musicManager: MusicManager
    var isPlaying: bool
    var isPaused: bool
    const frameR: ImagePanel

    /**
     * The playlist is consistent, "paused but not playing" never occurs,
     * and no track path is empty, so `play_song`'s `if not song` test
     * fails exactly when the playlist is empty.
     */
    ghost predicate Valid()
      reads this, musicManager
    {
      musicManager.Valid() &&
      (isPaused ==> isPlaying) &&
      forall t :: t in musicManager.musicFiles ==> t != ""
    }

    ghost function State(): (s: PlayState)
      reads this
    {
      StateOf(isPlaying, isPaused)
    }

    ghost predicate HasSong()
      reads this, musicManager
    {
      |musicManager.musicFiles| > 0
    }

    /** `Application()`: an empty playlist, nothing playing. */
    constructor ()
      ensures Valid() && fresh(musicManager) && fresh(frameR)
      ensures musicManager.musicFiles == [] && State() == Stopped
      ensures frameR.Reset()
    {
      musicManager := new MusicManager([]);
      frameR := new ImagePanel();
      isPlaying := false;
      isPaused := false;
    }

    /**
     * `play_song`: with no current song nothing happens; otherwise the track
     * under the cursor starts from the beginning, unpaused, and the slider
     * is handed back to the progress timer at position 0.
     */
    method PlaySong()
      requires Valid()
      modifies this`isPlaying, this`isPaused, frameR
      ensures Valid()
      ensures State() == Play(old(State()), HasSong())
      ensures !HasSong() ==> isPlaying == old(isPlaying) && isPaused == old(isPaused) && unchanged(frameR)
      ensures HasSong() ==> isPlaying && !isPaused
      ensures HasSong() ==> frameR.Reset()
    {
      var song := musicManager.CurrentSong();
      if !Truthy(song) {
        return;
      }
      isPlaying := true;
      isPaused := false;
      frameR.sliderUsed := false;
      frameR.sliderPos := 0;
      frameR.currentTime := 0;
    }

    /** `toggle_play_pause`, bound to the space key and the play button. */
    method TogglePlayPause()
      requires Valid()
      modifies this`isPlaying, this`isPaused, frameR
      ensures Valid()
      ensures State() == Toggle(old(State()), HasSong())
      ensures old(isPlaying) && old(isPaused) ==> isPlaying && !isPaused && unchanged(frameR)
      ensures old(isPlaying) && !old(isPaused) ==> isPlaying && isPaused && unchanged(frameR)
      ensures !old(isPlaying) && !HasSong() ==> !isPlaying && !isPaused && unchanged(frameR)
      ensures !old(isPlaying) && HasSong() ==> isPlaying && !isPaused && frameR.Reset()
    {
      if !isPlaying {
        PlaySong();
      } else if isPaused {
        isPaused := false;
      } else {
        isPaused := true;
      }
    }

    /** `next_song`: the cursor moves on, then the new current track plays. */
    method NextSong()
      requires Valid()
      modifies this`isPlaying, this`isPaused, musicManager`currentIndex, frameR
      ensures Valid()
      ensures musicManager.musicFiles == old(musicManager.musicFiles)
      ensures HasSong() ==> musicManager.currentIndex == NextIndex(old(musicManager.currentIndex), |musicManager.musicFiles|)
      ensures HasSong() ==> frameR.Reset()
      ensures !HasSong() ==> musicManager.currentIndex == old(musicManager.currentIndex) && unchanged(frameR)
      ensures State() == Play(old(State()), HasSong())
    {
      var _ := musicManager.Next();
      PlaySong();
    }

    /** `prev_song`: the cursor moves back, then the new current track plays. */
    method PrevSong()
      requires Valid()
      modifies this`isPlaying, this`isPaused, musicManager`currentIndex, frameR
      ensures Valid()
      ensures musicManager.musicFiles == old(musicManager.musicFiles)
      ensures HasSong() ==> musicManager.currentIndex == PrevIndex(old(musicManager.currentIndex), |musicManager.musicFiles|)
      ensures HasSong() ==> frameR.Reset()
      ensures !HasSong() ==> musicManager.currentIndex == old(musicManager.currentIndex) && unchanged(frameR)
      ensures State() == Play(old(State()), HasSong())
    {
      var _ := musicManager.Prev();
      PlaySong();
    }

    /** `shuffle`: the playlist is reordered, then its first track plays. */
    method Shuffle()
      requires Valid()
      modifies this`isPlaying, this`isPaused, musicManager, frameR
      ensures Valid()
      ensures multiset(musicManager.musicFiles) == multiset(old(musicManager.musicFiles))
      ensures musicManager.currentIndex == 0
      ensures HasSong() ==> frameR.Reset()
      ensures !HasSong() ==> unchanged(frameR)
      ensures State() == Play(old(State()), HasSong())
    {
      ghost var before := musicManager.musicFiles;
      musicManager.ShuffleList();
      forall t | t in musicManager.musicFiles
        ensures t != ""
      {
        assert t in multiset(musicManager.musicFiles);
        assert t in before;
      }
      PlaySong();
    }

    /** `random`: the cursor jumps to a random track, which then plays. */
    method Random()
      requires Valid()
      modifies this`isPlaying, this`isPaused, musicManager`currentIndex, frameR
      ensures Valid()
      ensures musicManager.musicFiles == old(musicManager.musicFiles)
      ensures !HasSong() ==> musicManager.currentIndex == old(musicManager.currentIndex) && unchanged(frameR)
      ensures |musicManager.musicFiles| == 1 ==> musicManager.CurrentSong() == Some(musicManager.musicFiles[0])
      ensures HasSong() ==> frameR.Reset()
      ensures State() == Play(old(State()), HasSong())
    {
      var _ := musicManager.RandomSong();
      PlaySong();
    }

    /**
     * `SongListPanel.load_music_folder`: the manager is replaced, and its
     * first track played, only when the chosen folder yields at least one
     * track; a cancelled dialog, a failed listing or a folder without audio
     * files leave everything as it was.
     */
    method LoadMusicFolder(choice: string, listing: Option<seq<string>>)
      requires Valid()
      modifies this, frameR
      ensures Valid()
      ensures var files := if choice == "" || listing.None? then [] else FolderTracks(choice, listing.value);
        if files == [] then
          musicManager == old(musicManager) && isPlaying == old(isPlaying) && isPaused == old(isPaused)
          && unchanged(frameR)
        else
          fresh(musicManager) && musicManager.musicFiles == files && musicManager.currentIndex == 0
          && State() == Playing && frameR.Reset()
    {
      var newManager := MusicManager.GetFolder(choice, listing);
      if newManager.None? {
        return;
      }
      if newManager.value.musicFiles == [] {
        return;
      }
      musicManager := newManager.value;
      PlaySong();
    }

    /**
     * `SongListPanel.play_selected`: `selection` is the list box's
     * `curselection()`, whose rows mirror the playlist. An empty selection
     * raises IndexError, which is swallowed; otherwise the first selected
     * track becomes current and plays.
     */
    method PlaySelected(selection: seq<int>)
      requires Valid()
      requires forall k :: 0 <= k < |selection| ==> 0 <= selection[k] < |musicManager.musicFiles|
      modifies this`isPlaying, this`isPaused, musicManager`currentIndex, frameR
      ensures Valid()
      ensures musicManager.musicFiles == old(musicManager.musicFiles)
      ensures selection == [] ==> State() == old(State()) && unchanged(frameR)
      ensures selection == [] ==> musicManager.currentIndex == old(musicManager.currentIndex)
      ensures selection != [] ==> musicManager.currentIndex == selection[0] && State() == Playing && frameR.Reset()
    {
      if selection == [] {
        return;
      }
      musicManager.currentIndex := selection[0];
      PlaySong();
    }
  }
}
