/**
 * `MusicManager` (music_app.py:17-61): an ordered list of track paths and
 * a cursor into it, moved in place by next, prev, random and shuffle.
 */
module Playlist {
  import opened Wrappers
  import opened Tracks
  import opened Cursor
  import PyRandom

  class MusicManager {
    var musicFiles: seq<TrackPath>
    var currentIndex: int

    /** The cursor is a valid index, or 0 while the list is empty. */
    ghost predicate Valid()
      reads this
    {
      if |musicFiles| == 0 then currentIndex == 0 else 0 <= currentIndex < |musicFiles|
    }

    /** `MusicManager(music_files)`: the given list (None or [] both give []), cursor at 0. */
    constructor (files: seq<TrackPath>)
      ensures Valid()
      ensures musicFiles == files && currentIndex == 0
    {
      musicFiles := files;
      currentIndex := 0;
    }

    /**
     * `MusicManager.get_folder`: `choice` is what the folder dialog returned
     * ("" when cancelled) and `listing` what `os.listdir` returned for it
     * (None when it raised, in which case get_folder raises too).
     */
    static method GetFolder(choice: string, listing: Option<seq<string>>) returns (r: Option<MusicManager>)
      ensures r.None? <==> choice != "" && listing.None?
      ensures r.Some? ==> fresh(r.value) && r.value.Valid() && r.value.currentIndex == 0
      ensures r.Some? && choice == "" ==> r.value.musicFiles == []
      ensures r.Some? && choice != "" ==> r.value.musicFiles == FolderTracks(choice, listing.value)
    {
      if choice != "" {
        if listing.None? {
          return None;
        }
        var m := new MusicManager(FolderTracks(choice, listing.value));
        return Some(m);
      }
      var m := new MusicManager([]);
      r := Some(m);
    }

    /** `current_song`: None exactly when the list is empty, else the track under the cursor. */
    function CurrentSong(): (r: Option<TrackPath>)
      reads this
      requires Valid()
      ensures r.None? <==> |musicFiles| == 0
      ensures r.Some? ==> r.value == musicFiles[currentIndex] && r.value in musicFiles
    {
      if |musicFiles| > 0 then Some(musicFiles[currentIndex]) else None
    }

    /** `next`: on a non-empty list the cursor moves one on, wrapping to 0. */
    method Next() returns (r: Option<TrackPath>)
      requires Valid()
      modifies this`currentIndex
      ensures Valid()
      ensures |musicFiles| == 0 ==> currentIndex == old(currentIndex) && r == None
      ensures |musicFiles| > 0 ==> currentIndex == NextIndex(old(currentIndex), |musicFiles|)
      ensures r == CurrentSong()
    {
      r := None;
      if |musicFiles| > 0 {
        currentIndex := (currentIndex + 1) % |musicFiles|;
        r := CurrentSong();
      }
    }

    /** `prev`: on a non-empty list the cursor moves one back, wrapping to the last track. */
    method Prev() returns (r: Option<TrackPath>)
      requires Valid()
      modifies this`currentIndex
      ensures Valid()
      ensures |musicFiles| == 0 ==> currentIndex == old(currentIndex) && r == None
      ensures |musicFiles| > 0 ==> currentIndex == PrevIndex(old(currentIndex), |musicFiles|)
      ensures r == CurrentSong()
    {
      r := None;
      if |musicFiles| > 0 {
        currentIndex := (currentIndex - 1) % |musicFiles|;
        r := CurrentSong();
      }
    }

    /** `random_song`: on a non-empty list the cursor jumps to any valid index. */
    method RandomSong() returns (r: Option<TrackPath>)
      requires Valid()
      modifies this`currentIndex
      ensures Valid()
      ensures |musicFiles| == 0 ==> currentIndex == old(currentIndex) && r == None
      ensures |musicFiles| > 0 ==> r == Some(musicFiles[currentIndex])
      ensures |musicFiles| == 1 ==> r == Some(musicFiles[0])
    {
      r := None;
      if |musicFiles| > 0 {
        currentIndex := PyRandom.RandInt(0, |musicFiles| - 1);
        r := CurrentSong();
      }
    }

    /** `shuffle_list`: the list is permuted in place and the cursor reset to 0. */
    method ShuffleList()
      requires Valid()
      modifies this
      ensures Valid()
      ensures |musicFiles| == |old(musicFiles)|
      ensures multiset(musicFiles) == multiset(old(musicFiles))
      ensures currentIndex == 0
    {
      musicFiles := PyRandom.Shuffle(musicFiles);
      currentIndex := 0;
    }
  }
}
