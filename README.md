# Music player playlist and playback model

A Dafny model of the logic in `music_app.py`, a Tk desktop music player. The player keeps a
playlist of track paths with a cursor (`MusicManager`). It fills the playlist from a folder the
user picks, keeping only `.mp3` and `.wav` files. It drives playback through two flags,
`is_playing` and `is_paused`, on the `Application` window.

Modules:

- `Wrappers`: `Option`, the model of Python's `None`.
- `PyRandom`: `random.randint` and `random.shuffle`. Each random draw is a nondeterministic
  choice (`:|`) within the range Python guarantees. `Shuffle` is CPython's Fisher-Yates loop,
  and every outcome of it is proved to be a permutation.
- `Tracks`: the folder scan of `get_folder`. It covers `str.lower`, `str.endswith`,
  POSIX `os.path.join` and the list comprehension that keeps audio names in listing order.
- `Cursor`: the wrap-around index arithmetic of `next` and `prev`, and what repeated steps do.
- `Playlist`: the class `MusicManager`, whose methods update `currentIndex` and `musicFiles`
  in place.
- `Player`: the three-state reading of the two flags, and the seek targets. The class
  `ImagePanel` holds the seek flag and slider value. The class `Application` holds the playlist
  reference and the flags. Its methods also model `SongListPanel.load_music_folder` and
  `play_selected`. The panel's `music_manager` is always the parent's, so the model keeps a
  single reference.

The directory listing and the dialog's answer are parameters. The answer is `""` when the
dialog is cancelled. A listing of `None` stands for `os.listdir` raising. The mixer accepting a
seek is the boolean `setPosOk`. Mixer, widget and timer calls are no-ops.

## Model

| member | source | states |
|---|---|---|
| `Tracks.Lower` | music_app.py:26 | `str.lower` on ASCII letters; the length is unchanged |
| `Tracks.EndsWithIsSuffix` | music_app.py:26 | `str.endswith` holds exactly when the string is some prefix followed by the suffix |
| `Tracks.IsAudioName` | music_app.py:26 | `f.lower().endswith((".mp3", ".wav"))` holds exactly when the last four characters are a dot followed by `mp3` or `wav` in any mix of cases |
| `Tracks.LowerEndsWith4` | music_app.py:26 | the lower-cased name ends in a four-character suffix exactly when its last four characters fold to it one by one |
| `Tracks.JoinPath` | music_app.py:26 | `os.path.join(folder, f)` ends with `f`, and is non-empty when the folder is non-empty |
| `Tracks.AudioNames` | music_app.py:26 | the kept names are never more than the listed names |
| `Tracks.AudioNamesCount` | music_app.py:26 | each name is kept exactly as often as it is listed if its lower-cased form ends in `.mp3` or `.wav`, and never otherwise |
| `Tracks.AudioNamesMember` | music_app.py:26 | a name is kept if and only if it is listed and is an audio name |
| `Tracks.AudioNamesAppend` | music_app.py:26 | scanning a concatenated listing is concatenating the scans, so listing order is kept |
| `Tracks.FolderTracks` | music_app.py:26 | one path per kept name, in order: the i-th path ends with the i-th kept name; every path itself ends in an audio extension; no path is empty when the folder is not |
| `Tracks.FolderTracksAt` | music_app.py:26 | the i-th path is the folder joined to the i-th kept name |
| `Tracks.AudioSuffix` | music_app.py:26 | whether a path is an audio file depends only on its ending, so joining a folder in front keeps the test true |
| `Tracks.AudioNameExamples` | music_app.py:26 | `A.mp3`, `B.MP3` and `C.wav` pass the test; `notes.txt` and `mp3` do not |
| `Tracks.AudioNamesCons` | music_app.py:26 | the scan of a listing is the scan of its first name followed by the scan of the rest |
| `Tracks.AudioNamesExample` | music_app.py:26 | the listing `A.mp3, notes.txt, B.MP3, C.wav` keeps `A.mp3, B.MP3, C.wav` in that order |
| `Tracks.FolderTracksExample` | music_app.py:26 | the same listing in `/music` gives the folder joined to `A.mp3`, `B.MP3` and `C.wav`, in that order |
| `Tracks.JoinPathExamples` | music_app.py:26 | `os.path.join` puts one `/` between `/music` and `A.mp3`, none after a folder already ending in `/` or an empty folder, and lets an absolute name replace the folder |
| `PyRandom.RandInt` | music_app.py:55 | `random.randint(a, b)` lies in the closed range `[a, b]` |
| `PyRandom.Shuffle` | music_app.py:60 | `random.shuffle` returns a permutation: same length and same multiset, for every outcome of its draws |
| `Cursor.NextIndex` | music_app.py:43 | `(i + 1) % n` is a valid index; it is `i + 1` before the last track and 0 from the last |
| `Cursor.PrevIndex` | music_app.py:49 | `(i - 1) % n` is a valid index; it is `i - 1` after the first track and `n - 1` from index 0 |
| `Cursor.PrevUndoesNext` | music_app.py:41-50 | `prev` after `next` leaves the cursor where it was |
| `Cursor.NextUndoesPrev` | music_app.py:41-50 | `next` after `prev` leaves the cursor where it was |
| `Cursor.AdvanceWithoutWrap` | music_app.py:41-44 | k calls of `next` that do not reach the end move the cursor k places on |
| `Cursor.AdvanceCompose` | music_app.py:41-44 | a + b calls of `next` are a calls followed by b calls |
| `Cursor.FullCycle` | music_app.py:41-44 | n calls of `next` on n tracks bring the cursor back to its start |
| `Cursor.Periodic` | music_app.py:41-44 | the cursor after k calls of `next` repeats with period n |
| `Playlist.MusicManager.constructor` | music_app.py:18-20 | the playlist is the given list and the cursor is 0 |
| `Playlist.MusicManager.GetFolder` | music_app.py:22-28 | a cancelled dialog gives an empty playlist; a failed listing raises; otherwise the playlist is the folder scan; the cursor is 0 |
| `Playlist.MusicManager.CurrentSong` | music_app.py:35-38 | `None` exactly when the list is empty, otherwise the track under the cursor |
| `Playlist.MusicManager.Next` | music_app.py:41-44 | on an empty list nothing changes and `None` is returned; otherwise the cursor becomes `NextIndex` of the old one and the new current track is returned; the list is unchanged |
| `Playlist.MusicManager.Prev` | music_app.py:47-50 | the same with `PrevIndex` |
| `Playlist.MusicManager.RandomSong` | music_app.py:53-56 | on an empty list nothing changes; otherwise the cursor is some valid index and its track is returned; a one-track list always returns that track |
| `Playlist.MusicManager.ShuffleList` | music_app.py:59-61 | the list keeps its length and multiset of paths, and the cursor is reset to 0 |
| `Player.StateOf` | music_app.py:110-120 | Stopped exactly when `is_playing` is false; Paused exactly when both flags are set |
| `Player.Play` | music_app.py:90-98 | with a track to play the state becomes Playing; without one it stays as it was |
| `Player.Toggle` | music_app.py:110-120 | the result is Paused exactly when the state was Playing; it is Stopped exactly when it was Stopped with no track to play |
| `Player.ToggleTwice` | music_app.py:110-120 | two presses of space from Playing or Paused come back to the same state |
| `Player.ForwardTarget` | music_app.py:302 | the forward target is five seconds later, with no upper clamp |
| `Player.BackwardTarget` | music_app.py:313-314 | the backward target is never negative; it is five seconds earlier when that is not negative, else 0 |
| `Player.SeekRoundTrip` | music_app.py:300-320 | back after forward returns to any non-negative position |
| `Player.SeekBackClamp` | music_app.py:311-320 | forward after back returns to the position if and only if it was at least five seconds |
| `Player.ImagePanel.constructor` | music_app.py:149 | the slider starts unused, at 0 |
| `Player.ImagePanel.SeekSong` | music_app.py:290-297 | when `current_song()` is truthy (a non-empty path) the slider is marked as user-set; nothing else changes |
| `Player.ImagePanel.SeekForward` | music_app.py:300-308 | when `current_song()` is falsy (no track, or an empty path) nothing changes; otherwise the slider is marked as user-set and moves to the forward target only when the mixer accepts the jump |
| `Player.ImagePanel.SeekBackward` | music_app.py:311-320 | the same with the clamped backward target |
| `Player.Application.constructor` | music_app.py:65-85 | an empty playlist, both flags false, the slider unused and at 0 |
| `Player.Application.PlaySong` | music_app.py:90-107 | with an empty playlist nothing changes; otherwise playing, not paused, slider unused and at 0; the invariant that paused implies playing and that no path is empty is kept |
| `Player.Application.TogglePlayPause` | music_app.py:110-120 | the new state is `Toggle` of the old one: Stopped plays the current track if there is one (and resets the slider as `play_song` does), Paused resumes, Playing pauses; pausing and resuming leave the slider alone |
| `Player.Application.NextSong` | music_app.py:123-125 | the cursor moves by `NextIndex`, the track plays and the slider is reset to 0 and handed back to the timer; on an empty playlist nothing changes |
| `Player.Application.PrevSong` | music_app.py:128-130 | the cursor moves by `PrevIndex`, the track plays and the slider is reset; on an empty playlist nothing changes |
| `Player.Application.Shuffle` | music_app.py:133-136 | the playlist is permuted, the cursor is 0, the first track plays and the slider is reset; on an empty playlist flags and slider are unchanged |
| `Player.Application.Random` | music_app.py:139-141 | the cursor jumps to a random track, which plays with the slider reset; a one-track playlist plays its track; an empty one changes nothing |
| `Player.Application.LoadMusicFolder` | music_app.py:342-352 | the playlist is replaced, and its first track played with the slider reset, only when the folder scan is non-empty; a cancelled dialog, a failed listing or a folder without audio files leave playlist, flags and slider unchanged |
| `Player.Application.PlaySelected` | music_app.py:368-374 | an empty selection changes neither cursor, flags nor slider; otherwise the first selected row becomes the cursor and plays with the slider reset |

## Left out

- The progress poll `ImagePanel.timer_status`, with its float positions, `MM:SS` formatting, string comparison for the end of a track and Tk timer scheduling. It is not modelled, so neither is the automatic move to the next track. `PlaySong` models only the slider and time resets that `play_song` does itself.
- The mixer calls `load`, `play`, `pause`, `unpause` and `set_pos` are no-ops. A failing `load` or `play` inside `play_song` is not modelled. A failing `set_pos` in the seek keys is the parameter `setPosOk`.
- Slider values are whole seconds. The widget's own float values and its clipping to its range are not modelled.
- The folder dialog and `os.listdir` are parameters. `os.path.join` is modelled by its POSIX rules only, not its Windows ones.
- Tracks.Lower: folds only the ASCII letters A-Z; the other Unicode case mappings of Python's `str.lower` are not modelled. For the audio-name test this loses nothing: no other character lower-cases to `.`, `m`, `p`, `3`, `w`, `a` or `v`.
- Tracks.AudioNames: its own contract bounds only the length; the exact contents and order are stated by `AudioNamesCount`, `AudioNamesMember` and `AudioNamesAppend`.
- Background images, resizing, canvas layout, button labels, key bindings and list box refresh and highlight are UI and are not modelled.
- `get_all_files` is not a separate member: it returns the `musicFiles` field.
- Python list aliasing is not modelled. `MusicManager(music_files)` keeps the caller's list object, so a shuffle would also reorder the caller's list. The model copies the list as a value instead.
