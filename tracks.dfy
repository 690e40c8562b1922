/**
 * Track paths and the folder scan of `MusicManager.get_folder`
 * (music_app.py:22-28): the directory listing is kept in listing order,
 * restricted to the names whose lower-cased form ends in ".mp3" or
 * ".wav", and each kept name is joined to the chosen folder.
 */
module Tracks {

  /** A track is the filesystem path of an audio file. */
  type TrackPath = string

  const SEP: char := '/'

  /** `str.lower` on one character, for the ASCII letters. */
  function LowerChar(c: char): (r: char) {
    if 'A' <= c <= 'Z' then (c as int + 32) as char else c
  }

  /** `str.lower`: the string with every ASCII upper-case letter folded. */
  function Lower(s: string): (r: string)
    ensures |r| == |s|
  {
    seq(|s|, i requires 0 <= i < |s| => LowerChar(s[i]))
  }

  /** `str.endswith(suffix)`. */
  predicate EndsWith(s: string, suffix: string) {
    |suffix| <= |s| && s[|s| - |suffix|..] == suffix
  }

  /** `s` ends with `suffix` exactly when it is some string followed by `suffix`. */
  lemma EndsWithIsSuffix(s: string, suffix: string)
    ensures EndsWith(s, suffix) <==> exists p :: p + suffix == s
  {
    if EndsWith(s, suffix) {
      assert s[..|s| - |suffix|] + suffix == s;
    }
    forall p | p + suffix == s
      ensures EndsWith(s, suffix)
    {
      assert s[|p|..] == suffix;
    }
  }

  /**
   * The test of music_app.py:26: `f.lower().endswith((".mp3", ".wav"))`.
   * It looks only at the last four characters: a dot, then "mp3" or "wav"
   * in any mix of cases.
   */
  predicate IsAudioName(name: string)
    ensures IsAudioName(name) <==>
      (|name| >= 4 && name[|name| - 4] == '.' &&
       ((LowerChar(name[|name| - 3]) == 'm' && LowerChar(name[|name| - 2]) == 'p' && name[|name| - 1] == '3') ||
        (LowerChar(name[|name| - 3]) == 'w' && LowerChar(name[|name| - 2]) == 'a' && LowerChar(name[|name| - 1]) == 'v')))
  {
    LowerEndsWith4(name, ".mp3");
    LowerEndsWith4(name, ".wav");
    EndsWith(Lower(name), ".mp3") || EndsWith(Lower(name), ".wav")
  }

  /** Whether the lower-cased name ends in a four-character suffix, character by character. */
  lemma LowerEndsWith4(name: string, ext: string)
    requires |ext| == 4
    ensures EndsWith(Lower(name), ext) <==>
      (|name| >= 4 && LowerChar(name[|name| - 4]) == ext[0] && LowerChar(name[|name| - 3]) == ext[1] &&
       LowerChar(name[|name| - 2]) == ext[2] && LowerChar(name[|name| - 1]) == ext[3])
  {
    var n := |name|;
    if n >= 4 {
      var tail := Lower(name)[n - 4..];
      assert tail == [tail[0], tail[1], tail[2], tail[3]];
    }
  }

  /**
   * `os.path.join(folder, name)` as POSIX defines it: an absolute `name`
   * replaces the folder, an empty folder or one ending in the separator
   * is extended directly, otherwise a separator is put between the two.
   */
  function JoinPath(folder: string, name: string): (r: TrackPath)
    ensures EndsWith(r, name)
    ensures folder != "" ==> r != ""
  {
    if |name| > 0 && name[0] == SEP then name
    else if folder == "" || folder[|folder| - 1] == SEP then folder + name
    else folder + [SEP] + name
  }

  /** The names of a listing that the folder scan keeps, in listing order. */
  function AudioNames(names: seq<string>): (r: seq<string>)
    ensures |r| <= |names|
  {
    if names == [] then []
    else (if IsAudioName(names[0]) then [names[0]] else []) + AudioNames(names[1..])
  }

  /** The list comprehension of music_app.py:26: the kept names, each joined to `folder`. */
  function FolderTracks(folder: string, names: seq<string>): (r: seq<TrackPath>)
    ensures |r| == |AudioNames(names)|
    ensures forall i :: 0 <= i < |r| ==> EndsWith(r[i], AudioNames(names)[i])
    ensures forall t :: t in r ==> IsAudioName(t)
    ensures folder != "" ==> forall t :: t in r ==> t != ""
  {
    var kept := AudioNames(names);
    var r := seq(|kept|, i requires 0 <= i < |kept| => JoinPath(folder, kept[i]));
    assert forall t :: t in r ==> IsAudioName(t) by {
      forall t | t in r ensures IsAudioName(t) {
        var i :| 0 <= i < |kept| && r[i] == t;
        AudioNamesMember(names, kept[i]);
        AudioSuffix(kept[i], t);
      }
    }
    r
  }

  /** Folding case commutes with taking a suffix. */
  lemma LowerSuffix(s: string, k: nat)
    requires k <= |s|
    ensures Lower(s)[k..] == Lower(s[k..])
  {
  }

  /** Whether a path is an audio file depends only on how it ends. */
  lemma AudioSuffix(name: string, s: string)
    requires EndsWith(s, name)
    requires IsAudioName(name)
    ensures IsAudioName(s)
  {
    var k := |s| - |name|;
    LowerSuffix(s, k);
    assert Lower(s)[k..] == Lower(name);
    var ext := if EndsWith(Lower(name), ".mp3") then ".mp3" else ".wav";
    assert EndsWith(Lower(name), ext);
    assert Lower(s)[|s| - 4..] == Lower(name)[|name| - 4..];
  }

  /** The scan distributes over a split of the listing, so it keeps listing order. */
  lemma {:induction false} AudioNamesAppend(a: seq<string>, b: seq<string>)
    ensures AudioNames(a + b) == AudioNames(a) + AudioNames(b)
  {
    if a == [] {
      assert a + b == b;
    } else {
      var head := if IsAudioName(a[0]) then [a[0]] else [];
      assert AudioNames(a + b) == head + AudioNames(a[1..] + b) by {
        assert (a + b)[0] == a[0];
        assert (a + b)[1..] == a[1..] + b;
      }
      AudioNamesAppend(a[1..], b);
      assert head + (AudioNames(a[1..]) + AudioNames(b)) == (head + AudioNames(a[1..])) + AudioNames(b);
    }
  }

  /** The scan keeps exactly the audio names, each as often as it is listed. */
  lemma {:induction false} AudioNamesCount(names: seq<string>, x: string)
    ensures multiset(AudioNames(names))[x] == if IsAudioName(x) then multiset(names)[x] else 0
  {
    if names != [] {
      var head := if IsAudioName(names[0]) then [names[0]] else [];
      AudioNamesCount(names[1..], x);
      assert multiset(AudioNames(names)) == multiset(head) + multiset(AudioNames(names[1..]));
      assert multiset(names) == multiset{names[0]} + multiset(names[1..]) by {
        assert names == [names[0]] + names[1..];
      }
    }
  }

  /** A name is kept exactly when it is listed and is an audio name. */
  lemma AudioNamesMember(names: seq<string>, x: string)
    ensures x in AudioNames(names) <==> x in names && IsAudioName(x)
  {
    AudioNamesCount(names, x);
    assert x in AudioNames(names) <==> x in multiset(AudioNames(names));
    assert x in names <==> x in multiset(names);
  }

  /** The scan of a listing is the scan of its first name followed by the scan of the rest. */
  lemma AudioNamesCons(x: string, rest: seq<string>)
    ensures AudioNames([x] + rest) == (if IsAudioName(x) then [x] else []) + AudioNames(rest)
  {
    assert ([x] + rest)[1..] == rest;
  }

  /** Upper-case extensions are accepted; other extensions and bare words are not. */
  lemma AudioNameExamples()
    ensures IsAudioName("A.mp3") && IsAudioName("B.MP3") && IsAudioName("C.wav")
    ensures !IsAudioName("notes.txt") && !IsAudioName("mp3")
  {
    assert Lower("A.mp3")[1..] == ".mp3";
    assert Lower("B.MP3")[1..] == ".mp3";
    assert Lower("C.wav")[1..] == ".wav";
    assert Lower("notes.txt")[5..] == ".txt";
  }

  /** A scan of four names keeps the three audio names, in listing order. */
  lemma AudioNamesExample()
    ensures AudioNames(["A.mp3", "notes.txt", "B.MP3", "C.wav"]) == ["A.mp3", "B.MP3", "C.wav"]
  {
    AudioNameExamples();
    AudioNamesCons("C.wav", []);
    AudioNamesCons("B.MP3", ["C.wav"]);
    AudioNamesCons("notes.txt", ["B.MP3", "C.wav"]);
    AudioNamesCons("A.mp3", ["notes.txt", "B.MP3", "C.wav"]);
  }

  /** The i-th path of a folder scan is the folder joined to the i-th kept name. */
  lemma FolderTracksAt(folder: string, names: seq<string>, i: nat)
    requires i < |AudioNames(names)|
    ensures FolderTracks(folder, names)[i] == JoinPath(folder, AudioNames(names)[i])
  {
  }

  /** The same scan in the folder "/music" joins the three kept names to it, in listing order. */
  lemma FolderTracksExample()
    ensures FolderTracks("/music", ["A.mp3", "notes.txt", "B.MP3", "C.wav"])
      == [JoinPath("/music", "A.mp3"), JoinPath("/music", "B.MP3"), JoinPath("/music", "C.wav")]
  {
    var names := ["A.mp3", "notes.txt", "B.MP3", "C.wav"];
    AudioNamesExample();
    FolderTracksAt("/music", names, 0);
    FolderTracksAt("/music", names, 1);
    FolderTracksAt("/music", names, 2);
  }

  /**
   * `os.path.join` on POSIX: a separator is put between a folder and a
   * relative name, a folder that already ends in one is extended directly,
   * and an absolute name replaces the folder.
   */
  lemma JoinPathExamples()
    ensures JoinPath("/music", "A.mp3") == "/music/A.mp3"
    ensures JoinPath("/music/", "A.mp3") == "/music/A.mp3"
    ensures JoinPath("", "A.mp3") == "A.mp3"
    ensures JoinPath("/music", "/other/B.wav") == "/other/B.wav"
  {
  }
}
