/**
 * The media entities the listener reads: bitmaps (as opaque tokens with a size),
 * media controllers with their playback state and metadata, and the track key
 * that decides whether a metadata update is a new song.
 */
module Media {
  import opened Wrappers

  /** Package name of the one application whose sessions and notifications are followed. */
  const SpotifyPackage: string := "com.spotify.music"

  /** A bitmap: no pixels, only an identity and its size in pixels. */
  datatype Bitmap = Bitmap(id: nat, width: nat, height: nat)

  /**
   * `PlaybackState.state`; every state the listener does not name is `OtherState`, with
   * the platform's integer code. Only the constructor matters to the listener: an
   * `OtherState` whose code equals a named state's code is still treated as unnamed, so
   * the model never builds one for `PLAYING`, `PAUSED`, `STOPPED` or `NONE`.
   */
  datatype PlaybackState = Playing | Paused | Stopped | NoState | OtherState(code: int)

  /** The parts of a `MediaMetadata` the listener reads. */
  datatype Metadata = Metadata(
    title: Option<string>,      // METADATA_KEY_TITLE
    artist: Option<string>,     // METADATA_KEY_ARTIST
    albumArt: Option<Bitmap>,   // METADATA_KEY_ALBUM_ART
    art: Option<Bitmap>)        // METADATA_KEY_ART

  /** A `MediaController`: an identity and the package of the session it controls. */
  datatype Controller = Controller(id: nat, packageName: string)

  /** What a controller reports when it is asked: `playbackState?.state` and `metadata`. */
  datatype Live = Live(state: Option<PlaybackState>, metadata: Option<Metadata>)

  /** What a controller reports now; a controller the map does not know reports nothing. */
  function LiveOf(live: map<nat, Live>, c: Controller): Live
  {
    if c.id in live then live[c.id] else Live(None, None)
  }

  /** `activeController?.metadata`. */
  function LiveMetadata(live: map<nat, Live>, active: Option<Controller>): (r: Option<Metadata>)
    ensures active.None? ==> r.None?
  {
    if active.Some? then LiveOf(live, active.value).metadata else None
  }

  /** A nullable string inside a Kotlin string template: `null` prints as "null". */
  function Template(s: Option<string>): string
  {
    s.GetOr("null")
  }

  /** The key `"$title-$artist"` that identifies the current song. */
  function SongKey(title: Option<string>, artist: Option<string>): string
  {
    Template(title) + "-" + Template(artist)
  }

  function TrackKey(md: Metadata): string
  {
    SongKey(md.title, md.artist)
  }

  predicate NoDash(s: string)
  {
    forall i :: 0 <= i < |s| ==> s[i] != '-'
  }

  /** For titles without a dash, the key tells tracks apart: equal keys mean equal title and artist. */
  lemma {:induction false} SongKeyInjective(t1: string, a1: string, t2: string, a2: string)
    requires NoDash(t1) && NoDash(t2)
    ensures SongKey(Some(t1), Some(a1)) == SongKey(Some(t2), Some(a2)) <==> t1 == t2 && a1 == a2
  {
    var k1, k2 := SongKey(Some(t1), Some(a1)), SongKey(Some(t2), Some(a2));
    assert k1 == t1 + "-" + a1 && k2 == t2 + "-" + a2;
    if k1 == k2 {
      // the first dash of each key ends its title
      TitleEndsAtFirstDash(t1, a1);
      TitleEndsAtFirstDash(t2, a2);
      assert |t1| == |t2|;
      assert t1 == k1[..|t1|] == k2[..|t2|] == t2;
      assert a1 == k1[|t1| + 1..] == k2[|t2| + 1..] == a2;
    }
  }

  lemma TitleEndsAtFirstDash(t: string, a: string)
    requires NoDash(t)
    ensures (t + "-" + a)[|t|] == '-'
    ensures forall i :: 0 <= i < |t| ==> (t + "-" + a)[i] != '-'
  {
  }

  /** A dash in a title makes two different tracks share one key, so the second is taken for a repeat. */
  lemma SongKeyCollision()
    ensures SongKey(Some("A-B"), Some("C")) == SongKey(Some("A"), Some("B-C"))
  {
    assert SongKey(Some("A-B"), Some("C")) == "A-B-C";
    assert SongKey(Some("A"), Some("B-C")) == "A-B-C";
  }

  /** A missing title and the title "null" give the same key. */
  lemma MissingTitleIsNullText(artist: Option<string>)
    ensures SongKey(None, artist) == SongKey(Some("null"), artist)
  {
  }

  /**
   * `controllers?.find { it.packageName == "com.spotify.music" }`: the first controller
   * of the list that belongs to Spotify, and none for a missing list.
   */
  function FindSpotify(controllers: Option<seq<Controller>>): Option<Controller>
  {
    if controllers.None? then None else FirstSpotify(controllers.value)
  }

  ghost predicate IsFirstSpotify(cs: seq<Controller>, c: Controller)
  {
    exists i :: 0 <= i < |cs| && cs[i] == c && c.packageName == SpotifyPackage &&
      forall j :: 0 <= j < i ==> cs[j].packageName != SpotifyPackage
  }

  function FirstSpotify(cs: seq<Controller>): Option<Controller>
  {
    if cs == [] then None
    else if cs[0].packageName == SpotifyPackage then Some(cs[0])
    else FirstSpotify(cs[1..])
  }

  /** The search finds the first Spotify controller, and finds none only when there is none. */
  lemma FindSpotifyIsFirst(controllers: Option<seq<Controller>>)
    ensures FindSpotify(controllers).Some? ==>
      controllers.Some? && IsFirstSpotify(controllers.value, FindSpotify(controllers).value)
    ensures FindSpotify(controllers).None? ==>
      controllers.None? || forall c :: c in controllers.value ==> c.packageName != SpotifyPackage
  {
    if controllers.Some? {
      FirstSpotifyIsFirst(controllers.value);
    }
  }

  lemma {:induction false} FirstSpotifyIsFirst(cs: seq<Controller>)
    ensures FirstSpotify(cs).Some? ==> IsFirstSpotify(cs, FirstSpotify(cs).value)
    ensures FirstSpotify(cs).None? ==> forall c :: c in cs ==> c.packageName != SpotifyPackage
  {
    if cs == [] {
    } else if cs[0].packageName == SpotifyPackage {
      assert cs[0] == cs[0];
    } else {
      var r := FirstSpotify(cs[1..]);
      FirstSpotifyIsFirst(cs[1..]);
      if r.Some? {
        var i :| 0 <= i < |cs[1..]| && cs[1..][i] == r.value && r.value.packageName == SpotifyPackage &&
          forall j :: 0 <= j < i ==> cs[1..][j].packageName != SpotifyPackage;
        assert cs[i + 1] == r.value;
        forall j | 0 <= j < i + 1 ensures cs[j].packageName != SpotifyPackage {
          if j > 0 { assert cs[j] == cs[1..][j - 1]; }
        }
      } else {
        forall c | c in cs ensures c.packageName != SpotifyPackage {
          if c != cs[0] { assert c in cs[1..]; }
        }
      }
    }
  }
}
