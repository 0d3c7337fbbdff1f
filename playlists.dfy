/**
 * Playlist edits as list transformations: adding a library track the
 * playlist does not yet hold, and deleting the first entry with a path.
 */
module Playlists {
  import opened Wrappers
  import opened Tracks

  /** The message `add_song_to_playlist` ends with (the library miss shows none). */
  datatype AddOutcome = NoActivePlaylist | AlreadyPresent | NotInLibrary | Added

  /** The message `remove_song_from_playlist` ends with. */
  datatype RemoveOutcome = NoPlaylist | Removed | NotInPlaylist

  /** Which branch of `add_song_to_playlist` an active playlist takes. */
  function AddVerdict(playlist: seq<Track>, library: seq<Track>, path: string): (v: AddOutcome)
    ensures v != NoActivePlaylist
    ensures v == AlreadyPresent <==> HasPath(playlist, path)
    ensures v == NotInLibrary <==> !HasPath(playlist, path) && !HasPath(library, path)
  {
    if FirstIndexOf(playlist, path).Some? then AlreadyPresent
    else if FirstIndexOf(library, path).None? then NotInLibrary
    else Added
  }

  /** The playlist after `add_song_to_playlist`. */
  function AfterAdd(playlist: seq<Track>, library: seq<Track>, path: string): (r: seq<Track>)
    ensures AddVerdict(playlist, library, path) != Added ==> r == playlist
    ensures AddVerdict(playlist, library, path) == Added ==>
      && |r| == |playlist| + 1 && r[..|playlist|] == playlist
      && r[|playlist|] == library[FirstIndexOf(library, path).value]
      && r[|playlist|].path == path
  {
    match FirstIndexOf(library, path)
    case Some(k) => if FirstIndexOf(playlist, path).Some? then playlist else playlist + [library[k]]
    case None => playlist
  }

  /** Adding through `add_song_to_playlist` never creates a repeated path. */
  lemma AddKeepsPathsDistinct(playlist: seq<Track>, library: seq<Track>, path: string)
    requires DistinctPaths(playlist)
    ensures DistinctPaths(AfterAdd(playlist, library, path))
  {
    var r := AfterAdd(playlist, library, path);
    if AddVerdict(playlist, library, path) == Added {
      forall i, j | 0 <= i < j < |r| ensures r[i].path != r[j].path {
        if j == |playlist| {
          assert r[i] == playlist[i];
        } else {
          assert r[i] == playlist[i] && r[j] == playlist[j];
        }
      }
    }
  }

  /** The playlist after `remove_song_from_playlist`: the first entry with the path is deleted. */
  function RemoveFirstPath(ts: seq<Track>, path: string): (r: seq<Track>)
    ensures FirstIndexOf(ts, path).None? ==> r == ts
    ensures FirstIndexOf(ts, path).Some? ==>
      var i := FirstIndexOf(ts, path).value;
      |r| == |ts| - 1 && r[..i] == ts[..i] && r[i..] == ts[i + 1..]
  {
    match FirstIndexOf(ts, path)
    case None => ts
    case Some(i) => ts[..i] + ts[i + 1..]
  }

  /** Dropping position i of a sequence takes exactly that element out of its multiset. */
  lemma DropOne<T>(xs: seq<T>, i: nat)
    requires i < |xs|
    ensures multiset(xs[..i] + xs[i + 1..]) + multiset{xs[i]} == multiset(xs)
  {
    var before, after := xs[..i], xs[i + 1..];
    assert xs == before + [xs[i]] + after;
  }

  /** Removal deletes one entry holding the path and keeps every other entry. */
  lemma RemoveDeletesOne(ts: seq<Track>, path: string, i: nat)
    requires FirstIndexOf(ts, path) == Some(i)
    ensures ts[i].path == path
    ensures multiset(RemoveFirstPath(ts, path)) + multiset{ts[i]} == multiset(ts)
  {
    assert RemoveFirstPath(ts, path) == ts[..i] + ts[i + 1..];
    DropOne(ts, i);
  }

  /** In a playlist without repeats (how `add_song_to_playlist` builds one), the path is gone afterwards. */
  lemma RemoveFromDistinct(ts: seq<Track>, path: string)
    requires DistinctPaths(ts)
    ensures !HasPath(RemoveFirstPath(ts, path), path)
    ensures DistinctPaths(RemoveFirstPath(ts, path))
  {
    var r := RemoveFirstPath(ts, path);
    if FirstIndexOf(ts, path).Some? {
      var i := FirstIndexOf(ts, path).value;
      assert forall k :: 0 <= k < |r| ==> r[k] == (if k < i then ts[k] else ts[k + 1]);
      forall k | 0 <= k < |r| ensures r[k].path != path {
        if k >= i {
          assert ts[i].path != ts[k + 1].path;
        }
      }
    }
  }
}
