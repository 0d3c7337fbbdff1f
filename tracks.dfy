/**
 * The track record the jukebox keeps for every scanned audio file, and the
 * mutable list object that the library, every playlist and the filtered view
 * are made of.
 */
module Tracks {
  import opened Wrappers

  /** The thumbnail taken from an MP3's picture frame, or none. */
  datatype Artwork = NoArtwork | Thumbnail(rgb: seq<int>)

  /**
   * One library entry: the metadata dictionary built at scan time. `path` is
   * the identity of a track; `duration` is whole seconds, 0 when unknown.
   */
  datatype Track = Track(
    path: string,
    title: string,
    artist: string,
    album: string,
    duration: nat,
    art: Artwork)

  /**
   * A Python list of tracks. The library, each stored playlist and the search
   * result are separate objects, and two names may refer to the same one.
   */
  class TrackList {
    var tracks: seq<Track>

    constructor (ts: seq<Track>)
      ensures tracks == ts
    {
      tracks := ts;
    }
  }

  /** No two entries share a path. */
  predicate DistinctPaths(ts: seq<Track>)
  {
    forall i, j :: 0 <= i < j < |ts| ==> ts[i].path != ts[j].path
  }

  /** Some entry has the given path (the `any(...)` test of the source). */
  predicate HasPath(ts: seq<Track>, path: string)
  {
    exists i :: 0 <= i < |ts| && ts[i].path == path
  }

  /** The index of the first entry with the given path. */
  function FirstIndexOf(ts: seq<Track>, path: string): (r: Option<nat>)
    ensures r.Some? ==> r.value < |ts| && ts[r.value].path == path
    ensures r.Some? ==> forall j :: 0 <= j < r.value ==> ts[j].path != path
    ensures r.None? <==> !HasPath(ts, path)
    decreases |ts|
  {
    if ts == [] then None
    else if ts[0].path == path then Some(0)
    else match FirstIndexOf(ts[1..], path)
      case None => None
      case Some(k) => Some(k + 1)
  }

  /**
   * The `for idx, track in enumerate(...)` scan that stops at the first
   * entry whose path matches.
   */
  method IndexOfPath(ts: seq<Track>, path: string) returns (r: Option<nat>)
    ensures r == FirstIndexOf(ts, path)
  {
    var i := 0;
    while i < |ts|
      invariant 0 <= i <= |ts|
      invariant forall j :: 0 <= j < i ==> ts[j].path != path
    {
      if ts[i].path == path {
        return Some(i);
      }
      i := i + 1;
    }
    return None;
  }

  /** In a list without repeated paths, every entry is the first one with its path. */
  lemma FirstIndexOfDistinct(ts: seq<Track>, k: nat)
    requires DistinctPaths(ts) && k < |ts|
    ensures FirstIndexOf(ts, ts[k].path) == Some(k)
  {
    var r := FirstIndexOf(ts, ts[k].path);
    assert r.Some? by {
      assert HasPath(ts, ts[k].path);
    }
  }
}
