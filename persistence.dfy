/**
 * The in-memory side of saving playlists: every stored playlist is written
 * as a list of five-field records, so artwork and any other transient field
 * is dropped. Reading the file back yields tracks without artwork.
 */
module Persistence {
  import opened Tracks

  /** The JSON object written for one track. */
  datatype SavedTrack = SavedTrack(path: string, title: string, artist: string, album: string, duration: nat)

  /** The record written for a track: reading it back gives the track without its artwork. */
  function Saved(t: Track): (s: SavedTrack)
    ensures Restored(s) == t.(art := NoArtwork)
  {
    SavedTrack(t.path, t.title, t.artist, t.album, t.duration)
  }

  /** A track as it comes back from the playlists file: it carries no artwork. */
  function Restored(s: SavedTrack): (t: Track)
    ensures t.art == NoArtwork
  {
    Track(s.path, s.title, s.artist, s.album, s.duration, NoArtwork)
  }

  /** The list written for one playlist, entry by entry and in order. */
  function SavedList(ts: seq<Track>): (r: seq<SavedTrack>)
    ensures |r| == |ts|
    ensures forall i :: 0 <= i < |ts| ==> r[i] == Saved(ts[i])
  {
    seq(|ts|, i requires 0 <= i < |ts| => Saved(ts[i]))
  }

  function RestoredList(ss: seq<SavedTrack>): (r: seq<Track>)
    ensures |r| == |ss|
    ensures forall i :: 0 <= i < |ss| ==> r[i] == Restored(ss[i])
  {
    seq(|ss|, i requires 0 <= i < |ss| => Restored(ss[i]))
  }

  /** The `serializable` dictionary built by `save_playlists`. */
  function SavePlaylists(data: map<string, TrackList>): (r: map<string, seq<SavedTrack>>)
    reads data.Values
    ensures r.Keys == data.Keys
    ensures forall name :: name in data ==> r[name] == SavedList(data[name].tracks)
  {
    map name | name in data :: SavedList(data[name].tracks)
  }

  /** A list with every track's artwork dropped. */
  function WithoutArt(ts: seq<Track>): (r: seq<Track>)
    ensures |r| == |ts|
    ensures forall i :: 0 <= i < |ts| ==> r[i].art == NoArtwork && r[i].(art := ts[i].art) == ts[i]
  {
    seq(|ts|, i requires 0 <= i < |ts| => ts[i].(art := NoArtwork))
  }

  /** Saving and reading back keeps every field except the artwork. */
  lemma SaveRestore(ts: seq<Track>)
    ensures RestoredList(SavedList(ts)) == WithoutArt(ts)
  {
  }

  /** A restored list saves to exactly the records it was read from. */
  lemma RestoreSave(ss: seq<SavedTrack>)
    ensures SavedList(RestoredList(ss)) == ss
  {
  }

  /**
   * Reading back what `save_playlists` writes gives every stored name, each
   * with its list's tracks in order and without artwork.
   */
  lemma LoadAfterSave(data: map<string, TrackList>)
    ensures SavePlaylists(data).Keys == data.Keys
    ensures forall name :: name in data ==> RestoredList(SavePlaylists(data)[name]) == WithoutArt(data[name].tracks)
  {
    forall name | name in data
      ensures RestoredList(SavePlaylists(data)[name]) == WithoutArt(data[name].tracks)
    {
      SaveRestore(data[name].tracks);
    }
  }
}
