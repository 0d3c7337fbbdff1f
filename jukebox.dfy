/**
 * The playback session of the jukebox window: the fields `BackToTheJukebox`
 * updates from its event handlers and periodic ticks, and one method per
 * handler or tick body. The audio engine's busy flag and position, the
 * clock and the outcome of loading a file are parameters.
 */
module Jukebox {
  import opened Wrappers
  import opened Tracks
  import opened Sequencer
  import opened Playlists
  import opened Position
  import opened Library
  import opened Persistence

  /** Which list objects the session's names are bound to. */
  datatype Binding = Binding(
    currentTrackList: TrackList?,
    currentPlaylist: TrackList?,
    filteredLibrary: TrackList,
    playlistsData: map<string, TrackList>)

  /** The progress widgets and the monitor's schedule. */
  datatype Display = Display(progressValue: real, progressText: string, userDragging: bool, monitorRunning: bool)

  const InitialProgressText: string := "0:00 / 0:00"

  class Session {
    const library: TrackList
    var filteredLibrary: TrackList
    var currentPlaylist: TrackList?
    var playlistsData: map<string, TrackList>

    var currentTrackList: TrackList?
    var currentTrackIndex: Option<nat>
    var currentTrackDuration: nat
    var storedNextSong: Option<Track>
    var randomMode: bool
    var playStartTime: Option<real>
    var playOffset: real
    var nextSongLabel: string
    /** The path last handed to the engine's `load` and `play`. */
    var loaded: Option<string>

    var progressValue: real
    var progressText: string
    var userDragging: bool
    /** Whether `monitor_playback` is still scheduled with `after`. */
    var monitorRunning: bool

    /** The library list is never a playlist, so playlist edits leave it alone. */
    ghost predicate Valid()
      reads this
    {
      library !in playlistsData.Values && currentPlaylist != library
    }

    ghost function Snapshot(): Playback
      reads this, currentTrackList
    {
      Playback(
        if currentTrackList == null then None else Some(currentTrackList.tracks),
        currentTrackIndex, currentTrackDuration, storedNextSong, randomMode,
        playStartTime, playOffset, nextSongLabel, loaded)
    }

    ghost function Bindings(): Binding
      reads this
    {
      Binding(currentTrackList, currentPlaylist, filteredLibrary, playlistsData)
    }

    ghost function Widgets(): Display
      reads this
    {
      Display(progressValue, progressText, userDragging, monitorRunning)
    }

    /** The list `play_track_by_path` plays from: the loaded playlist, else the library. */
    function ActiveList(): (r: TrackList)
      reads this
      ensures r == currentPlaylist || (currentPlaylist == null && r == library)
    {
      if currentPlaylist != null then currentPlaylist else library
    }

    /** The state after start-up, given the scanned library and the stored playlists. */
    constructor (libraryTracks: seq<Track>, stored: map<string, TrackList>)
      ensures Valid() && fresh(library) && fresh(filteredLibrary)
      ensures library.tracks == libraryTracks && filteredLibrary.tracks == [] && playlistsData == stored
      ensures currentPlaylist == null && currentTrackList == null
      ensures Snapshot() == Playback(None, None, 0, None, false, None, 0.0, NoNextSongText, None)
      ensures Widgets() == Display(0.0, InitialProgressText, false, true)
    {
      library := new TrackList(libraryTracks);
      filteredLibrary := new TrackList([]);
      currentPlaylist := null;
      playlistsData := stored;
      currentTrackList := null;
      currentTrackIndex := None;
      currentTrackDuration := 0;
      storedNextSong := None;
      randomMode := false;
      playStartTime := None;
      playOffset := 0.0;
      nextSongLabel := NoNextSongText;
      loaded := None;
      progressValue := 0.0;
      progressText := InitialProgressText;
      userDragging := false;
      monitorRunning := true;
    }

    // ------------------------------------------------------------ sequencer

    /** `update_next_song_label`; an exception escapes as `err`. */
    method UpdateNextSongLabel() returns (err: Option<Failure>)
      modifies this
      ensures LabelRefreshed(old(Snapshot()), Snapshot(), err)
      ensures Bindings() == old(Bindings()) && Widgets() == old(Widgets())
    {
      if storedNextSong.Some? {
        nextSongLabel := NextSongText(storedNextSong.value);
        return None;
      }
      if currentTrackList != null && currentTrackIndex.Some? {
        var pick := ChooseLookahead(currentTrackList.tracks, currentTrackIndex.value, randomMode);
        if pick.Raise? {
          return Some(pick.failure);
        }
        storedNextSong := Some(pick.value);
        nextSongLabel := NextSongText(pick.value);
        return None;
      }
      nextSongLabel := NoNextSongText;
      return None;
    }

    /**
     * The body of the selection loop for the matching entry `idx`: set the
     * index and the duration, then store the lookahead (which can raise).
     */
    method SelectEntry(idx: nat) returns (failure: Option<Failure>)
      requires currentTrackList != null && idx < |currentTrackList.tracks|
      modifies this
      ensures Bindings() == old(Bindings()) && Widgets() == old(Widgets())
      ensures Snapshot() == old(Snapshot()).(index := Some(idx), duration := currentTrackList.tracks[idx].duration,
                                             next := Snapshot().next)
      ensures CanLookahead(|currentTrackList.tracks|, idx, randomMode) ==>
        && failure == None && storedNextSong.Some?
        && IsLookahead(currentTrackList.tracks, idx, randomMode, storedNextSong.value)
      ensures !CanLookahead(|currentTrackList.tracks|, idx, randomMode) ==>
        failure == Some(ChoiceFromEmpty) && storedNextSong == old(storedNextSong)
    {
      var ts := currentTrackList.tracks;
      currentTrackIndex := Some(idx);
      currentTrackDuration := ts[idx].duration;
      var pick := ChooseLookahead(ts, idx, randomMode);
      if pick.Raise? {
        return Some(ChoiceFromEmpty);
      }
      storedNextSong := Some(pick.value);
      return None;
    }

    /**
     * The selection loop of `play_track_by_path`: the active list becomes
     * current and its first entry with `path`, if any, sets the index, the
     * duration and the lookahead; `failure` is what the loop raises.
     */
    method SelectPath(path: string) returns (failure: Option<Failure>)
      requires Valid()
      modifies this
      ensures Valid()
      ensures Selected(old(Snapshot()), old(ActiveList().tracks), path, Snapshot())
      ensures failure == SelectionFailure(old(ActiveList().tracks), path, old(randomMode))
      ensures Bindings() == old(Bindings()).(currentTrackList := old(ActiveList()))
      ensures Widgets() == old(Widgets())
    {
      currentTrackList := ActiveList();
      var ts := currentTrackList.tracks;
      var found := IndexOfPath(ts, path);
      if found.Some? {
        failure := SelectEntry(found.value);
      } else {
        failure := None;
      }
    }

    /**
     * `play_track_by_path`: select the first entry with `path` in the active
     * list, load and play the file, re-base the clock and refresh the label.
     * Every exception is caught and shown as `dialog`.
     */
    method PlayTrackByPath(path: string, loadOk: bool, now: real) returns (dialog: Option<Failure>)
      requires Valid()
      modifies this
      ensures Valid()
      ensures PlayedPath(old(Snapshot()), old(ActiveList().tracks), path, loadOk, now, Snapshot(), dialog)
      ensures Bindings() == old(Bindings()).(currentTrackList := old(ActiveList()))
      ensures Widgets() == old(Widgets())
    {
      var failure := SelectPath(path);
      if failure.Some? {
        return failure;
      }
      if !loadOk {
        return Some(LoadFailed);
      }
      ghost var m := Snapshot();
      loaded := Some(path);
      playStartTime := Some(now);
      playOffset := 0.0;
      assert Snapshot() == Started(m, path, now);
      dialog := UpdateNextSongLabel();
    }

    /**
     * `play_next_song`: move the index (shuffle roll or next in order) and
     * play that entry's path. Its own exceptions are not caught: `escaped`.
     */
    method PlayNextSong(loadOk: bool, now: real) returns (escaped: Option<Failure>, dialog: Option<Failure>)
      requires Valid()
      modifies this
      ensures Valid()
      ensures exists k :: Advanced(old(Snapshot()), old(ActiveList().tracks), k, loadOk, now, Snapshot(), escaped, dialog)
      ensures escaped.Some? || old(currentTrackList) == null || old(currentTrackIndex).None? ==>
        Bindings() == old(Bindings())
      ensures escaped.None? && old(currentTrackList) != null && old(currentTrackIndex).Some? ==>
        Bindings() == old(Bindings()).(currentTrackList := old(ActiveList()))
      ensures Widgets() == old(Widgets())
    {
      if currentTrackList == null || currentTrackIndex.None? {
        assert Advanced(old(Snapshot()), old(ActiveList().tracks), 0, loadOk, now, Snapshot(), None, None);
        return None, None;
      }
      var ts := currentTrackList.tracks;
      var cur := currentTrackIndex.value;
      var next: nat;
      if randomMode {
        var roll := RollShuffle(|ts|, cur);
        if roll.Raise? {
          assert Advanced(old(Snapshot()), old(ActiveList().tracks), 0, loadOk, now, Snapshot(), Some(roll.failure), None);
          return Some(roll.failure), None;
        }
        next := roll.value;
      } else {
        next := cur + 1;
        if next >= |ts| {
          next := 0;
        }
      }
      currentTrackIndex := Some(next);
      if next >= |ts| {
        assert Advanced(old(Snapshot()), old(ActiveList().tracks), next, loadOk, now, Snapshot(), Some(IndexOutOfRange), None);
        return Some(IndexOutOfRange), None;
      }
      ghost var p := Snapshot();
      assert p == old(Snapshot()).(index := Some(next));
      dialog := PlayTrackByPath(ts[next].path, loadOk, now);
      escaped := None;
      assert Advanced(old(Snapshot()), old(ActiveList().tracks), next, loadOk, now, Snapshot(), escaped, dialog);
    }

    /**
     * `toggle_shuffle`: flip the mode, drop the lookahead and refresh the
     * label under the new mode; an exception from the refresh escapes.
     */
    method ToggleShuffle() returns (escaped: Option<Failure>)
      modifies this
      ensures randomMode == !old(randomMode)
      ensures LabelRefreshed(old(Snapshot()).(shuffle := !old(randomMode), next := None), Snapshot(), escaped)
      ensures Bindings() == old(Bindings()) && Widgets() == old(Widgets())
    {
      randomMode := !randomMode;
      storedNextSong := None;
      escaped := UpdateNextSongLabel();
    }

    // ------------------------------------------------ position and monitor

    /** One `update_progress_bar` tick with the engine's busy flag and position. */
    method ProgressTick(now: real, busy: bool, posMs: int)
      modifies this
      ensures Snapshot() == old(Snapshot()) && Bindings() == old(Bindings())
      ensures userDragging == old(userDragging) && monitorRunning == old(monitorRunning)
      ensures !(busy && old(playStartTime).Some?) ==> Widgets() == old(Widgets())
      ensures busy && old(playStartTime).Some? ==>
        var e := Elapsed(now, playStartTime.value, playOffset, posMs);
        && progressText == ProgressText(e, currentTrackDuration)
        && progressValue == if userDragging then old(progressValue) else e
    {
      if busy && playStartTime.Some? {
        var elapsed := Elapsed(now, playStartTime.value, playOffset, posMs);
        if !userDragging {
          progressValue := elapsed;
        }
        progressText := ProgressText(elapsed, currentTrackDuration);
      }
    }

    /** The slider's button-press binding: a drag starts. */
    method OnProgressPress()
      modifies this
      ensures userDragging
      ensures Snapshot() == old(Snapshot()) && Bindings() == old(Bindings())
      ensures Widgets() == old(Widgets()).(userDragging := true)
    {
      userDragging := true;
    }

    /**
     * `on_progress_release` with the slider at `pos`: the engine seek is
     * best-effort (its failure is swallowed), the clock is re-based so that
     * the wall estimate is `pos`, and the drag ends.
     */
    method OnProgressRelease(pos: real, now: real)
      modifies this
      ensures playStartTime == Some(SeekStart(now, pos)) && playOffset == 0.0
      ensures WallEstimate(now, playStartTime.value, playOffset) == pos
      ensures Snapshot() == old(Snapshot()).(start := Some(SeekStart(now, pos)), offset := 0.0)
      ensures Bindings() == old(Bindings())
      ensures Widgets() == old(Widgets()).(userDragging := false)
    {
      userDragging := true;
      playStartTime := Some(SeekStart(now, pos));
      playOffset := 0.0;
      userDragging := false;
      SeekRebases(now, pos, now);
    }

    /**
     * One `monitor_playback` tick. When the guard holds the session advances;
     * an exception escaping `play_next_song` also skips the re-scheduling.
     */
    method MonitorTick(now: real, busy: bool, posMs: int, loadOk: bool)
      returns (fired: bool, escaped: Option<Failure>, dialog: Option<Failure>)
      requires Valid() && monitorRunning
      modifies this
      ensures Valid()
      ensures fired == ShouldAdvance(old(currentTrackDuration), old(playStartTime), old(playOffset), now, busy, posMs)
      ensures !fired ==> Snapshot() == old(Snapshot()) && Bindings() == old(Bindings()) && escaped == None && dialog == None
      ensures fired ==>
        exists k :: Advanced(old(Snapshot()), old(ActiveList().tracks), k, loadOk, now, Snapshot(), escaped, dialog)
      ensures fired && (escaped.Some? || old(currentTrackList) == null || old(currentTrackIndex).None?) ==>
        Bindings() == old(Bindings())
      ensures fired && escaped.None? && old(currentTrackList) != null && old(currentTrackIndex).Some? ==>
        Bindings() == old(Bindings()).(currentTrackList := old(ActiveList()))
      ensures Widgets() == old(Widgets()).(monitorRunning := escaped.None?)
    {
      fired := ShouldAdvance(currentTrackDuration, playStartTime, playOffset, now, busy, posMs);
      escaped, dialog := None, None;
      if fired {
        escaped, dialog := PlayNextSong(loadOk, now);
      }
      ghost var q := Snapshot();
      if escaped.Some? {
        monitorRunning := false;
      }
      assert Snapshot() == q;
    }

    // ---------------------------------------------------- playlist editing

    /** `add_song_to_playlist`: append the library's first track with `path`. */
    method AddSongToPlaylist(path: string) returns (outcome: AddOutcome)
      requires Valid()
      modifies currentPlaylist
      ensures Valid() && library.tracks == old(library.tracks)
      ensures currentPlaylist == null ==> outcome == NoActivePlaylist
      ensures currentPlaylist != null ==>
        && outcome == AddVerdict(old(currentPlaylist.tracks), library.tracks, path)
        && currentPlaylist.tracks == AfterAdd(old(currentPlaylist.tracks), library.tracks, path)
      ensures currentPlaylist != null && currentTrackList == currentPlaylist ==> Snapshot().list == Some(currentPlaylist.tracks)
    {
      if currentPlaylist == null {
        return NoActivePlaylist;
      }
      var present := IndexOfPath(currentPlaylist.tracks, path);
      if present.Some? {
        return AlreadyPresent;
      }
      var hit := IndexOfPath(library.tracks, path);
      if hit.None? {
        return NotInLibrary;
      }
      currentPlaylist.tracks := currentPlaylist.tracks + [library.tracks[hit.value]];
      return Added;
    }

    /** `remove_song_from_playlist`: delete the first entry with `path`. */
    method RemoveSongFromPlaylist(path: string) returns (outcome: RemoveOutcome)
      requires Valid()
      modifies currentPlaylist
      ensures Valid() && library.tracks == old(library.tracks)
      ensures currentPlaylist == null ==> outcome == NoPlaylist
      ensures currentPlaylist != null ==>
        && outcome == (if HasPath(old(currentPlaylist.tracks), path) then Removed else NotInPlaylist)
        && currentPlaylist.tracks == RemoveFirstPath(old(currentPlaylist.tracks), path)
      ensures currentPlaylist != null && currentTrackList == currentPlaylist ==> Snapshot().list == Some(currentPlaylist.tracks)
    {
      if currentPlaylist == null {
        return NoPlaylist;
      }
      var found := IndexOfPath(currentPlaylist.tracks, path);
      if found.None? {
        return NotInPlaylist;
      }
      var i := found.value;
      currentPlaylist.tracks := currentPlaylist.tracks[..i] + currentPlaylist.tracks[i + 1..];
      return Removed;
    }

    /**
     * `create_playlist_and_add` with the name typed into the dialog (empty
     * when cancelled): bind the name to a new empty list, make it current, add.
     */
    method CreatePlaylistAndAdd(path: string, name: string) returns (outcome: Option<AddOutcome>)
      requires Valid()
      modifies this
      ensures Valid() && Snapshot() == old(Snapshot()) && Widgets() == old(Widgets())
      ensures name == "" ==> Bindings() == old(Bindings()) && outcome == None
      ensures name != "" ==>
        && currentPlaylist != null && fresh(currentPlaylist)
        && Bindings() == old(Bindings()).(currentPlaylist := currentPlaylist,
                                          playlistsData := old(playlistsData)[name := currentPlaylist])
        && currentPlaylist.tracks == AfterAdd([], library.tracks, path)
        && outcome == Some(AddVerdict([], library.tracks, path))
    {
      if name == "" {
        return None;
      }
      var freshList := new TrackList([]);
      currentPlaylist := freshList;
      playlistsData := playlistsData[name := freshList];
      var added := AddSongToPlaylist(path);
      return Some(added);
    }

    /**
     * `_create_new_playlist`: bind the name to the current playlist, or to a
     * new empty one when none is loaded. The old name and the new one then
     * share one list object.
     */
    method CreateNewPlaylist(name: string)
      requires Valid()
      modifies this
      ensures Valid() && Snapshot() == old(Snapshot()) && Widgets() == old(Widgets())
      ensures name == "" ==> Bindings() == old(Bindings())
      ensures name != "" ==>
        && currentPlaylist != null
        && (old(currentPlaylist) != null ==> currentPlaylist == old(currentPlaylist))
        && (old(currentPlaylist) == null ==> fresh(currentPlaylist) && currentPlaylist.tracks == [])
        && Bindings() == old(Bindings()).(currentPlaylist := currentPlaylist,
                                          playlistsData := old(playlistsData)[name := currentPlaylist])
    {
      if name == "" {
        return;
      }
      if currentPlaylist == null {
        currentPlaylist := new TrackList([]);
      }
      playlistsData := playlistsData[name := currentPlaylist];
    }

    /**
     * `load_playlist` and its `load_sel` button with the list-box selection:
     * nothing opens without stored playlists; a selected name becomes both
     * the current playlist and the filtered view (the same object).
     */
    method LoadPlaylist(selection: Option<string>) returns (shown: bool)
      requires Valid()
      modifies this
      ensures Valid() && Snapshot() == old(Snapshot()) && Widgets() == old(Widgets())
      ensures shown == (playlistsData != map[])
      ensures !shown || selection.None? ==> Bindings() == old(Bindings())
      ensures shown && selection.Some? ==>
        && filteredLibrary == currentPlaylist
        && (selection.value in playlistsData ==> currentPlaylist == playlistsData[selection.value])
        && (selection.value !in playlistsData ==> fresh(currentPlaylist) && currentPlaylist.tracks == [])
        && Bindings() == old(Bindings()).(currentPlaylist := currentPlaylist, filteredLibrary := filteredLibrary)
      ensures shown && selection.Some? && currentPlaylist.tracks == [] ==>
        ViewTracks(filteredLibrary.tracks, library.tracks) == library.tracks
      ensures shown && selection.Some? && currentPlaylist.tracks != [] ==>
        ViewTracks(filteredLibrary.tracks, library.tracks) == currentPlaylist.tracks
    {
      if playlistsData == map[] {
        return false;
      }
      if selection.Some? {
        var name := selection.value;
        var chosen: TrackList;
        if name in playlistsData {
          chosen := playlistsData[name];
        } else {
          chosen := new TrackList([]);
        }
        currentPlaylist := chosen;
        filteredLibrary := chosen;
      }
      return true;
    }

    /** `show_all_music`: no playlist is active and the view shows the whole library. */
    method ShowAllMusic()
      requires Valid()
      modifies this
      ensures Valid() && Snapshot() == old(Snapshot()) && Widgets() == old(Widgets())
      ensures currentPlaylist == null && fresh(filteredLibrary) && filteredLibrary.tracks == []
      ensures Bindings() == old(Bindings()).(currentPlaylist := null, filteredLibrary := filteredLibrary)
      ensures ViewTracks(filteredLibrary.tracks, library.tracks) == library.tracks
    {
      currentPlaylist := null;
      filteredLibrary := new TrackList([]);
    }

    /** `search_library` with the text of the search box. */
    method SearchLibrary(text: string)
      requires Valid()
      modifies this
      ensures Valid() && Snapshot() == old(Snapshot()) && Widgets() == old(Widgets())
      ensures fresh(filteredLibrary) && filteredLibrary.tracks == SearchResults(library.tracks, text)
      ensures Bindings() == old(Bindings()).(filteredLibrary := filteredLibrary)
    {
      filteredLibrary := new TrackList(SearchResults(library.tracks, text));
    }

    /** The artist groups `update_library_view` puts in the tree. */
    function LibraryView(): (gs: seq<ArtistGroup>)
      reads this, filteredLibrary, library
      ensures WellGrouped(ViewTracks(filteredLibrary.tracks, library.tracks), gs)
    {
      var shown := ViewTracks(filteredLibrary.tracks, library.tracks);
      GroupByArtistCorrect(shown);
      GroupByArtist(shown)
    }

    /** `save_current_playlist`: what would be written, or nothing without an active playlist. */
    method SaveCurrentPlaylist() returns (written: Option<map<string, seq<SavedTrack>>>)
      ensures currentPlaylist == null <==> written.None?
      ensures written.Some? ==> written.value.Keys == playlistsData.Keys
      ensures written.Some? ==> forall name :: name in playlistsData ==>
        written.value[name] == SavedList(playlistsData[name].tracks)
    {
      if currentPlaylist == null {
        return None;
      }
      return Some(SavePlaylists(playlistsData));
    }
  }

  // ------------------------------------------------------------ scenarios

  /**
   * Playing the first of two tracks in order announces the second; the
   * monitor's advance then plays the second and announces the first.
   */
  method PlayInOrderScenario(a: Track, b: Track) returns (first: string, second: string, playing: Option<string>)
    requires a.path != b.path
    ensures first == NextSongText(b) && second == NextSongText(a) && playing == Some(b.path)
  {
    var s := new Session([a, b], map[]);
    ghost var p := s.Snapshot();
    var d1 := s.PlayTrackByPath(a.path, true, 0.0);
    ghost var q1 := s.Snapshot();
    first := s.nextSongLabel;
    var e2, d2 := s.PlayNextSong(true, 1.0);
    ghost var k :| Advanced(q1, [a, b], k, true, 1.0, s.Snapshot(), e2, d2);
    TwoTrackScenario(a, b, p, q1, d1, k, s.Snapshot(), e2, d2, 0.0, 1.0);
    second := s.nextSongLabel;
    playing := s.loaded;
  }

  /** A track added to a new playlist is what saving writes for that name. */
  method RoadTripScenario(a: Track, b: Track) returns (saved: Option<map<string, seq<SavedTrack>>>)
    requires a.path != b.path
    ensures saved == Some(map["Road Trip" := [Saved(a)]])
  {
    var s := new Session([a, b], map[]);
    var added := s.CreatePlaylistAndAdd(a.path, "Road Trip");
    assert FirstIndexOf([a, b], a.path) == Some(0);
    assert s.currentPlaylist.tracks == [a];
    assert SavedList([a]) == [Saved(a)];
    saved := s.SaveCurrentPlaylist();
    assert saved.value.Keys == {"Road Trip"};
    assert saved.value["Road Trip"] == [Saved(a)];
    assert saved.value == map["Road Trip" := [Saved(a)]];
  }

  /**
   * `_create_new_playlist` binds a second name to the loaded list, so a
   * removal under one name shows under the other.
   */
  method SharedPlaylistScenario(a: Track) returns (copy: seq<Track>, original: seq<Track>)
    ensures copy == [] && original == []
  {
    var s := new Session([a], map[]);
    var added := s.CreatePlaylistAndAdd(a.path, "Mix");
    assert FirstIndexOf([a], a.path) == Some(0);
    s.CreateNewPlaylist("Copy");
    var removed := s.RemoveSongFromPlaylist(a.path);
    copy := s.playlistsData["Copy"].tracks;
    original := s.playlistsData["Mix"].tracks;
  }

  /**
   * Removing the only track of the playlist that is playing empties the
   * list under the index; the next advance raises out of the monitor,
   * which is then no longer scheduled.
   */
  method RemovingPlayingTrackScenario(a: Track, now: real) returns (escaped: Option<Failure>, running: bool)
    requires a.duration > 0 && now >= a.duration as real
    ensures escaped == Some(IndexOutOfRange) && !running
  {
    var s := new Session([a], map[]);
    var added := s.CreatePlaylistAndAdd(a.path, "Solo");
    assert FirstIndexOf([a], a.path) == Some(0);
    var d1 := s.PlayTrackByPath(a.path, true, 0.0);
    assert s.currentTrackIndex == Some(0) && s.currentTrackList == s.currentPlaylist;
    var removed := s.RemoveSongFromPlaylist(a.path);
    assert s.currentTrackList.tracks == [];
    var fired, d2;
    fired, escaped, d2 := s.MonitorTick(now, false, 0, true);
    running := s.monitorRunning;
  }
}
