# Back to the Jukebox — playback session model

A Dafny model of the playback session of *Back to the Jukebox*, a desktop
music player in one Python file (`back_2_the_jukebox.py`). The model covers
the fields of the `BackToTheJukebox` window that its event handlers and
periodic ticks update:

- which list is playing, the index into it and the track's duration;
- the stored "Next Song" lookahead and its label;
- shuffle mode;
- the wall-clock start time and seek offset used to estimate the position;
- the progress label and slider, and whether the end-of-track monitor is
  still scheduled;
- the library, the filtered view, the current playlist and the named
  playlists, with Python's list aliasing kept. A playlist, the library and
  the filtered view are `Tracks.TrackList` objects, so two names bound to
  one list see each other's edits.

The modules follow the program's concerns:
| module | what it holds |
|---|---|
| `Wrappers` | `Option` |
| `Tracks` | the track record, the list object, first-match lookup by path |
| `Text` | ASCII lower-casing, substring search, decimal text and its parser |
| `Library` | audio-file suffixes, the music-folder list, search, the artist grouping of the tree view |
| `Persistence` | the five-field records `save_playlists` writes, and reading them back |
| `Position` | elapsed time, seeking, the auto-advance guard, the `m:ss / m:ss` label |
| `Sequencer` | lookahead and advance rules, exceptions, the session as a value (`Playback`) and its transitions as predicates |
| `Playlists` | adding to and removing from the current playlist, on values |
| `Jukebox` | `Session`, one method per handler or tick, and scenarios over it |

Each `Session` method is tied to the value-level rules by its `ensures`.
It states how `Snapshot()` after the call relates to `old(Snapshot())` in
terms of the `Sequencer` predicates. The `Sequencer` lemmas then prove what
those transitions promise.

The environment is passed in as parameters:

- the clock reading `now`;
- the engine's `get_busy()` flag and `get_pos()` in milliseconds;
- whether `pygame.mixer.music.load` succeeds (`loadOk`);
- the text typed into a dialog, and the list-box selection.

A random choice is any value the Python call could return: `ChooseLookahead`
and `RollShuffle` pick with `:|`. An exception is a `Sequencer.Failure`. The
handler either catches it and reports it as a `dialog` (`play_track_by_path`)
or passes it on as `escaped` (`play_next_song`, `toggle_shuffle`).

### Behaviour of the code worth knowing

- A track of duration 0 never auto-advances (`if self.current_track_duration`
  is false for 0).
- Switching the active list (load a playlist, show all music) keeps the
  index and the lookahead.
- `play_next_song` does not use the stored lookahead when shuffling. It
  rolls a new index, so in shuffle mode the announced track and the one
  played next can differ.
- Shuffle on a one-track list: the selection loop calls `random.choice` on
  an empty list. The exception is caught as a dialog before the load, so
  the track is not re-loaded and the clock is not re-based. The monitor
  fires again on every tick. It does not replay the single track.
- The index is not kept in range. Removing tracks from a playlist that is
  playing changes the list under the index. On a non-empty list the next
  advance raises nothing out of the monitor (in order an index past the
  end wraps to 0). Once the playing list is empty the advance fails:
  `IndexOutOfRange` in order, `EmptyRandRange` in shuffle
  (`RemovingPlayingTrackScenario` shows the first). An escaped
  exception skips the `after(200, ...)` at the end of `monitor_playback`,
  so auto-advance stops for the session.
- After a seek, `play_offset` is always 0. The start time itself is
  re-based.
- Lines 492-535 define `monitor_playback`, `play_next_song`,
  `update_next_song_label` and `toggle_shuffle` a first time. The later,
  identical definitions at 629-672 replace them. The model cites the later
  ones.

## Model
| member | source | states |
|---|---|---|
| Tracks.FirstIndexOf | back_2_the_jukebox.py:395-397 | the result is the position of the first entry with the path, and it is absent exactly when no entry has that path |
| Tracks.IndexOfPath | back_2_the_jukebox.py:395-397 | the scanning loop returns the first entry with the path, or none |
| Tracks.FirstIndexOfDistinct | back_2_the_jukebox.py:395-397 | on a list whose paths are distinct, lookup by the path of entry k finds k |
| Text.Lower | back_2_the_jukebox.py:317 | the lowered text has the same length and no upper-case letter, and text without upper-case letters is left as it is |
| Text.LowerIdempotent | back_2_the_jukebox.py:322 | lowering text that is already lowered changes nothing, so the lowered query and the lowered title are in the same case |
| Text.LowerAppend | back_2_the_jukebox.py:322 | lower-casing distributes over concatenation |
| Text.ContainsAt | back_2_the_jukebox.py:322 | `query in s` holds exactly when the query occurs at some offset of s |
| Text.DigitChar | back_2_the_jukebox.py:477 | a digit below ten is written as the matching decimal character |
| Text.DigitValue | back_2_the_jukebox.py:477 | reading a decimal character gives the digit that writes it back |
| Text.NatToText | back_2_the_jukebox.py:477 | a number is written as a non-empty string of decimal digits |
| Text.ParseNatToText | back_2_the_jukebox.py:477 | reading the decimal text of a natural number gives that number back |
| Text.ParseIntToText | back_2_the_jukebox.py:477 | reading the decimal text of any integer, with its sign, gives it back |
| Library.IsAudioFile | back_2_the_jukebox.py:251 | the suffix test of the scan; its meaning is stated by Library.AudioFileIgnoresCase, Library.AudioFileBySuffix and Library.NonAudioFile |
| Library.AudioFileIgnoresCase | back_2_the_jukebox.py:251 | whether a file counts as audio does not depend on letter case |
| Library.AudioFileBySuffix | back_2_the_jukebox.py:251 | a name ending in .mp3, .wav or .flac in any case is an audio file |
| Library.NonAudioFile | back_2_the_jukebox.py:251 | a name ending in none of the three suffixes is not scanned |
| Library.AddMusicFolder | back_2_the_jukebox.py:226-232 | a cancelled dialog or a folder already listed leaves the list as it is; any other folder is appended once at the end; a list without duplicates keeps none |
| Library.AddMusicFolderIdempotent | back_2_the_jukebox.py:230-232 | adding the same folder twice equals adding it once |
| Library.Matches | back_2_the_jukebox.py:322 | the search test on title and artist; Text.ContainsAt and Text.LowerIdempotent state what it checks, Library.Filter and Library.SearchResults use it |
| Library.Filter | back_2_the_jukebox.py:321-322 | each matching track occurs in the result as often as in the library, and a track that does not match does not occur |
| Library.FilterKeepsOrder | back_2_the_jukebox.py:321-322 | the matches come in library order, as a subsequence |
| Library.SearchResults | back_2_the_jukebox.py:316-322 | an empty lowered query gives the empty view; otherwise the result is exactly the matching library tracks, each as often as in the library |
| Library.SearchKeepsLibraryOrder | back_2_the_jukebox.py:316-322 | search results are a subsequence of the library |
| Library.ViewTracks | back_2_the_jukebox.py:294 | which list the tree shows; what this means after a load is stated by Jukebox.Session.LoadPlaylist and Jukebox.Session.ShowAllMusic |
| Library.AddToGroups | back_2_the_jukebox.py:298 | one `setdefault(...).append` step; proved about it: Library.AddToGroupsShape, Library.AddToGroupsDistinct, Library.AddToGroupsCover, Library.AddToGroupsExact, Library.AddToGroupsOrdered |
| Library.GroupByArtist | back_2_the_jukebox.py:295-298 | the artist dictionary in insertion order; Library.GroupByArtistCorrect proves it a correct grouping |
| Library.GroupIndex | back_2_the_jukebox.py:298 | gives the position of the artist's group, or none when no group has that artist |
| Library.FirstByArtist | back_2_the_jukebox.py:296-298 | the first position holding a track by the artist, with no earlier one |
| Library.FirstByArtistSnoc | back_2_the_jukebox.py:296-298 | appending a track leaves the first appearance of every artist unchanged, and puts a new artist's first appearance at the end |
| Library.ByArtistSnoc | back_2_the_jukebox.py:298 | an appended track joins its own artist's group at the end |
| Library.ByArtistNone | back_2_the_jukebox.py:298 | an artist that never appears has no tracks |
| Library.AddToGroupsShape | back_2_the_jukebox.py:298 | one `setdefault(...).append` step extends the matching group or adds a new one at the end |
| Library.AddToGroupsDistinct | back_2_the_jukebox.py:298 | one step keeps at most one group per artist |
| Library.AddToGroupsCover | back_2_the_jukebox.py:298 | after one step the groups are exactly the artists seen so far |
| Library.AddToGroupsExact | back_2_the_jukebox.py:298 | after one step every group holds exactly its artist's tracks, in order |
| Library.AddToGroupsArtists | back_2_the_jukebox.py:298 | one step keeps every group's artist in place and opens at most one group, only for an artist without one |
| Library.AddToGroupsOrderedPair | back_2_the_jukebox.py:296-298 | after one step any two groups are still ordered by their artists' first tracks |
| Library.AddToGroupsOrdered | back_2_the_jukebox.py:298 | after one step the groups are still in order of first appearance |
| Library.GroupByArtistCorrect | back_2_the_jukebox.py:295-314 | the grouping has one group per artist, the artists are those of the listed tracks, each group holds its artist's tracks in list order, and groups come in order of first appearance |
| Persistence.Saved | back_2_the_jukebox.py:69-75 | reading a saved record back gives the track with its artwork dropped |
| Persistence.Restored | back_2_the_jukebox.py:51-60 | a track read back from the file has no artwork |
| Persistence.SavePlaylists | back_2_the_jukebox.py:65-75 | the dictionary `save_playlists` builds; what reading it back gives is stated by Persistence.LoadAfterSave |
| Persistence.SaveRestore | back_2_the_jukebox.py:51-75 | saving a list and reading it back gives its tracks in order, each without artwork |
| Persistence.RestoreSave | back_2_the_jukebox.py:51-75 | a list read back saves to exactly the records it was read from |
| Persistence.LoadAfterSave | back_2_the_jukebox.py:51-75 | reading back what saving writes gives every stored playlist name, each with its list's tracks in order and without artwork |
| Position.Elapsed | back_2_the_jukebox.py:469-472 | elapsed time is the larger of the wall estimate and the engine position |
| Position.SeekRebases | back_2_the_jukebox.py:481-490 | right after a seek the wall estimate equals the target; it then runs with the clock, and elapsed is never below the target at the seek instant or any later time |
| Position.ShouldAdvance | back_2_the_jukebox.py:630-634 | the monitor's guard; proved about it: Position.ZeroDurationNeverAdvances, Position.BusyNeverAdvances, Position.NoAdvanceRightAfterStart, Position.AdvanceStaysArmed |
| Position.ZeroDurationNeverAdvances | back_2_the_jukebox.py:629-635 | a track of zero duration never triggers an advance |
| Position.BusyNeverAdvances | back_2_the_jukebox.py:629-635 | no advance while the engine reports it is busy |
| Position.NoAdvanceRightAfterStart | back_2_the_jukebox.py:629-635 | an idle engine just after a start does not advance while both clocks are more than a second from the end |
| Position.AdvanceStaysArmed | back_2_the_jukebox.py:629-635 | once the guard holds with an idle engine, it keeps holding at every later time, as long as the engine stays idle and its reported position does not go back |
| Position.Trunc | back_2_the_jukebox.py:477 | `int(x)` truncates toward zero |
| Position.TwoDigits | back_2_the_jukebox.py:477 | `:02d` of a number below 100 is two digits that denote it |
| Position.Clock | back_2_the_jukebox.py:477 | the `m:ss` text; Position.ClockShape, Position.ClockRoundTrip and Position.ClockHasNoSpace state what it shows |
| Position.ProgressText | back_2_the_jukebox.py:477 | the progress label; Position.ProgressTextRoundTrip proves it shows the truncated elapsed seconds and the duration |
| Position.ClockShape | back_2_the_jukebox.py:477 | a clock text ends in a colon and two digits denoting seconds below 60 |
| Position.ClockRoundTrip | back_2_the_jukebox.py:477 | the `m:ss` text of t seconds, with floor division and modulo, reads back as t, negative t included |
| Position.ClockHasNoSpace | back_2_the_jukebox.py:477 | a clock text contains no blank |
| Position.ProgressTextRoundTrip | back_2_the_jukebox.py:473-477 | the progress label reads back as the truncated elapsed seconds and the duration |
| Sequencer.LookaheadIndex | back_2_the_jukebox.py:399 | the sequential lookahead index lies inside the list |
| Sequencer.AdvanceIndex | back_2_the_jukebox.py:647-649 | for an index inside the list the advance is the successor modulo the length; an index past the end restarts at 0 |
| Sequencer.AdvanceMatchesLookahead | back_2_the_jukebox.py:647-649 | for an index in range, the lookahead rule and the advance rule pick the same index, and the last index wraps to 0 |
| Sequencer.StaleIndexDisagrees | back_2_the_jukebox.py:647-649 | for an index i at or past the end of a list of n > 0 entries (a shortened list), the advance picks position 0 and the lookahead position (i + 1) mod n, so the two differ exactly when (i + 1) mod n is not 0 |
| Sequencer.LookaheadExists | back_2_the_jukebox.py:398-402 | the lookahead computation succeeds exactly when there is a track it may choose |
| Sequencer.ShuffleLookaheadNotCurrent | back_2_the_jukebox.py:402 | with distinct paths, a shuffled lookahead never names the current track |
| Sequencer.ChooseLookahead | back_2_the_jukebox.py:658-662 | succeeds exactly when a choice exists, and then gives the successor in order or a track at another position; otherwise raises the error Python raises |
| Sequencer.RollShuffle | back_2_the_jukebox.py:641-645 | raises for an empty list; otherwise gives an index in range, different from the current one when another exists |
| Sequencer.LabelRefreshed | back_2_the_jukebox.py:654-665 | the effect of `update_next_song_label`; Sequencer.RefreshAfterClear states its outcomes, Jukebox.Session.UpdateNextSongLabel is proved to perform it |
| Sequencer.Selected | back_2_the_jukebox.py:393-403 | the effect of the selection loop; Jukebox.Session.SelectPath is proved to perform it |
| Sequencer.PlayedPath | back_2_the_jukebox.py:391-417 | the effect of `play_track_by_path`; proved about it: Sequencer.SequentialLookaheadAfterPlay, Sequencer.TwoTrackScenario; Jukebox.Session.PlayTrackByPath performs it |
| Sequencer.Advanced | back_2_the_jukebox.py:638-652 | the effect of `play_next_song`; proved about it: Sequencer.SkipPlaysAnnouncedTrack, Sequencer.ShuffleAdvanceChangesTrack, Sequencer.OneTrackShuffleAdvance; Jukebox.Session.PlayNextSong performs it |
| Sequencer.SequentialLookaheadAfterPlay | back_2_the_jukebox.py:391-417 | without shuffle, on a list whose paths are distinct and with a successful load, playing entry i selects i and announces the next entry, wrapping from the last to the first |
| Sequencer.SkipPlaysAnnouncedTrack | back_2_the_jukebox.py:638-652 | without shuffle, on an unchanged list with distinct paths, the advance plays exactly the announced track |
| Sequencer.ShuffleAdvanceChangesTrack | back_2_the_jukebox.py:641-652 | with shuffle, on the active list of at least two tracks with distinct paths and a current index inside it, an advance always moves to a track with another path |
| Sequencer.OneTrackShuffleAdvance | back_2_the_jukebox.py:638-652 | with shuffle on a one-track list, the advance sets index 0 and shows a choice error; nothing is reloaded |
| Sequencer.TwoTrackScenario | back_2_the_jukebox.py:638-652 | play A of [A, B]: "Next Song" shows B; advance: B plays and A is announced |
| Sequencer.RefreshAfterClear | back_2_the_jukebox.py:654-665 | a refresh after the lookahead was cleared picks it under the current mode, or raises on a one-track shuffled list whose index is 0 |
| Playlists.AddVerdict | back_2_the_jukebox.py:361-375 | "already present" exactly when the playlist has the path, "not in library" exactly when neither list has it |
| Playlists.AfterAdd | back_2_the_jukebox.py:365-370 | unless the song is added the playlist is unchanged; when added, the library's first track with the path is appended |
| Playlists.AddKeepsPathsDistinct | back_2_the_jukebox.py:365-370 | adding keeps a playlist's paths distinct |
| Playlists.RemoveFirstPath | back_2_the_jukebox.py:381-383 | only the first entry with the path is deleted, and the rest keep their order; without a match the list is unchanged |
| Playlists.RemoveDeletesOne | back_2_the_jukebox.py:381-383 | removal takes out exactly one occurrence of the matching track, as a multiset |
| Playlists.RemoveFromDistinct | back_2_the_jukebox.py:381-383 | on a list with distinct paths, afterwards the path is gone and the paths stay distinct |
| Jukebox.Session.constructor | back_2_the_jukebox.py:82-136 | the initial state: nothing playing, shuffle off, "Next Song: N/A", "0:00 / 0:00", the monitor scheduled |
| Jukebox.Session.UpdateNextSongLabel | back_2_the_jukebox.py:654-665 | the label shows the stored lookahead, or a newly chosen one, or N/A; the choice's exception escapes |
| Jukebox.Session.SelectEntry | back_2_the_jukebox.py:396-402 | for the matching entry, sets index and duration, then stores a lookahead the rules allow, or raises on a one-track shuffled list and keeps the old one |
| Jukebox.Session.SelectPath | back_2_the_jukebox.py:393-403 | the active list becomes current; its first entry with the path sets index, duration and lookahead |
| Jukebox.Session.PlayTrackByPath | back_2_the_jukebox.py:391-417 | selection, load, clock re-base and label refresh, with every failure shown as a dialog |
| Jukebox.Session.PlayNextSong | back_2_the_jukebox.py:638-652 | no-op without a list or index; otherwise moves the index by shuffle or in order and plays that path; the empty-list errors escape |
| Jukebox.Session.ToggleShuffle | back_2_the_jukebox.py:667-672 | flips the mode, clears the lookahead and refreshes the label under the new mode |
| Jukebox.Session.ProgressTick | back_2_the_jukebox.py:468-479 | while playing, the label shows elapsed and total time, and the slider follows unless the user is dragging |
| Jukebox.Session.OnProgressPress | back_2_the_jukebox.py:219 | pressing the slider starts a drag |
| Jukebox.Session.OnProgressRelease | back_2_the_jukebox.py:481-490 | the clock is re-based so the estimate equals the target, the offset is 0 and the drag ends |
| Jukebox.Session.MonitorTick | back_2_the_jukebox.py:629-636 | advances exactly when the guard holds; without firing it changes nothing and raises or reports nothing; a successful advance rebinds only the playing list; an escaped exception unschedules the monitor |
| Jukebox.Session.AddSongToPlaylist | back_2_the_jukebox.py:361-375 | with no playlist, reports that; otherwise gives the verdict and appends the library track when added, visible through every alias |
| Jukebox.Session.RemoveSongFromPlaylist | back_2_the_jukebox.py:377-389 | deletes the first entry with the path in place, or reports no playlist or no match |
| Jukebox.Session.CreatePlaylistAndAdd | back_2_the_jukebox.py:352-359 | a cancelled name changes nothing; otherwise a fresh empty list is bound to the name, made current, and the song added |
| Jukebox.Session.CreateNewPlaylist | back_2_the_jukebox.py:584-593 | binds the name to the current playlist object, or to a fresh empty one when none is loaded |
| Jukebox.Session.LoadPlaylist | back_2_the_jukebox.py:595-614 | no dialog without stored playlists; a selection makes the stored list, or a fresh empty one, both current playlist and view; an empty loaded playlist shows the whole library |
| Jukebox.Session.ShowAllMusic | back_2_the_jukebox.py:624-627 | no playlist is active and the view shows the whole library |
| Jukebox.Session.SearchLibrary | back_2_the_jukebox.py:316-323 | the view becomes a new list of the search results |
| Jukebox.Session.LibraryView | back_2_the_jukebox.py:291-314 | the tree's artist groups are a correct grouping of the shown tracks |
| Jukebox.Session.SaveCurrentPlaylist | back_2_the_jukebox.py:617-622 | nothing without an active playlist; otherwise every stored playlist with its records |
| Jukebox.PlayInOrderScenario | back_2_the_jukebox.py:391-417 | playing A of [A, B] announces B; the next advance plays B and announces A |
| Jukebox.RoadTripScenario | back_2_the_jukebox.py:352-375 | creating "Road Trip" with A and saving writes exactly that playlist with A's record |
| Jukebox.SharedPlaylistScenario | back_2_the_jukebox.py:584-593 | after naming the current playlist a second time, a removal under one name shows under both |
| Jukebox.RemovingPlayingTrackScenario | back_2_the_jukebox.py:629-652 | removing the only track of the playing playlist makes the next auto-advance raise IndexOutOfRange and unschedule the monitor |

## Left out

- The window, menus, dialogs, message boxes, tree widget and icons. The text
  typed into a dialog and the list-box selection are parameters. The
  message-box texts are not modelled.
- `pygame`: `get_busy`, `get_pos` and the result of `load` are parameters.
  `play`, `set_pos` and `stop` have no modelled effect, apart from the
  `loaded` path. A failed `set_pos` is swallowed in the source, so it
  changes nothing.
- `stop_music` (428-429) only calls the engine. The session's fields stay
  as they were, and the monitor can auto-advance later once the engine is
  idle.
- Metadata and artwork extraction with mutagen and PIL (256-289, 431-445).
  A track's metadata is part of its input record.
- File and JSON I/O (`load_config`, `save_config`, `load_playlists`,
  `save_playlists`). Only the in-memory dictionaries the code builds are
  modelled.
- The folder scan with `os.walk` and its thread (241-254). Only the suffix
  test and the folder list are modelled.
- `animate_equalizer` and the plasma visualizer (447-466, 537-582, 674-720).
  They are animation and have no effect on the session.
- `on_tree_double_click`, `on_tree_right_click` and `play_selected`. They
  only pass a tree item's path to the modelled methods.
- `progress_scale.config(to=...)`, and the Scale widget clamping and
  rounding its value. The slider value is kept as the real number set.
- `Text.Lower`: ASCII letters only. Python's `str.lower` also maps
  non-ASCII letters.
- Floating point: times are reals, with no rounding.
- The concurrent `after` scheduling: each tick is one method call.
- Sequencer.RollShuffle: the re-roll loop until the index differs from the
  current one. It is stated as a choice among the allowed indices, so an
  unbounded run of re-rolls is not represented.
