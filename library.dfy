/**
 * The library browser's pure logic: which files a folder scan keeps, the
 * remembered folder list, the search filter, which list the tree shows and
 * how the tree groups tracks under artists.
 */
module Library {
  import opened Wrappers
  import opened Text
  import opened Tracks

  // ---------------------------------------------------------------- scanning

  /** The audio extensions a scan keeps, compared against the lower-cased name. */
  const AudioExtensions: seq<string> := [".mp3", ".wav", ".flac"]

  /** `file.lower().endswith(AUDIO_EXTENSIONS)`. */
  predicate IsAudioFile(name: string)
  {
    exists k :: 0 <= k < |AudioExtensions| && EndsWith(Lower(name), AudioExtensions[k])
  }

  /** The extension test ignores letter case. */
  lemma AudioFileIgnoresCase(name: string)
    ensures IsAudioFile(Lower(name)) == IsAudioFile(name)
  {
    LowerIdempotent(name);
  }

  /** Any stem followed by a listed extension, in any letter case, is kept. */
  lemma AudioFileBySuffix(stem: string, ext: string, k: nat)
    requires k < |AudioExtensions| && Lower(ext) == AudioExtensions[k]
    ensures IsAudioFile(stem + ext)
  {
    LowerAppend(stem, ext);
    assert Lower(stem + ext)[|stem + ext| - |ext|..] == Lower(ext);
  }

  /** A name whose lower-cased ending is none of the three is skipped. */
  lemma NonAudioFile(name: string)
    requires !EndsWith(Lower(name), ".mp3") && !EndsWith(Lower(name), ".wav")
    requires !EndsWith(Lower(name), ".flac")
    ensures !IsAudioFile(name)
  {
  }

  // ---------------------------------------------------------- folder config

  predicate NoDuplicates(xs: seq<string>)
  {
    forall i, j :: 0 <= i < j < |xs| ==> xs[i] != xs[j]
  }

  /**
   * The `music_folders` list after the user picks `folder`: a cancelled
   * dialog (empty answer) changes nothing, and a folder already listed is
   * not listed again.
   */
  function AddMusicFolder(folders: seq<string>, folder: string): (r: seq<string>)
    ensures folder == "" ==> r == folders
    ensures folder != "" ==> folder in r
    ensures |folders| <= |r| <= |folders| + 1 && r[..|folders|] == folders
    ensures forall x :: x in r ==> x in folders || x == folder
    ensures folder in folders ==> r == folders
    ensures folder != "" && folder !in folders ==> r == folders + [folder]
    ensures NoDuplicates(folders) ==> NoDuplicates(r)
  {
    if folder == "" || folder in folders then folders else folders + [folder]
  }

  lemma AddMusicFolderIdempotent(folders: seq<string>, folder: string)
    ensures AddMusicFolder(AddMusicFolder(folders, folder), folder) == AddMusicFolder(folders, folder)
  {
  }

  // ----------------------------------------------------------------- search

  /** A track matches a lower-cased query through its title or its artist. */
  predicate Matches(t: Track, query: string)
  {
    Contains(Lower(t.title), query) || Contains(Lower(t.artist), query)
  }

  /** The comprehension of `search_library` over the library, in library order. */
  function Filter(ts: seq<Track>, query: string): (r: seq<Track>)
    ensures |r| <= |ts|
    ensures forall t :: t in r <==> t in ts && Matches(t, query)
    ensures forall t :: multiset(r)[t] == if Matches(t, query) then multiset(ts)[t] else 0
  {
    if ts == [] then []
    else
      assert ts == [ts[0]] + ts[1..];
      (if Matches(ts[0], query) then [ts[0]] else []) + Filter(ts[1..], query)
  }

  /** `r` is obtained from `ts` by deleting entries. */
  predicate IsSubsequence(r: seq<Track>, ts: seq<Track>)
    decreases |ts|
  {
    r == [] || (ts != [] && ((r[0] == ts[0] && IsSubsequence(r[1..], ts[1..])) || IsSubsequence(r, ts[1..])))
  }

  lemma {:induction false} FilterKeepsOrder(ts: seq<Track>, query: string)
    ensures IsSubsequence(Filter(ts, query), ts)
    decreases |ts|
  {
    if ts != [] {
      FilterKeepsOrder(ts[1..], query);
      var rest := Filter(ts[1..], query);
      if Matches(ts[0], query) {
        assert Filter(ts, query) == [ts[0]] + rest;
        assert ([ts[0]] + rest)[1..] == rest;
      } else {
        assert Filter(ts, query) == rest;
      }
    }
  }

  /** The new `filtered_library` for the text in the search box. */
  function SearchResults(library: seq<Track>, text: string): (r: seq<Track>)
    ensures Lower(text) == "" ==> r == []
    ensures forall t :: t in r ==> t in library && Matches(t, Lower(text))
    ensures Lower(text) != "" ==> forall t :: t in library && Matches(t, Lower(text)) ==> t in r
    ensures Lower(text) != "" ==>
      forall t :: multiset(r)[t] == if Matches(t, Lower(text)) then multiset(library)[t] else 0
  {
    var query := Lower(text);
    if query == "" then [] else Filter(library, query)
  }

  lemma SearchKeepsLibraryOrder(library: seq<Track>, text: string)
    ensures IsSubsequence(SearchResults(library, text), library)
  {
    if Lower(text) != "" {
      FilterKeepsOrder(library, Lower(text));
    }
  }

  // ------------------------------------------------------------ tree view

  /** The filtered list when it has entries, otherwise the whole library. */
  function ViewTracks(filtered: seq<Track>, library: seq<Track>): (r: seq<Track>)
    ensures filtered != [] ==> r == filtered
    ensures filtered == [] ==> r == library
  {
    if |filtered| > 0 then filtered else library
  }

  datatype ArtistGroup = ArtistGroup(artist: string, tracks: seq<Track>)

  /** Position of the group for `artist`, if there is one. */
  function GroupIndex(gs: seq<ArtistGroup>, artist: string): (r: Option<nat>)
    ensures r.Some? ==> r.value < |gs| && gs[r.value].artist == artist
    ensures r.None? ==> forall k :: 0 <= k < |gs| ==> gs[k].artist != artist
    decreases |gs|
  {
    if gs == [] then None
    else if gs[0].artist == artist then Some(0)
    else match GroupIndex(gs[1..], artist)
      case None => None
      case Some(k) => Some(k + 1)
  }

  /** `artist_groups.setdefault(artist, []).append(track)`. */
  function AddToGroups(gs: seq<ArtistGroup>, t: Track): seq<ArtistGroup>
  {
    match GroupIndex(gs, t.artist)
    case Some(k) => gs[k := gs[k].(tracks := gs[k].tracks + [t])]
    case None => gs + [ArtistGroup(t.artist, [t])]
  }

  /** The artist dictionary of `update_library_view`, in insertion order. */
  function GroupByArtist(ts: seq<Track>): seq<ArtistGroup>
    decreases |ts|
  {
    if ts == [] then [] else AddToGroups(GroupByArtist(ts[..|ts| - 1]), ts[|ts| - 1])
  }

  /** The tracks of `ts` by `artist`, in order. */
  function ByArtist(ts: seq<Track>, artist: string): seq<Track>
    decreases |ts|
  {
    if ts == [] then []
    else ByArtist(ts[..|ts| - 1], artist) + (if ts[|ts| - 1].artist == artist then [ts[|ts| - 1]] else [])
  }

  /** Index of the first track by `artist`. */
  function FirstByArtist(ts: seq<Track>, artist: string): (r: Option<nat>)
    ensures r.Some? ==>
      r.value < |ts| && ts[r.value].artist == artist && forall j :: 0 <= j < r.value ==> ts[j].artist != artist
    ensures r.None? ==> forall j :: 0 <= j < |ts| ==> ts[j].artist != artist
    decreases |ts|
  {
    if ts == [] then None
    else if ts[0].artist == artist then Some(0)
    else match FirstByArtist(ts[1..], artist)
      case None => None
      case Some(k) => Some(k + 1)
  }

  /** Some group is headed by `artist`. */
  predicate HasGroup(gs: seq<ArtistGroup>, artist: string)
  {
    exists k :: 0 <= k < |gs| && gs[k].artist == artist
  }

  /** One group per artist. */
  predicate GroupsDistinct(gs: seq<ArtistGroup>)
  {
    forall i, j :: 0 <= i < j < |gs| ==> gs[i].artist != gs[j].artist
  }

  /** Every artist of the list has a group, and every group's artist occurs in the list. */
  predicate GroupsCover(ts: seq<Track>, gs: seq<ArtistGroup>)
  {
    && (forall t :: t in ts ==> HasGroup(gs, t.artist))
    && (forall k :: 0 <= k < |gs| ==> FirstByArtist(ts, gs[k].artist).Some?)
  }

  /** A group holds exactly its artist's tracks, in list order. */
  predicate GroupsExact(ts: seq<Track>, gs: seq<ArtistGroup>)
  {
    forall k :: 0 <= k < |gs| ==> gs[k].tracks == ByArtist(ts, gs[k].artist)
  }

  /** Groups appear in the order of each artist's first track. */
  predicate GroupsOrdered(ts: seq<Track>, gs: seq<ArtistGroup>)
    requires GroupsCover(ts, gs)
  {
    forall i, j :: 0 <= i < j < |gs| ==>
      FirstByArtist(ts, gs[i].artist).value < FirstByArtist(ts, gs[j].artist).value
  }

  /** What the artist tree promises about its groups. */
  predicate WellGrouped(ts: seq<Track>, gs: seq<ArtistGroup>)
  {
    GroupsDistinct(gs) && GroupsCover(ts, gs) && GroupsExact(ts, gs) && GroupsOrdered(ts, gs)
  }

  lemma {:induction false} FirstByArtistSnoc(ts: seq<Track>, t: Track, artist: string)
    ensures FirstByArtist(ts + [t], artist) ==
      if FirstByArtist(ts, artist).Some? then FirstByArtist(ts, artist)
      else if t.artist == artist then Some(|ts|) else None
    decreases |ts|
  {
    if ts != [] {
      assert (ts + [t])[0] == ts[0];
      assert (ts + [t])[1..] == ts[1..] + [t];
      FirstByArtistSnoc(ts[1..], t, artist);
    }
  }

  lemma ByArtistSnoc(ts: seq<Track>, t: Track, artist: string)
    ensures ByArtist(ts + [t], artist) == ByArtist(ts, artist) + (if t.artist == artist then [t] else [])
  {
    assert (ts + [t])[..|ts|] == ts;
  }

  lemma {:induction false} ByArtistNone(ts: seq<Track>, artist: string)
    requires FirstByArtist(ts, artist).None?
    ensures ByArtist(ts, artist) == []
    decreases |ts|
  {
    if ts != [] {
      var init := ts[..|ts| - 1];
      assert forall j :: 0 <= j < |init| ==> init[j] == ts[j];
      ByArtistNone(init, artist);
    }
  }

  /** Adding a track to an existing group or opening a new group at the end. */
  lemma AddToGroupsShape(gs: seq<ArtistGroup>, t: Track)
    ensures var gs' := AddToGroups(gs, t);
      match GroupIndex(gs, t.artist)
      case Some(k) =>
        |gs'| == |gs| && gs'[k] == ArtistGroup(t.artist, gs[k].tracks + [t])
        && forall m :: 0 <= m < |gs| && m != k ==> gs'[m] == gs[m]
      case None => gs' == gs + [ArtistGroup(t.artist, [t])]
  {
  }

  lemma AddToGroupsDistinct(gs: seq<ArtistGroup>, t: Track)
    requires GroupsDistinct(gs)
    ensures GroupsDistinct(AddToGroups(gs, t))
  {
    AddToGroupsShape(gs, t);
  }

  lemma AddToGroupsCover(ts: seq<Track>, gs: seq<ArtistGroup>, t: Track)
    requires GroupsCover(ts, gs)
    ensures GroupsCover(ts + [t], AddToGroups(gs, t))
  {
    var gs' := AddToGroups(gs, t);
    AddToGroupsShape(gs, t);
    forall a ensures FirstByArtist(ts + [t], a).Some? <==> FirstByArtist(ts, a).Some? || a == t.artist {
      FirstByArtistSnoc(ts, t, a);
    }
    forall u | u in ts + [t] ensures HasGroup(gs', u.artist) {
      if u in ts {
        var m :| 0 <= m < |gs| && gs[m].artist == u.artist;
        assert gs'[m].artist == u.artist;
      } else {
        assert u == t;
        match GroupIndex(gs, t.artist)
        case Some(k) => assert gs'[k].artist == u.artist;
        case None => assert gs'[|gs|].artist == u.artist;
      }
    }
  }

  lemma AddToGroupsExact(ts: seq<Track>, gs: seq<ArtistGroup>, t: Track)
    requires GroupsDistinct(gs) && GroupsCover(ts, gs) && GroupsExact(ts, gs)
    ensures GroupsExact(ts + [t], AddToGroups(gs, t))
  {
    var gs' := AddToGroups(gs, t);
    AddToGroupsShape(gs, t);
    forall a ensures ByArtist(ts + [t], a) == ByArtist(ts, a) + (if t.artist == a then [t] else []) {
      ByArtistSnoc(ts, t, a);
    }
    match GroupIndex(gs, t.artist)
    case Some(k) =>
    case None =>
      ByArtistNone(ts, t.artist);
  }

  /** One step keeps every group's artist in place and opens at most one group, for a new artist. */
  lemma AddToGroupsArtists(gs: seq<ArtistGroup>, t: Track)
    ensures var gs' := AddToGroups(gs, t);
      && |gs| <= |gs'| <= |gs| + 1
      && (forall m :: 0 <= m < |gs| ==> gs'[m].artist == gs[m].artist)
      && (|gs'| == |gs| + 1 ==> gs'[|gs|].artist == t.artist && GroupIndex(gs, t.artist).None?)
  {
    AddToGroupsShape(gs, t);
  }

  /** The order of two groups after one step, given the order before it. */
  lemma AddToGroupsOrderedPair(ts: seq<Track>, gs: seq<ArtistGroup>, t: Track, i: nat, j: nat)
    requires GroupsCover(ts, gs) && GroupsOrdered(ts, gs)
    requires i < j < |AddToGroups(gs, t)|
    ensures FirstByArtist(ts + [t], AddToGroups(gs, t)[i].artist).Some?
    ensures FirstByArtist(ts + [t], AddToGroups(gs, t)[j].artist).Some?
    ensures FirstByArtist(ts + [t], AddToGroups(gs, t)[i].artist).value
          < FirstByArtist(ts + [t], AddToGroups(gs, t)[j].artist).value
  {
    var gs' := AddToGroups(gs, t);
    AddToGroupsArtists(gs, t);
    var a, b := gs'[i].artist, gs'[j].artist;
    FirstByArtistSnoc(ts, t, a);
    FirstByArtistSnoc(ts, t, b);
    assert a == gs[i].artist;
    if j < |gs| {
      assert b == gs[j].artist;
    } else {
      assert b == t.artist;
    }
  }

  lemma AddToGroupsOrdered(ts: seq<Track>, gs: seq<ArtistGroup>, t: Track)
    requires GroupsCover(ts, gs) && GroupsOrdered(ts, gs)
    ensures GroupsCover(ts + [t], AddToGroups(gs, t))
    ensures GroupsOrdered(ts + [t], AddToGroups(gs, t))
  {
    var gs' := AddToGroups(gs, t);
    AddToGroupsCover(ts, gs, t);
    forall i, j | 0 <= i < j < |gs'|
      ensures FirstByArtist(ts + [t], gs'[i].artist).value < FirstByArtist(ts + [t], gs'[j].artist).value
    {
      AddToGroupsOrderedPair(ts, gs, t, i, j);
    }
  }

  lemma {:induction false} GroupByArtistCorrect(ts: seq<Track>)
    ensures WellGrouped(ts, GroupByArtist(ts))
    decreases |ts|
  {
    if ts != [] {
      var init, t := ts[..|ts| - 1], ts[|ts| - 1];
      assert ts == init + [t];
      GroupByArtistCorrect(init);
      var gs := GroupByArtist(init);
      AddToGroupsDistinct(gs, t);
      AddToGroupsExact(init, gs, t);
      AddToGroupsOrdered(init, gs, t);
    }
  }
}
