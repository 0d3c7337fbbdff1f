/**
 * The track sequencer: the lookahead ("Next Song") and the advance rules,
 * stated over a value snapshot of the playback session. Random choices are
 * relations: any outcome the Python `random` calls could produce is allowed.
 */
module Sequencer {
  import opened Wrappers
  import opened Tracks

  /** The exceptions the playback code can raise. */
  datatype Failure =
    | ChoiceFromEmpty   // random.choice on an empty list (IndexError)
    | ModuloByZero      // (i + 1) % len(...) on an empty list (ZeroDivisionError)
    | EmptyRandRange    // random.randint(0, -1) (ValueError)
    | IndexOutOfRange   // indexing an empty list (IndexError)
    | LoadFailed        // the engine could not load the file

  datatype Outcome<T> = Ok(value: T) | Raise(failure: Failure)

  // ------------------------------------------------------------ index rules

  /** The lookahead's sequential step, `(idx + 1) % len(list)`. */
  function LookaheadIndex(i: nat, n: nat): (r: nat)
    requires n > 0
    ensures r < n
  {
    (i + 1) % n
  }

  /** The sequential step of `play_next_song`: `i + 1`, or 0 once that runs off the end. */
  function AdvanceIndex(i: nat, n: nat): (r: nat)
    ensures n > 0 ==> r < n
    ensures i < n ==> r == (i + 1) % n
    ensures i >= n ==> r == 0
  {
    if i + 1 >= n then 0 else i + 1
  }

  /** For an index in range both rules pick the same track; the last index wraps to 0. */
  lemma AdvanceMatchesLookahead(i: nat, n: nat)
    requires i < n
    ensures AdvanceIndex(i, n) == LookaheadIndex(i, n)
    ensures i == n - 1 ==> AdvanceIndex(i, n) == 0
  {
  }

  /**
   * For an index beyond the list (a shortened list) the advance restarts at 0
   * while the lookahead takes `(i + 1) % n`: the two positions differ exactly
   * when that is not 0.
   */
  lemma StaleIndexDisagrees(i: nat, n: nat)
    requires n > 0 && i >= n
    ensures AdvanceIndex(i, n) == 0 && LookaheadIndex(i, n) == (i + 1) % n
    ensures AdvanceIndex(i, n) != LookaheadIndex(i, n) <==> (i + 1) % n != 0
  {
  }

  /**
   * `t` is a track the lookahead may store for current index `i`: the
   * sequential successor, or with shuffle on any track at another position.
   */
  predicate IsLookahead(ts: seq<Track>, i: nat, shuffle: bool, t: Track)
  {
    if shuffle then exists j :: 0 <= j < |ts| && j != i && ts[j] == t
    else |ts| > 0 && t == ts[LookaheadIndex(i, |ts|)]
  }

  /** When the lookahead computation does not raise. */
  predicate CanLookahead(n: nat, i: nat, shuffle: bool)
  {
    if shuffle then n > 1 || (n == 1 && i != 0) else n > 0
  }

  /** The computation succeeds exactly when there is a track it may choose. */
  lemma LookaheadExists(ts: seq<Track>, i: nat, shuffle: bool)
    ensures CanLookahead(|ts|, i, shuffle) <==> exists t :: IsLookahead(ts, i, shuffle, t)
  {
    if CanLookahead(|ts|, i, shuffle) {
      var j := if shuffle then (if i == 0 then 1 else 0) else LookaheadIndex(i, |ts|);
      assert IsLookahead(ts, i, shuffle, ts[j]);
    }
  }

  /** With distinct paths, a shuffled lookahead never names the current track. */
  lemma ShuffleLookaheadNotCurrent(ts: seq<Track>, i: nat, t: Track)
    requires DistinctPaths(ts) && i < |ts| && IsLookahead(ts, i, true, t)
    ensures t.path != ts[i].path
  {
    var j :| 0 <= j < |ts| && j != i && ts[j] == t;
    if j < i {
      assert ts[j].path != ts[i].path;
    } else {
      assert ts[i].path != ts[j].path;
    }
  }

  /**
   * The lookahead of `play_track_by_path` and `update_next_song_label`: the
   * next track in order, or a random choice among the tracks at other
   * positions; an empty choice raises.
   */
  method ChooseLookahead(ts: seq<Track>, i: nat, shuffle: bool) returns (r: Outcome<Track>)
    ensures r.Ok? <==> CanLookahead(|ts|, i, shuffle)
    ensures r.Ok? ==> IsLookahead(ts, i, shuffle, r.value)
    ensures r.Raise? ==> r.failure == if shuffle then ChoiceFromEmpty else ModuloByZero
  {
    if !shuffle {
      if |ts| == 0 {
        return Raise(ModuloByZero);
      }
      return Ok(ts[LookaheadIndex(i, |ts|)]);
    }
    if !CanLookahead(|ts|, i, shuffle) {
      return Raise(ChoiceFromEmpty);
    }
    var other := if i == 0 then 1 else 0;
    assert 0 <= other < |ts| && other != i;
    var j :| 0 <= j < |ts| && j != i;
    return Ok(ts[j]);
  }

  /**
   * The shuffle step of `play_next_song`: `randint` over all positions,
   * re-rolled while it hits the current one (when there is another).
   */
  method RollShuffle(n: nat, cur: nat) returns (r: Outcome<nat>)
    ensures r.Raise? <==> n == 0
    ensures r.Raise? ==> r.failure == EmptyRandRange
    ensures r.Ok? ==> r.value < n && (n > 1 ==> r.value != cur)
    ensures n == 1 ==> r == Ok(0)
  {
    if n == 0 {
      return Raise(EmptyRandRange);
    }
    if n == 1 {
      return Ok(0);
    }
    var other := if cur == 0 then 1 else 0;
    assert 0 <= other < n && other != cur;
    var k :| 0 <= k < n && k != cur;
    return Ok(k);
  }

  // --------------------------------------------------------- session values

  /**
   * The sequencer-visible part of the session: the contents of
   * `current_track_list`, `current_track_index`, `current_track_duration`,
   * `stored_next_song`, `random_mode`, `play_start_time`, `play_offset`, the
   * "Next Song" label text and the path last handed to the engine.
   */
  datatype Playback = Playback(
    list: Option<seq<Track>>,
    index: Option<nat>,
    duration: nat,
    next: Option<Track>,
    shuffle: bool,
    start: Option<real>,
    offset: real,
    nextLabel: string,
    loaded: Option<string>)

  function NextSongText(t: Track): string
  {
    "Next Song: " + t.title
  }

  const NoNextSongText: string := "Next Song: N/A"

  /**
   * `update_next_song_label`: show the stored lookahead; if there is none,
   * compute one from the current list and index, which may raise; with no
   * list or index, show "N/A". Only the lookahead and the label change.
   */
  predicate LabelRefreshed(p: Playback, q: Playback, err: Option<Failure>)
  {
    && q == p.(next := q.next, nextLabel := q.nextLabel)
    && if p.next.Some? then
         q.next == p.next && q.nextLabel == NextSongText(p.next.value) && err == None
       else if p.list.Some? && p.index.Some? then
         if CanLookahead(|p.list.value|, p.index.value, p.shuffle) then
           && q.next.Some? && IsLookahead(p.list.value, p.index.value, p.shuffle, q.next.value)
           && q.nextLabel == NextSongText(q.next.value) && err == None
         else
           q.next == None && q.nextLabel == p.nextLabel
           && err == Some(if p.shuffle then ChoiceFromEmpty else ModuloByZero)
       else
         q.next == None && q.nextLabel == NoNextSongText && err == None
  }

  /** The failure the selection loop of `play_track_by_path` raises, if any. */
  function SelectionFailure(ts: seq<Track>, path: string, shuffle: bool): Option<Failure>
  {
    match FirstIndexOf(ts, path)
    case Some(i) => if CanLookahead(|ts|, i, shuffle) then None else Some(ChoiceFromEmpty)
    case None => None
  }

  /**
   * The selection loop of `play_track_by_path` over the active list `ts`:
   * the list becomes current; the first entry with the path, if any, sets
   * the index, the duration and the lookahead.
   */
  predicate Selected(p: Playback, ts: seq<Track>, path: string, m: Playback)
  {
    && m == p.(list := Some(ts), index := m.index, duration := m.duration, next := m.next)
    && match FirstIndexOf(ts, path)
       case None => m.index == p.index && m.duration == p.duration && m.next == p.next
       case Some(i) =>
         && m.index == Some(i) && m.duration == ts[i].duration
         && if CanLookahead(|ts|, i, p.shuffle) then m.next.Some? && IsLookahead(ts, i, p.shuffle, m.next.value)
            else m.next == p.next
  }

  /** Load and play succeeded: the clock is re-based at `now`. */
  function Started(m: Playback, path: string, now: real): (r: Playback)
    ensures r.loaded == Some(path) && r.start == Some(now) && r.offset == 0.0
    ensures r.(loaded := m.loaded, start := m.start, offset := m.offset) == m
  {
    m.(loaded := Some(path), start := Some(now), offset := 0.0)
  }

  /**
   * `play_track_by_path(path)` with active list `ts`. Any exception ends the
   * body early and is shown as `dialog`: the selection's, a failed load, or
   * the label refresh's.
   */
  predicate PlayedPath(p: Playback, ts: seq<Track>, path: string, loadOk: bool, now: real,
                       q: Playback, dialog: Option<Failure>)
  {
    var m := p.(list := Some(ts), index := q.index, duration := q.duration,
                next := if FirstIndexOf(ts, path).Some? then q.next else p.next);
    && Selected(p, ts, path, m)
    && if SelectionFailure(ts, path, p.shuffle).Some? then
         q == m && dialog == SelectionFailure(ts, path, p.shuffle)
       else if !loadOk then
         q == m && dialog == Some(LoadFailed)
       else
         LabelRefreshed(Started(m, path, now), q, dialog)
  }

  /** The index `play_next_song` moves to, for shuffle or in order. */
  predicate NextIndexChoice(n: nat, cur: nat, shuffle: bool, k: nat)
  {
    if shuffle then k < n && (n > 1 ==> k != cur) else k == AdvanceIndex(cur, n)
  }

  /**
   * `play_next_song` with `active` the list that `play_track_by_path` will
   * pick and `k` the index chosen. Its own exceptions (`escaped`) are not
   * caught; the inner play's are shown as `dialog`.
   */
  predicate Advanced(p: Playback, active: seq<Track>, k: nat, loadOk: bool, now: real,
                     q: Playback, escaped: Option<Failure>, dialog: Option<Failure>)
  {
    if p.list.None? || p.index.None? then
      q == p && escaped == None && dialog == None
    else if p.shuffle && |p.list.value| == 0 then
      q == p && escaped == Some(EmptyRandRange) && dialog == None
    else
      && NextIndexChoice(|p.list.value|, p.index.value, p.shuffle, k)
      && if k >= |p.list.value| then
           q == p.(index := Some(k)) && escaped == Some(IndexOutOfRange) && dialog == None
         else
           escaped == None && PlayedPath(p.(index := Some(k)), active, p.list.value[k].path, loadOk, now, q, dialog)
  }

  // ------------------------------------------------------------ properties

  /** Without shuffle a track played from a list gets its successor (wrapping) as lookahead. */
  lemma SequentialLookaheadAfterPlay(p: Playback, ts: seq<Track>, i: nat, now: real, q: Playback, dialog: Option<Failure>)
    requires !p.shuffle && DistinctPaths(ts) && i < |ts|
    requires PlayedPath(p, ts, ts[i].path, true, now, q, dialog)
    ensures dialog == None && q.index == Some(i) && q.duration == ts[i].duration
    ensures q.next == Some(ts[LookaheadIndex(i, |ts|)]) && q.nextLabel == NextSongText(ts[LookaheadIndex(i, |ts|)])
    ensures i == |ts| - 1 ==> q.next == Some(ts[0])
    ensures q.loaded == Some(ts[i].path) && q.start == Some(now) && q.offset == 0.0
  {
    FirstIndexOfDistinct(ts, i);
    var path := ts[i].path;
    assert SelectionFailure(ts, path, false) == None;
    var m := p.(list := Some(ts), index := q.index, duration := q.duration, next := q.next);
    assert Selected(p, ts, path, m);
    assert m.index == Some(i) && m.next == Some(ts[LookaheadIndex(i, |ts|)]);
    var started := Started(m, path, now);
    assert LabelRefreshed(started, q, dialog);
    if i == |ts| - 1 {
      assert LookaheadIndex(i, |ts|) == |ts| % |ts| == 0;
    }
  }

  /**
   * Without shuffle, when the session has just played index `i` of a list
   * with distinct paths and that list is still the active one, skipping
   * plays exactly the track the label announced.
   */
  lemma SkipPlaysAnnouncedTrack(p: Playback, ts: seq<Track>, k: nat, now: real,
                                q: Playback, escaped: Option<Failure>, dialog: Option<Failure>)
    requires !p.shuffle && p.list == Some(ts) && DistinctPaths(ts)
    requires p.index.Some? && p.index.value < |ts|
    requires p.next.Some? && IsLookahead(ts, p.index.value, false, p.next.value)
    requires Advanced(p, ts, k, true, now, q, escaped, dialog)
    ensures escaped == None && dialog == None
    ensures q.loaded == Some(p.next.value.path)
    ensures q.index == Some(LookaheadIndex(p.index.value, |ts|))
    ensures ts[q.index.value] == p.next.value
  {
    var i := p.index.value;
    AdvanceMatchesLookahead(i, |ts|);
    SequentialLookaheadAfterPlay(p.(index := Some(k)), ts, k, now, q, dialog);
  }

  /** With shuffle on and distinct paths, an advance always lands on another track. */
  lemma ShuffleAdvanceChangesTrack(p: Playback, ts: seq<Track>, k: nat, loadOk: bool, now: real,
                                   q: Playback, escaped: Option<Failure>, dialog: Option<Failure>)
    requires p.shuffle && p.list == Some(ts) && |ts| > 1 && DistinctPaths(ts)
    requires p.index.Some? && p.index.value < |ts|
    requires Advanced(p, ts, k, loadOk, now, q, escaped, dialog)
    ensures escaped == None && k != p.index.value
    ensures q.index == Some(k) && ts[k].path != ts[p.index.value].path
  {
    FirstIndexOfDistinct(ts, k);
    var i := p.index.value;
    if k < i {
      assert ts[k].path != ts[i].path;
    } else {
      assert ts[i].path != ts[k].path;
    }
  }

  /**
   * Shuffle on a one-track list: the advance re-selects index 0, but the
   * lookahead choice then raises, so nothing is loaded and the clock is not
   * re-based; the list, index and duration are already updated.
   */
  lemma OneTrackShuffleAdvance(p: Playback, t: Track, k: nat, loadOk: bool, now: real,
                               q: Playback, escaped: Option<Failure>, dialog: Option<Failure>)
    requires p.shuffle && p.list == Some([t]) && p.index.Some?
    requires Advanced(p, [t], k, loadOk, now, q, escaped, dialog)
    ensures k == 0 && escaped == None && dialog == Some(ChoiceFromEmpty)
    ensures q == p.(index := Some(0), duration := t.duration)
  {
    assert FirstIndexOf([t], t.path) == Some(0);
  }

  /** The two-track scenario: play A, the label shows B; skip, B plays and A is next. */
  lemma TwoTrackScenario(a: Track, b: Track, p: Playback, q1: Playback, d1: Option<Failure>,
                         k: nat, q2: Playback, e2: Option<Failure>, d2: Option<Failure>, t1: real, t2: real)
    requires a.path != b.path && !p.shuffle
    requires PlayedPath(p, [a, b], a.path, true, t1, q1, d1)
    requires Advanced(q1, [a, b], k, true, t2, q2, e2, d2)
    ensures q1.index == Some(0) && q1.nextLabel == NextSongText(b)
    ensures q2.index == Some(1) && q2.loaded == Some(b.path) && q2.next == Some(a) && q2.nextLabel == NextSongText(a)
  {
    var ts := [a, b];
    assert DistinctPaths(ts);
    SequentialLookaheadAfterPlay(p, ts, 0, t1, q1, d1);
    SequentialLookaheadAfterPlay(q1.(index := Some(1)), ts, 1, t2, q2, d2);
  }

  /** A refresh after the lookahead was cleared computes it under the current mode. */
  lemma RefreshAfterClear(p: Playback, q: Playback, err: Option<Failure>)
    requires p.next == None && p.list.Some? && p.index.Some? && |p.list.value| > 0
    requires LabelRefreshed(p, q, err)
    ensures !p.shuffle ==> err == None && q.next == Some(p.list.value[LookaheadIndex(p.index.value, |p.list.value|)])
    ensures p.shuffle && |p.list.value| > 1 ==> err == None && q.next.Some? && q.next.value in p.list.value
    ensures p.shuffle && p.list.value == [p.list.value[0]] && p.index == Some(0) ==>
      err == Some(ChoiceFromEmpty) && q == p
  {
    if p.shuffle && q.next.Some? && IsLookahead(p.list.value, p.index.value, true, q.next.value) {
      var j :| 0 <= j < |p.list.value| && j != p.index.value && p.list.value[j] == q.next.value;
    }
  }
}
