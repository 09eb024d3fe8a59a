/**
 * The player's bookkeeping as values: its fields (PlayerState), the three
 * session-cache entries (Cache), and one function per operation of the
 * player giving the state that operation leaves. The class in player.dfy
 * performs these operations in place and is proved against them; the
 * lemmas here state what the operations promise.
 */
module Session {
  import opened Wrappers
  import opened Seqs
  import opened Tracks
  import opened Transport

  /** The playback-state cache entry ("explayer_current_state"). */
  datatype Snapshot = Snapshot(
    currentTime: real,
    isPlaying: bool,
    currentTrackIndex: nat,
    isShuffled: bool,
    repeatMode: string)

  /**
   * The three session-cache entries ("explayer_playlist",
   * "explayer_favorites", "explayer_current_state"); None is an entry
   * that was never written.
   */
  datatype Cache = Cache(
    playlist: Option<seq<Track>>,
    favorites: Option<set<TrackId>>,
    state: Option<Snapshot>)

  /**
   * The player's fields, plus the two facts about the media element the
   * bookkeeping decides: which track it holds (`loaded`) and its playback
   * position (`mediaPosition`). `currentTime` is the position the player
   * last recorded.
   */
  datatype PlayerState = PlayerState(
    playlist: seq<Track>,
    favorites: set<TrackId>,
    currentTrackIndex: nat,
    isPlaying: bool,
    isShuffled: bool,
    repeatMode: string,
    currentTime: real,
    loaded: Option<Track>,
    mediaPosition: real)

  datatype World = World(player: PlayerState, cache: Cache)

  /** The outcome of restoring from the cache: the new fields, and whether the restore ended in a TypeError. */
  datatype Restore = Restore(player: PlayerState, threw: bool)

  /** A freshly constructed player. */
  const Initial: PlayerState := PlayerState([], {}, 0, false, false, "none", 0.0, None, 0.0)

  /** A cache nothing was ever written to. */
  const EmptyCache: Cache := Cache(None, None, None)

  // ----- Session cache -----

  function Capture(p: PlayerState): Snapshot {
    Snapshot(p.currentTime, p.isPlaying, p.currentTrackIndex, p.isShuffled, p.repeatMode)
  }

  /** saveToLocalStorage: lists always rewritten, playback state only for a non-empty playlist. */
  function Save(p: PlayerState, c: Cache): (r: Cache)
    ensures r.playlist == Some(p.playlist) && r.favorites == Some(p.favorites)
    ensures |p.playlist| > 0 ==> r.state == Some(Capture(p))
    ensures |p.playlist| == 0 ==> r.state == c.state
  {
    Cache(Some(p.playlist), Some(p.favorites), if |p.playlist| > 0 then Some(Capture(p)) else c.state)
  }

  /** The cache mirrors the playlist and the favorites. */
  predicate Mirrored(w: World) {
    w.cache.playlist == Some(w.player.playlist) && w.cache.favorites == Some(w.player.favorites)
  }

  /** What a save leaves in the cache, and what it keeps from before. */
  lemma SaveEntries(p: PlayerState, c: Cache)
    ensures Mirrored(World(p, Save(p, c)))
    ensures |p.playlist| == 0 ==> Save(p, c).state == c.state
    ensures |p.playlist| > 0 ==> forall c' :: Save(p, c') == Save(p, c)
    ensures Save(p, Save(p, c)) == Save(p, c)
  {
  }

  /** getTrackState: the saved state, only when its index still holds the track with `id`. */
  function TrackState(state: Option<Snapshot>, playlist: seq<Track>, id: TrackId): (r: Option<Snapshot>)
    ensures r.Some? <==>
      state.Some? && state.value.currentTrackIndex < |playlist| && playlist[state.value.currentTrackIndex].id == id
    ensures r.Some? ==> r == state
  {
    match state
    case None => None
    case Some(s) =>
      if s.currentTrackIndex < |playlist| && playlist[s.currentTrackIndex].id == id then state else None
  }

  /**
   * Where the media element starts a track: the saved position when the
   * stale-state guard accepts it, else the start (a new source starts at 0,
   * and a zero saved position is skipped, which comes to the same).
   */
  function ResumePosition(state: Option<Snapshot>, playlist: seq<Track>, id: TrackId): real {
    match TrackState(state, playlist, id)
    case Some(s) => if s.currentTime != 0.0 then s.currentTime else 0.0
    case None => 0.0
  }

  /** A track saved as current resumes at its saved position. */
  lemma SavedTrackResumes(p: PlayerState, c: Cache)
    requires p.currentTrackIndex < |p.playlist|
    ensures TrackState(Save(p, c).state, p.playlist, p.playlist[p.currentTrackIndex].id) == Some(Capture(p))
    ensures ResumePosition(Save(p, c).state, p.playlist, p.playlist[p.currentTrackIndex].id) == p.currentTime
  {
  }

  // ----- Transport controller -----

  /**
   * playTrack, without the media element: load `track`, mark playing, and
   * start at the saved position when the saved state's index holds a track
   * with this id; otherwise the new source starts at 0.
   */
  function PlayTrack(p: PlayerState, c: Cache, track: Track): (r: PlayerState)
    ensures r == p.(loaded := Some(track), mediaPosition := r.mediaPosition, isPlaying := true)
    ensures c.state.Some? && c.state.value.currentTrackIndex < |p.playlist|
            && p.playlist[c.state.value.currentTrackIndex].id == track.id ==>
      r.mediaPosition == c.state.value.currentTime
    ensures !(c.state.Some? && c.state.value.currentTrackIndex < |p.playlist|
              && p.playlist[c.state.value.currentTrackIndex].id == track.id) ==>
      r.mediaPosition == 0.0
  {
    p.(loaded := Some(track), mediaPosition := ResumePosition(c.state, p.playlist, track.id), isPlaying := true)
  }

  /** `r` is `p` after selecting index `i` and playing the track there; nothing else differs. */
  predicate PlaysIndex(p: PlayerState, c: Cache, i: nat, r: PlayerState) {
    i < |p.playlist| && r == PlayTrack(p.(currentTrackIndex := i), c, p.playlist[i])
  }

  /** togglePlay: flip isPlaying, except on an empty playlist. */
  function TogglePlay(p: PlayerState): (r: PlayerState)
    ensures |p.playlist| == 0 ==> r == p
    ensures |p.playlist| > 0 ==> r.isPlaying != p.isPlaying && r == p.(isPlaying := r.isPlaying)
  {
    if |p.playlist| == 0 then p else p.(isPlaying := !p.isPlaying)
  }

  /** togglePlay does nothing on an empty playlist, flips isPlaying otherwise, and undoes itself. */
  lemma TogglePlayFlips(p: PlayerState)
    ensures |p.playlist| == 0 ==> TogglePlay(p) == p
    ensures |p.playlist| > 0 ==> TogglePlay(p).isPlaying == !p.isPlaying
    ensures TogglePlay(TogglePlay(p)) == p
  {
  }

  function ToggleShuffle(p: PlayerState): (r: PlayerState)
    ensures r.isShuffled != p.isShuffled && r == p.(isShuffled := r.isShuffled)
  {
    p.(isShuffled := !p.isShuffled)
  }

  lemma ToggleShuffleFlips(p: PlayerState)
    ensures ToggleShuffle(p).isShuffled == !p.isShuffled
    ensures ToggleShuffle(ToggleShuffle(p)) == p
  {
  }

  /** toggleRepeat: the mode always changes, to a known one, and nothing else does. */
  function ToggleRepeat(p: PlayerState): (r: PlayerState)
    ensures r.repeatMode in Modes && r.repeatMode != p.repeatMode
    ensures r == p.(repeatMode := r.repeatMode)
  {
    p.(repeatMode := NextRepeatMode(p.repeatMode))
  }

  /** Three toggles restore a recognised repeat mode and nothing else moves. */
  lemma ToggleRepeatPeriod(p: PlayerState)
    requires p.repeatMode in Modes
    ensures ToggleRepeat(ToggleRepeat(ToggleRepeat(p))) == p
  {
    RepeatModePeriod(p.repeatMode);
  }

  /** playNext: a random index under shuffle, else the next one, wrapping; then play it. */
  function PlayNext(p: PlayerState, c: Cache, rand: real): (r: PlayerState)
    requires 0.0 <= rand < 1.0
    ensures |p.playlist| == 0 ==> r == p
    ensures |p.playlist| > 0 ==> PlaysIndex(p, c, r.currentTrackIndex, r)
    ensures |p.playlist| > 0 && !p.isShuffled ==> r.currentTrackIndex == NextIndex(p.currentTrackIndex, |p.playlist|)
    ensures |p.playlist| > 0 && p.isShuffled ==> r.currentTrackIndex == ShuffleIndex(rand, |p.playlist|)
  {
    if |p.playlist| == 0 then p
    else
      var i := if p.isShuffled then ShuffleIndex(rand, |p.playlist|) else NextIndex(p.currentTrackIndex, |p.playlist|);
      PlayTrack(p.(currentTrackIndex := i), c, p.playlist[i])
  }

  /** playPrevious: a random index under shuffle, else the previous one, wrapping; then play it. */
  function PlayPrevious(p: PlayerState, c: Cache, rand: real): (r: PlayerState)
    requires 0.0 <= rand < 1.0
    ensures |p.playlist| == 0 ==> r == p
    ensures |p.playlist| > 0 ==> PlaysIndex(p, c, r.currentTrackIndex, r)
    ensures |p.playlist| > 0 && !p.isShuffled ==> r.currentTrackIndex == PreviousIndex(p.currentTrackIndex, |p.playlist|)
    ensures |p.playlist| > 0 && p.isShuffled ==> r.currentTrackIndex == ShuffleIndex(rand, |p.playlist|)
  {
    if |p.playlist| == 0 then p
    else
      var i := if p.isShuffled then ShuffleIndex(rand, |p.playlist|) else PreviousIndex(p.currentTrackIndex, |p.playlist|);
      PlayTrack(p.(currentTrackIndex := i), c, p.playlist[i])
  }

  /** Without shuffle, previous after next lands on the starting index reduced mod the length. */
  lemma PreviousAfterNext(p: PlayerState, c: Cache, rand1: real, rand2: real)
    requires 0.0 <= rand1 < 1.0 && 0.0 <= rand2 < 1.0
    requires |p.playlist| > 0 && !p.isShuffled
    ensures var q := PlayPrevious(PlayNext(p, c, rand1), c, rand2);
      && q.currentTrackIndex == p.currentTrackIndex % |p.playlist|
      && q.loaded == Some(p.playlist[q.currentTrackIndex])
      && q.isPlaying
  {
    PreviousUndoesNext(p.currentTrackIndex, |p.playlist|);
  }

  /** handleTrackEnd: restart under "one", advance under "all", advance only before the last track otherwise. */
  function HandleTrackEnd(p: PlayerState, c: Cache, rand: real): (r: PlayerState)
    requires 0.0 <= rand < 1.0
    ensures p.repeatMode == "one" ==> r == p.(mediaPosition := 0.0)
    ensures p.repeatMode == "all" && |p.playlist| > 0 ==> PlaysIndex(p, c, r.currentTrackIndex, r)
    ensures p.repeatMode == "all" && |p.playlist| > 0 && !p.isShuffled ==>
      r.currentTrackIndex == NextIndex(p.currentTrackIndex, |p.playlist|)
    ensures p.repeatMode == "all" && !p.isShuffled && p.currentTrackIndex + 1 == |p.playlist| ==>
      r.currentTrackIndex == 0 && r.isPlaying
    ensures p.repeatMode != "one" && p.currentTrackIndex + 1 >= |p.playlist| && (p.repeatMode != "all" || |p.playlist| == 0) ==>
      r == p
    ensures p.repeatMode != "one" && p.repeatMode != "all" && p.currentTrackIndex + 1 < |p.playlist| ==>
      PlaysIndex(p, c, r.currentTrackIndex, r)
    ensures p.repeatMode != "one" && p.repeatMode != "all" && p.currentTrackIndex + 1 < |p.playlist| && !p.isShuffled ==>
      r.currentTrackIndex == p.currentTrackIndex + 1
  {
    if p.repeatMode == "one" then p.(mediaPosition := 0.0)
    else if p.repeatMode == "all" then PlayNext(p, c, rand)
    else if (p.currentTrackIndex as int) < |p.playlist| - 1 then PlayNext(p, c, rand)
    else p
  }

  /** A click on a playlist row: select its index and play the track there. */
  function SelectTrack(p: PlayerState, c: Cache, index: nat): (r: PlayerState)
    requires index < |p.playlist|
    ensures PlaysIndex(p, c, index, r) && r.currentTrackIndex == index
  {
    PlayTrack(p.(currentTrackIndex := index), c, p.playlist[index])
  }

  /**
   * A click on a favorites row: select the first playlist index holding a
   * track with the clicked track's id, and play the clicked track.
   */
  function SelectFavorite(p: PlayerState, c: Cache, track: Track): (r: PlayerState)
    requires track in FavoritesView(p.playlist, p.favorites)
    ensures r.currentTrackIndex < |p.playlist| && p.playlist[r.currentTrackIndex].id == track.id
    ensures forall j :: 0 <= j < r.currentTrackIndex ==> p.playlist[j].id != track.id
    ensures r == PlayTrack(p.(currentTrackIndex := r.currentTrackIndex), c, track)
  {
    var k :| 0 <= k < |p.playlist| && p.playlist[k] == track;
    var i := FindIndex(p.playlist, track.id);
    assert i != -1 by {
      assert p.playlist[k].id == track.id;
    }
    PlayTrack(p.(currentTrackIndex := i), c, track)
  }

  /** seekTo: with a known duration, move to the fraction of it, record it, and save. */
  function SeekTo(w: World, fraction: real, duration: real): (r: World)
    requires 0.0 <= fraction <= 1.0 && duration >= 0.0
    ensures duration == 0.0 ==> r == w
    ensures duration != 0.0 ==>
      && r.player == w.player.(mediaPosition := fraction * duration, currentTime := fraction * duration)
      && Mirrored(r)
    ensures duration != 0.0 ==> r.cache == Save(r.player, w.cache)
  {
    if duration == 0.0 then w
    else
      var p := w.player.(mediaPosition := fraction * duration, currentTime := fraction * duration);
      World(p, Save(p, w.cache))
  }

  /** After a seek, playing the current track again starts where the seek left it. */
  lemma SeekThenReplayResumes(w: World, fraction: real, duration: real)
    requires 0.0 <= fraction <= 1.0 && duration > 0.0
    requires w.player.currentTrackIndex < |w.player.playlist|
    ensures var r := SeekTo(w, fraction, duration);
      PlayTrack(r.player, r.cache, r.player.playlist[r.player.currentTrackIndex]).mediaPosition == fraction * duration
  {
    var r := SeekTo(w, fraction, duration);
    SavedTrackResumes(r.player, w.cache);
  }

  /** Transport operations leave the playlist, the favorites and the cache alone, so a mirrored cache stays mirrored. */
  lemma TransportKeepsMirror(w: World, rand: real)
    requires 0.0 <= rand < 1.0
    requires Mirrored(w)
    ensures Mirrored(World(TogglePlay(w.player), w.cache))
    ensures Mirrored(World(ToggleShuffle(w.player), w.cache))
    ensures Mirrored(World(ToggleRepeat(w.player), w.cache))
    ensures Mirrored(World(PlayNext(w.player, w.cache, rand), w.cache))
    ensures Mirrored(World(PlayPrevious(w.player, w.cache, rand), w.cache))
    ensures Mirrored(World(HandleTrackEnd(w.player, w.cache, rand), w.cache))
  {
  }

  // ----- Playlist and favorites -----

  /** addTrack: append, then save. */
  function AddTrack(w: World, track: Track): (r: World)
    ensures |r.player.playlist| == |w.player.playlist| + 1
    ensures r.player.playlist[..|w.player.playlist|] == w.player.playlist
    ensures r.player.playlist[|w.player.playlist|] == track
    ensures r.player == w.player.(playlist := r.player.playlist)
    ensures Mirrored(r) && r.cache.state == Some(Capture(r.player))
  {
    var p := w.player.(playlist := w.player.playlist + [track]);
    World(p, Save(p, w.cache))
  }

  /**
   * removeTrack: when the store's delete succeeded, drop every track with
   * `id`, drop `id` from the favorites, save; the current index is left
   * as it was. When the delete failed, nothing changes.
   */
  function RemoveTrack(w: World, id: TrackId, deleted: bool): (r: World)
    ensures !deleted ==> r == w
    ensures deleted ==> forall t :: t in r.player.playlist <==> t in w.player.playlist && t.id != id
    ensures deleted ==> forall t: Track :: multiset(r.player.playlist)[t] == if t.id != id then multiset(w.player.playlist)[t] else 0
    ensures deleted ==> Subsequence(r.player.playlist, w.player.playlist)
    ensures deleted ==> id !in r.player.favorites && r.player.favorites == w.player.favorites - {id}
    ensures deleted ==> r.player == w.player.(playlist := r.player.playlist, favorites := r.player.favorites)
    ensures deleted ==> Mirrored(r)
    ensures deleted ==> r.cache == Save(r.player, w.cache)
  {
    if !deleted then w
    else
      var p := w.player.(playlist := WithoutTrack(w.player.playlist, id), favorites := w.player.favorites - {id});
      World(p, Save(p, w.cache))
  }

  /** toggleFavorite: flip the membership of `id`, then save. */
  function ToggleFavorite(w: World, id: TrackId): (r: World)
    ensures id in r.player.favorites <==> id !in w.player.favorites
    ensures forall x :: x != id ==> (x in r.player.favorites <==> x in w.player.favorites)
    ensures r.player == w.player.(favorites := r.player.favorites)
    ensures Mirrored(r)
    ensures r.cache == Save(r.player, w.cache)
  {
    var f := if id in w.player.favorites then w.player.favorites - {id} else w.player.favorites + {id};
    var p := w.player.(favorites := f);
    World(p, Save(p, w.cache))
  }

  /** Toggling a favorite twice gives back the player as it was. */
  lemma ToggleFavoriteTwice(w: World, id: TrackId)
    ensures ToggleFavorite(ToggleFavorite(w, id), id).player == w.player
  {
    var f2 := ToggleFavorite(ToggleFavorite(w, id), id).player.favorites;
    assert f2 == w.player.favorites;
  }

  /** The last state an import reaches: `added` appended, and a save when anything was added. */
  predicate AppendedAfter(w: World, added: seq<Track>, r: World) {
    && r.player == w.player.(playlist := w.player.playlist + added)
    && r.cache == if added == [] then w.cache else Save(r.player, w.cache)
  }

  /** Two appends in a row are one append of both, and the save of the second covers the first. */
  lemma AppendedAfterTwice(w: World, a: seq<Track>, m: World, b: seq<Track>, r: World)
    requires AppendedAfter(w, a, m) && AppendedAfter(m, b, r)
    ensures AppendedAfter(w, a + b, r)
  {
    assert w.player.playlist + a + b == w.player.playlist + (a + b);
    if b != [] {
      assert |r.player.playlist| > 0;
      assert Save(r.player, m.cache) == Save(r.player, w.cache);
    } else if a != [] {
      assert m.player == r.player;
    }
  }

  /**
   * One step of handleFiles: an audio file whose read-and-store succeeded
   * is added, with a save; any other file changes nothing.
   */
  function ImportFile(w: World, f: FileEntry, id: TrackId, stored: bool): (r: World)
    ensures AppendedAfter(w, ImportStep(f, id, stored), r)
  {
    assert w.player.playlist + [] == w.player.playlist;
    if IsAudio(f) && stored then AddTrack(w, NewTrack(f, id)) else w
  }

  /**
   * handleFiles: the files one after the other, in order. It appends
   * exactly the imported tracks and changes no other field; the cache is
   * saved when at least one track was added and untouched otherwise.
   */
  function HandleFiles(w: World, files: seq<FileEntry>, ids: seq<TrackId>, stored: seq<bool>): (r: World)
    requires |ids| == |files| && |stored| == |files|
    ensures AppendedAfter(w, Imported(files, ids, stored), r)
    decreases |files|
  {
    if files == [] then
      assert w.player.playlist + [] == w.player.playlist;
      w
    else
      var n := |files| - 1;
      var f', i', s' := files[..n], ids[..n], stored[..n];
      var before := HandleFiles(w, f', i', s');
      var r := ImportFile(before, files[n], ids[n], stored[n]);
      AppendedAfterTwice(w, Imported(f', i', s'), before, ImportStep(files[n], ids[n], stored[n]), r);
      r
  }

  /**
   * updateProgress, on the media element's timeupdate event: the player
   * records the element's playback position `position` (the element's
   * clock is outside the model, so the position it reached is a
   * parameter). Nothing is saved.
   */
  function TimeUpdate(p: PlayerState, position: real): (r: PlayerState)
    ensures r.currentTime == position && r.mediaPosition == position
    ensures r.(currentTime := p.currentTime, mediaPosition := p.mediaPosition) == p
  {
    p.(mediaPosition := position, currentTime := position)
  }

  /** The position a time update records is the one the next save stores and a replay resumes at. */
  lemma TimeUpdateThenSaveResumes(p: PlayerState, c: Cache, position: real)
    requires p.currentTrackIndex < |p.playlist|
    ensures var q := TimeUpdate(p, position);
      && Save(q, c).state == Some(Capture(q))
      && PlayTrack(q, Save(q, c), q.playlist[q.currentTrackIndex]).mediaPosition == position
  {
    var q := TimeUpdate(p, position);
    SavedTrackResumes(q, c);
  }

  // ----- Startup and restore -----

  /**
   * loadFromLocalStorage: each entry present replaces its fields; with a
   * playback state that was playing and a non-empty playlist, the track
   * at the saved index is played. A saved index past the end makes that
   * call dereference a missing track and throw, after the fields were set.
   */
  function LoadFromLocalStorage(p: PlayerState, c: Cache): (r: Restore)
    ensures c.playlist.None? ==> r.player.playlist == p.playlist
    ensures c.favorites.None? ==> r.player.favorites == p.favorites
    ensures c.state.None? ==> !r.threw && r.player == p.(playlist := r.player.playlist, favorites := r.player.favorites)
  {
    var p1 := if c.playlist.Some? then p.(playlist := c.playlist.value) else p;
    var p2 := if c.favorites.Some? then p1.(favorites := c.favorites.value) else p1;
    match c.state
    case None => Restore(p2, false)
    case Some(s) =>
      var p3 := p2.(currentTrackIndex := s.currentTrackIndex, isShuffled := s.isShuffled,
                    repeatMode := s.repeatMode, currentTime := s.currentTime);
      if s.isPlaying && |p3.playlist| > 0 then
        if s.currentTrackIndex < |p3.playlist| then Restore(PlayTrack(p3, c, p3.playlist[s.currentTrackIndex]), false)
        else Restore(p3, true)
      else Restore(p3, false)
  }

  /**
   * Save then restore, into any player: a non-empty playlist, the
   * favorites, the index, shuffle, repeat mode and recorded position come
   * back; a session that was playing resumes its track at the recorded
   * position, unless the saved index was already stale.
   */
  lemma RestoreAfterSave(p: PlayerState, c: Cache, q: PlayerState)
    requires |p.playlist| > 0
    ensures var r := LoadFromLocalStorage(q, Save(p, c));
      && r.player.playlist == p.playlist
      && r.player.favorites == p.favorites
      && r.player.currentTrackIndex == p.currentTrackIndex
      && r.player.isShuffled == p.isShuffled
      && r.player.repeatMode == p.repeatMode
      && r.player.currentTime == p.currentTime
      && (r.threw <==> p.isPlaying && p.currentTrackIndex >= |p.playlist|)
      && (p.isPlaying && p.currentTrackIndex < |p.playlist| ==>
            r.player.isPlaying && r.player.loaded == Some(p.playlist[p.currentTrackIndex])
            && r.player.mediaPosition == p.currentTime)
      && (!p.isPlaying ==>
            r.player.isPlaying == q.isPlaying && r.player.loaded == q.loaded && r.player.mediaPosition == q.mediaPosition)
  {
    if p.isPlaying && p.currentTrackIndex < |p.playlist| {
      SavedTrackResumes(p, c);
    }
  }

  /** Saving an empty playlist keeps the previous playback entry, so a restore takes the index and modes from it. */
  lemma RestoreAfterSaveEmpty(p: PlayerState, c: Cache, q: PlayerState)
    requires |p.playlist| == 0
    ensures var r := LoadFromLocalStorage(q, Save(p, c));
      && r.player.playlist == [] && r.player.favorites == p.favorites && !r.threw
      && (c.state.None? ==> r.player == q.(playlist := [], favorites := p.favorites))
      && (c.state.Some? ==>
            r.player.currentTrackIndex == c.state.value.currentTrackIndex
            && r.player.repeatMode == c.state.value.repeatMode
            && r.player.isPlaying == q.isPlaying)
  {
  }

  /** Removing the only track with `id` from a two-track playlist leaves the other one. */
  lemma RemoveFirstOfTwo(ta: Track, tb: Track)
    requires ta.id != tb.id
    ensures WithoutTrack([ta, tb], ta.id) == [tb]
  {
    var r := WithoutTrack([ta, tb], ta.id);
    assert multiset([ta, tb])[tb] == 1;
    assert multiset(r)[tb] == 1;
    assert forall t :: t in r ==> t == tb;
    assert |r| <= 2;
    assert |r| == 1;
  }

  /**
   * The walk-through of an import, a favorite, a removal and a wrap-around:
   * import A (id 1) and B (id 2), favorite 1, delete 1, then play next
   * from index 0 of the one-track playlist.
   */
  lemma ImportFavoriteRemoveWalkthrough(a: FileEntry, b: FileEntry, rand: real)
    requires IsAudio(a) && IsAudio(b) && 0.0 <= rand < 1.0
    ensures HandleFiles(World(Initial, EmptyCache), [a, b], [1, 2], [true, true]).player.playlist
      == [NewTrack(a, 1), NewTrack(b, 2)]
    ensures ToggleFavorite(HandleFiles(World(Initial, EmptyCache), [a, b], [1, 2], [true, true]), 1).player.favorites
      == {1}
    ensures RemoveTrack(ToggleFavorite(HandleFiles(World(Initial, EmptyCache), [a, b], [1, 2], [true, true]), 1), 1, true).player
      == Initial.(playlist := [NewTrack(b, 2)], favorites := {})
    ensures PlayNext(Initial.(playlist := [NewTrack(b, 2)]), EmptyCache, rand).currentTrackIndex == 0
  {
    var ta, tb := NewTrack(a, 1), NewTrack(b, 2);
    assert [a, b][..1] == [a] && [1, 2][..1] == [1] && [true, true][..1] == [true];
    assert [a][..0] == [] && [1][..0] == [] && [true][..0] == [];
    assert Imported([a], [1], [true]) == [ta];
    assert Imported([a, b], [1, 2], [true, true]) == [ta, tb];
    var w1 := HandleFiles(World(Initial, EmptyCache), [a, b], [1, 2], [true, true]);
    assert w1.player == Initial.(playlist := [ta, tb]);
    var w2 := ToggleFavorite(w1, 1);
    assert w2.player.favorites == {1};
    RemoveFirstOfTwo(ta, tb);
  }
}
