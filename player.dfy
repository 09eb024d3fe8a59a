/**
 * The player object. Its methods update its fields in place, as the
 * browser player does, and each is proved to leave exactly the state the
 * matching function of module Session describes. The session cache is a
 * separate object: it outlives the player, and a new player can restore
 * from what an earlier one saved.
 */
module Player {
  import opened Wrappers
  import opened Tracks
  import opened Transport
  import Session

  /** The browser's localStorage, restricted to the player's three entries. */
  class LocalStorage {
    var playlistEntry: Option<seq<Track>>
    var favoritesEntry: Option<set<TrackId>>
    var stateEntry: Option<Session.Snapshot>

    constructor ()
      ensures Entries() == Session.EmptyCache
    {
      playlistEntry, favoritesEntry, stateEntry := None, None, None;
    }

    ghost function Entries(): Session.Cache
      reads this
    {
      Session.Cache(playlistEntry, favoritesEntry, stateEntry)
    }
  }

  class ExPlayer {
    var playlist: seq<Track>
    var currentTrackIndex: nat
    var isPlaying: bool
    var isShuffled: bool
    var repeatMode: string
    var favorites: set<TrackId>
    var currentTime: real
    /** The track whose audio the media element holds. */
    var loaded: Option<Track>
    /** The media element's playback position. */
    var mediaPosition: real
    const storage: LocalStorage

    ghost function State(): Session.PlayerState
      reads this
    {
      Session.PlayerState(playlist, favorites, currentTrackIndex, isPlaying, isShuffled, repeatMode,
                          currentTime, loaded, mediaPosition)
    }

    ghost function World(): Session.World
      reads this, storage
    {
      Session.World(State(), storage.Entries())
    }

    /** A new player; the store's open-and-load that the constructor starts is LoadFromDatabase. */
    constructor (storage: LocalStorage)
      ensures State() == Session.Initial && this.storage == storage
    {
      playlist := [];
      currentTrackIndex := 0;
      isPlaying := false;
      isShuffled := false;
      repeatMode := "none";
      favorites := {};
      currentTime := 0.0;
      loaded := None;
      mediaPosition := 0.0;
      this.storage := storage;
    }

    /** loadFromDatabase: the playlist becomes what the durable store returned; nothing else is restored. */
    method LoadFromDatabase(stored: seq<Track>)
      modifies this
      ensures State() == old(State()).(playlist := stored)
    {
      playlist := stored;
    }

    method SaveToLocalStorage()
      modifies storage
      ensures storage.Entries() == Session.Save(State(), old(storage.Entries()))
    {
      storage.playlistEntry := Some(playlist);
      storage.favoritesEntry := Some(favorites);
      if |playlist| > 0 {
        storage.stateEntry := Some(Session.Snapshot(currentTime, isPlaying, currentTrackIndex, isShuffled, repeatMode));
      }
    }

    method LoadFromLocalStorage() returns (threw: bool)
      modifies this
      ensures Session.Restore(State(), threw) == Session.LoadFromLocalStorage(old(State()), storage.Entries())
    {
      if storage.playlistEntry.Some? {
        playlist := storage.playlistEntry.value;
      }
      if storage.favoritesEntry.Some? {
        favorites := storage.favoritesEntry.value;
      }
      threw := false;
      if storage.stateEntry.Some? {
        var state := storage.stateEntry.value;
        currentTrackIndex := state.currentTrackIndex;
        isShuffled := state.isShuffled;
        repeatMode := state.repeatMode;
        currentTime := state.currentTime;
        if state.isPlaying && |playlist| > 0 {
          if currentTrackIndex < |playlist| {
            PlayTrack(playlist[currentTrackIndex]);
          } else {
            // playlist[currentTrackIndex] is undefined and playTrack reads a field of it
            threw := true;
          }
        }
      }
    }

    /** getTrackState, reading the cache's playback entry. */
    method GetTrackState(id: TrackId) returns (state: Option<Session.Snapshot>)
      ensures state == Session.TrackState(storage.stateEntry, playlist, id)
    {
      state := None;
      if storage.stateEntry.Some? {
        var s := storage.stateEntry.value;
        if s.currentTrackIndex < |playlist| && playlist[s.currentTrackIndex].id == id {
          state := storage.stateEntry;
        }
      }
    }

    /** playTrack, without the media element: load the track, restore its saved position, mark playing. */
    method PlayTrack(track: Track)
      modifies this
      ensures State() == Session.PlayTrack(old(State()), storage.Entries(), track)
    {
      loaded := Some(track);
      var savedState := GetTrackState(track.id);
      if savedState.Some? && savedState.value.currentTime != 0.0 {
        mediaPosition := savedState.value.currentTime;
      } else {
        mediaPosition := 0.0;
      }
      isPlaying := true;
    }

    method TogglePlay()
      modifies this
      ensures State() == Session.TogglePlay(old(State()))
    {
      if |playlist| == 0 {
        return;
      }
      isPlaying := !isPlaying;
    }

    method PlayNext(rand: real)
      requires 0.0 <= rand < 1.0
      modifies this
      ensures State() == Session.PlayNext(old(State()), storage.Entries(), rand)
    {
      if |playlist| == 0 {
        return;
      }
      if isShuffled {
        currentTrackIndex := ShuffleIndex(rand, |playlist|);
      } else {
        currentTrackIndex := (currentTrackIndex + 1) % |playlist|;
      }
      PlayTrack(playlist[currentTrackIndex]);
    }

    method PlayPrevious(rand: real)
      requires 0.0 <= rand < 1.0
      modifies this
      ensures State() == Session.PlayPrevious(old(State()), storage.Entries(), rand)
    {
      if |playlist| == 0 {
        return;
      }
      if isShuffled {
        currentTrackIndex := ShuffleIndex(rand, |playlist|);
      } else {
        currentTrackIndex := (currentTrackIndex - 1 + |playlist|) % |playlist|;
      }
      PlayTrack(playlist[currentTrackIndex]);
    }

    method ToggleShuffle()
      modifies this
      ensures State() == Session.ToggleShuffle(old(State()))
    {
      isShuffled := !isShuffled;
    }

    method ToggleRepeat()
      modifies this
      ensures State() == Session.ToggleRepeat(old(State()))
    {
      var currentIndex := Seqs.IndexOf(Modes, repeatMode);
      repeatMode := Modes[(currentIndex + 1) % |Modes|];
    }

    method HandleTrackEnd(rand: real)
      requires 0.0 <= rand < 1.0
      modifies this
      ensures State() == Session.HandleTrackEnd(old(State()), storage.Entries(), rand)
    {
      if repeatMode == "one" {
        mediaPosition := 0.0;
      } else if repeatMode == "all" {
        PlayNext(rand);
      } else if (currentTrackIndex as int) < |playlist| - 1 {
        PlayNext(rand);
      }
    }

    /** A click on playlist row `index`. */
    method SelectTrack(index: nat)
      requires index < |playlist|
      modifies this
      ensures State() == Session.SelectTrack(old(State()), storage.Entries(), index)
    {
      currentTrackIndex := index;
      PlayTrack(playlist[index]);
    }

    /** A click on the favorites row showing `track`. */
    method SelectFavorite(track: Track)
      requires track in FavoritesView(playlist, favorites)
      modifies this
      ensures State() == Session.SelectFavorite(old(State()), storage.Entries(), track)
    {
      var i := FindIndex(playlist, track.id);
      assert i != -1 by {
        var k :| 0 <= k < |playlist| && playlist[k] == track;
      }
      currentTrackIndex := i;
      PlayTrack(track);
    }

    /** updateProgress, given the position the media element reports on timeupdate. */
    method UpdateProgress(position: real)
      modifies this
      ensures State() == Session.TimeUpdate(old(State()), position)
    {
      mediaPosition := position;
      currentTime := mediaPosition;
    }

    /** seekTo, given the media element's duration (0 when it is not yet known). */
    method SeekTo(fraction: real, duration: real)
      requires 0.0 <= fraction <= 1.0 && duration >= 0.0
      modifies this, storage
      ensures World() == Session.SeekTo(old(World()), fraction, duration)
    {
      if duration != 0.0 {
        mediaPosition := fraction * duration;
        currentTime := mediaPosition;
        SaveToLocalStorage();
      }
    }

    method AddTrack(track: Track)
      modifies this, storage
      ensures World() == Session.AddTrack(old(World()), track)
    {
      playlist := playlist + [track];
      SaveToLocalStorage();
    }

    /** removeTrack, given whether the durable store's delete succeeded. */
    method RemoveTrack(id: TrackId, deleted: bool)
      modifies this, storage
      ensures World() == Session.RemoveTrack(old(World()), id, deleted)
    {
      if !deleted {
        return;
      }
      playlist := WithoutTrack(playlist, id);
      favorites := favorites - {id};
      SaveToLocalStorage();
    }

    method ToggleFavorite(id: TrackId)
      modifies this, storage
      ensures World() == Session.ToggleFavorite(old(World()), id)
    {
      if id in favorites {
        favorites := favorites - {id};
      } else {
        favorites := favorites + {id};
      }
      SaveToLocalStorage();
    }

    /**
     * handleFiles: each file in turn; an audio file gets the fresh id
     * `ids[i]` and is added when its read-and-store succeeded (`stored[i]`).
     */
    method HandleFiles(files: seq<FileEntry>, ids: seq<TrackId>, stored: seq<bool>)
      requires |ids| == |files| && |stored| == |files|
      modifies this, storage
      ensures World() == Session.HandleFiles(old(World()), files, ids, stored)
      ensures State() == old(State()).(playlist := old(playlist) + Imported(files, ids, stored))
    {
      var i := 0;
      while i < |files|
        invariant 0 <= i <= |files|
        invariant World() == Session.HandleFiles(old(World()), files[..i], ids[..i], stored[..i])
      {
        var file := files[i];
        ghost var before := World();
        if IsAudio(file) && stored[i] {
          AddTrack(NewTrack(file, ids[i]));
        }
        assert World() == Session.ImportFile(before, file, ids[i], stored[i]);
        assert files[..i + 1][..i] == files[..i] && ids[..i + 1][..i] == ids[..i] && stored[..i + 1][..i] == stored[..i];
        assert files[..i + 1][i] == file && ids[..i + 1][i] == ids[i] && stored[..i + 1][i] == stored[i];
        assert Session.HandleFiles(old(World()), files[..i + 1], ids[..i + 1], stored[..i + 1])
            == Session.ImportFile(before, file, ids[i], stored[i]);
        i := i + 1;
      }
      assert files[..i] == files && ids[..i] == ids && stored[..i] == stored;
    }
  }

  /**
   * Save from one player and restore into a player built later over the
   * same cache: the playlist, favorites, index, modes and position return.
   */
  method ReloadRestoresSession(p: ExPlayer) returns (q: ExPlayer, threw: bool)
    requires |p.playlist| > 0
    modifies p.storage
    ensures fresh(q) && q.storage == p.storage
    ensures q.playlist == p.playlist && q.favorites == p.favorites
    ensures q.currentTrackIndex == p.currentTrackIndex && q.isShuffled == p.isShuffled
    ensures q.repeatMode == p.repeatMode && q.currentTime == p.currentTime
    ensures threw <==> p.isPlaying && p.currentTrackIndex >= |p.playlist|
    ensures p.isPlaying && !threw ==> q.isPlaying && q.loaded == Some(p.playlist[p.currentTrackIndex])
  {
    p.SaveToLocalStorage();
    q := new ExPlayer(p.storage);
    Session.RestoreAfterSave(p.State(), old(p.storage.Entries()), q.State());
    threw := q.LoadFromLocalStorage();
  }
}
