# ExPlayer bookkeeping, in Dafny

ExPlayer is a browser music player built around one class, `ExPlayer`, in
`script.js`. This project models that class's playback and playlist
bookkeeping, and proves what each operation promises. It covers:

- the playlist, the favorites set and the current index;
- the play, shuffle and repeat flags;
- the position the player records;
- the three session-cache entries it writes to `localStorage`;
- the rules that decide what an import adds, what a removal keeps, which
  track "next", "previous" and "track ended" select, how a saved session
  is restored, and how a time is displayed.

Layout:

- `wrappers.dfy`: `Option`.
- `seqs.dfy`: the array methods the player uses: `Filter` models
  `filter`, and `IndexOf` models `indexOf` and underlies `findIndex`.
  `Subsequence` is a ghost predicate that states order is kept.
- `tracks.dfy`: tracks and files.
  - The title rule: the name with the regular expression `\.[^/.]+$`
    removed.
  - The list an import of a batch of files appends.
  - Removal by id, the favorites view and `findIndex`.
- `time_format.dfy`: `formatTime`.
- `transport.dfy`: the repeat-mode cycle, next and previous index with
  wrap-around, and the shuffle index.
- `session.dfy`: the player's fields as a value (`PlayerState`) and the
  cache as a value (`Cache`).
  - One function per operation gives the state that operation leaves.
  - The lemmas relate the operations: round trips, periods and what
  stays mirrored.
- `player.dfy`: the imperative side.
  - `class ExPlayer` holds the same fields and updates them in place.
  - `class LocalStorage` holds the three entries.
  - Every method's `ensures` gives its whole new state. In most cases that
    is the matching `Session` function of the old state.
    `LoadFromDatabase` states its new state directly.
  - `ReloadRestoresSession` saves from one player and restores into a new
    player built over the same storage.

Outside inputs become parameters:

- **Math.random():** a `rand` in [0, 1).
- **Date.now() + Math.random():** the fresh id drawn for each file, passed
  in `ids`.
- **IndexedDB:** whether the durable store's write or delete succeeded (`stored`,
  `deleted`).
- **The store's read:** the playlist it returned (`LoadFromDatabase`).
- **The media element:** its duration (`SeekTo`) and the position it reports on timeupdate (`TimeUpdate`).

The media element is reduced to the two facts the bookkeeping decides:
- `loaded`, the track whose audio it holds;
- `mediaPosition`, its playback position.

Behaviour that follows the code as written:

- `removeTrack` leaves `currentTrackIndex` as it was, so it can point past
  the end after a removal.
- A later restore with such an index and a playing state dereferences a
  missing track and throws. `LoadFromLocalStorage` reports this as
  `threw`, and `RestoreAfterSave` states exactly when it happens.
- Under repeat mode "none", the end of the last track changes nothing:
  `isPlaying` stays true.
- Under repeat mode "one", the track restarts at 0 and no field changes.
- `loadFromLocalStorage` is a method of the player, but nothing in the
  program calls it. At startup only the playlist is restored, from the
  durable store.
- `toggleFavorite` accepts an id that is in no track.
- A repeat mode outside the three known ones steps to "none".

## Model

| member | source | states |
|---|---|---|
| Seqs.Filter | script.js:189 | the kept elements are exactly the members that satisfy the predicate; each one keeps its multiplicity; never longer than the input |
| Seqs.FilterKeepsOrder | script.js:189 | filtering keeps the relative order of the survivors (a subsequence of the input) |
| Seqs.IndexOf | script.js:270 | -1 exactly when the element is absent; otherwise the first position that holds it |
| Tracks.PlainSuffixLength | script.js:166 | the longest tail free of "." and "/"; the character just before it is a separator |
| Tracks.ExtensionIsPlainSuffix | script.js:166 | a match of the extension pattern at k is exactly that separator-free tail with its dot |
| Tracks.StripExtension | script.js:166 | the title is a prefix of the name; a dotless name is unchanged; a cut removes exactly a "." followed by one or more characters other than "." and "/" up to the end; whenever such a tail exists, it is what is removed |
| Tracks.StripExtensionExamples | script.js:166 | "song.mp3" becomes "song", "live.2019.flac" becomes "live.2019"; "notes" and "trailing." are unchanged; ".mp3" becomes "" |
| Tracks.IsAudio | script.js:161 | a file is accepted exactly when its declared type starts with "audio/" |
| Tracks.NewTrack | script.js:163-170 | the new track has the drawn id, the title StripExtension gives for the file name (a prefix of it, and the whole name when it has no dot), the unknown-artist name and duration 0 |
| Tracks.ImportStep | script.js:161-172 | one file contributes one track exactly when it is audio and its store succeeded, and that track is NewTrack of it; otherwise nothing |
| Tracks.Imported | script.js:159-178 | an import appends at most one track per file; each has the unknown-artist name and duration 0 |
| Tracks.ImportedMembers | script.js:159-178 | a track is imported exactly when some file with an "audio/" type whose store succeeded produced it, with that file's id and stripped name |
| Tracks.ImportedOnlyProduced | script.js:159-178 | every imported track comes from an accepted, stored file |
| Tracks.ProducedIsImported | script.js:159-178 | every accepted, stored file contributes its track |
| Tracks.ImportedLast | script.js:160 | adding one file at the end of a batch appends that file's contribution |
| Tracks.ImportedConcatLast | script.js:160 | splitting the last file off the second of two batches |
| Tracks.ImportedConcat | script.js:160 | importing two batches in turn is importing their concatenation (files are handled in order) |
| Tracks.WithoutTrack | script.js:189 | the remaining tracks are exactly those with a different id; each keeps its multiplicity and the order is kept |
| Tracks.FavoritesView | script.js:347-348 | the favorites list holds exactly the playlist tracks whose id is a favorite, each as many times as in the playlist, in playlist order |
| Tracks.FindIndex | script.js:365 | -1 exactly when no track has the id; otherwise the first position whose track has it |
| TimeFormat.ToDecimal | script.js:311 | Number.prototype.toString on a natural number: digits only, no leading zero except for 0, one digit below 10, two below 100 |
| TimeFormat.DecimalRoundTrip | script.js:311 | reading the decimal text back gives the number |
| TimeFormat.PadStart | script.js:311 | padStart: the result is the target width (or the input when already wider); it ends with the input and the fill characters come before it |
| TimeFormat.FormatTime | script.js:308-312 | the display has at least four characters, with the colon third from the end |
| TimeFormat.FloorSplit | script.js:309-310 | floor(t / 60) and floor(t % 60) on a non-negative time are the minutes and remaining seconds of floor(t) |
| TimeFormat.FormatSeconds | script.js:308-312 | formatTime on a fractional time shows the display of its whole seconds |
| TimeFormat.SecondsFieldDigits | script.js:311 | a seconds value below 60 is shown as exactly two digits that read back as it |
| TimeFormat.FormatTimeFields | script.js:308-312 | the display is minutes, ":", two seconds digits; the minutes field is canonical; the seconds are below 60; minutes * 60 + seconds is the time |
| TimeFormat.FormatTimeInjective | script.js:308-312 | two different whole-second times never show the same text |
| TimeFormat.FormatTimeExample | script.js:308-312 | 65 seconds is shown as "1:05" |
| Transport.NextRepeatMode | script.js:268-271 | none goes to one, one to all, all to none; an unknown mode goes to none; the result is always a known mode |
| Transport.RepeatModePeriod | script.js:268-271 | three toggles bring back a known mode; an unknown one ends at "all" |
| Transport.NextIndex | script.js:247 | always a valid index; one step forward, and after the last index, back to 0 |
| Transport.PreviousIndex | script.js:258 | always a valid index; one step back, and from 0, to the last index |
| Transport.NextIndexMod | script.js:247 | stepping from a stale index lands where stepping from its remainder does |
| Transport.PreviousUndoesNext | script.js:241-261 | previous after next gives back the starting index, reduced modulo the length |
| Transport.NextUndoesPrevious | script.js:241-261 | next after previous gives back the starting index, reduced modulo the length |
| Transport.ShuffleIndex | script.js:245 | Math.floor(rand * length) with rand in [0, 1) is always a valid index |
| Session.Save | script.js:381-400 | the playlist and favorites entries are always rewritten; the playback entry is the captured state for a non-empty playlist and is left as it was otherwise |
| Session.SaveEntries | script.js:381-400 | a save mirrors the playlist and favorites; it keeps the previous playback entry only for an empty playlist; saving twice is saving once |
| Session.TrackState | script.js:436-446 | the saved state comes back exactly when its index is inside the playlist and holds a track with the given id; otherwise nothing |
| Session.SavedTrackResumes | script.js:216-221 | after a save, the current track's saved state passes the guard, and playing it resumes at the recorded position |
| Session.PlayTrack | script.js:210-226 | the track is loaded and isPlaying set, and nothing else changes; the start position is the saved time when the saved index holds a track with this id, and 0 otherwise (a missing, stale or other-track entry) |
| Session.TogglePlay | script.js:228-239 | no effect on an empty playlist; otherwise isPlaying flips and nothing else changes |
| Session.ToggleShuffle | script.js:263-266 | the shuffle flag flips and nothing else changes |
| Session.ToggleRepeat | script.js:268-275 | the repeat mode always changes, always to one of the three known modes, and nothing else changes |
| Session.TogglePlayFlips | script.js:228-239 | no effect on an empty playlist; otherwise isPlaying flips; toggling twice changes nothing |
| Session.ToggleShuffleFlips | script.js:263-266 | the shuffle flag flips; toggling twice changes nothing |
| Session.ToggleRepeatPeriod | script.js:268-271 | three repeat toggles give back the whole state, for a known mode |
| Session.PlayNext | script.js:241-250 | no effect on an empty playlist; otherwise its track is played at the new index, and nothing else changes; that index is the next one with wrap-around, or the shuffle index |
| Session.PlayPrevious | script.js:252-261 | no effect on an empty playlist; otherwise its track is played at the new index, and nothing else changes; that index is the previous one with wrap-around, or the shuffle index |
| Session.PreviousAfterNext | script.js:241-261 | without shuffle, previous after next plays the starting index reduced modulo the length |
| Session.HandleTrackEnd | script.js:277-291 | "one": restart at 0 and change nothing else; "all": play the next index, wrapping to 0 after the last; otherwise: advance only before the last track, and at or past it change nothing |
| Session.SelectTrack | script.js:337-340 | a click on a playlist row sets that index and plays its track |
| Session.SelectFavorite | script.js:364-367 | a click on a favorites row sets the first index holding that id and plays the clicked track |
| Session.SeekTo | script.js:448-454 | with no known duration nothing changes; otherwise the media and recorded positions move to the fraction, and the cache is Save of the new fields, so its playback entry holds the sought position for a non-empty playlist |
| Session.SeekThenReplayResumes | script.js:448-454 | after a seek, playing the current track again starts at the sought position |
| Session.TransportKeepsMirror | script.js:228-291 | the transport operations leave the playlist and favorites as they were, so a mirrored cache stays mirrored |
| Session.AddTrack | script.js:180-184 | the playlist grows by one; the old tracks come first and the new one last; no other field changes; the cache mirrors it and holds the playback entry |
| Session.RemoveTrack | script.js:186-197 | a failed delete changes nothing; otherwise the remaining tracks are exactly those with another id, each as many times as before, in order; the id leaves the favorites; the index is untouched; the cache is Save of the new fields (mirrored lists, and the playback entry rewritten for a non-empty playlist) |
| Session.ToggleFavorite | script.js:199-208 | the id's membership flips, every other id keeps its membership, no other field changes; the cache is Save of the new fields (mirrored lists, and the playback entry rewritten for a non-empty playlist) |
| Session.ToggleFavoriteTwice | script.js:199-208 | toggling a favorite twice gives back the player as it was |
| Session.ImportFile | script.js:161-172 | one file appends its contribution (ImportStep); the cache is saved when that contribution is a track; nothing changes otherwise |
| Session.AppendedAfterTwice | script.js:160 | two appends in a row are one append of both |
| Session.HandleFiles | script.js:159-178 | handleFiles appends exactly the imported tracks and changes no other field; the cache is saved when a track was added and untouched otherwise |
| Session.TimeUpdate | script.js:293-298 | a timeupdate records the element's position as the player's position; no other field changes and nothing is saved |
| Session.TimeUpdateThenSaveResumes | script.js:293-298 | the position a timeupdate records is what the next save stores, and replaying the current track then resumes there |
| Session.LoadFromLocalStorage | script.js:402-434 | a missing cache entry leaves its fields as they were; with no playback entry nothing else changes and nothing throws |
| Session.RestoreAfterSave | script.js:381-434 | saving a non-empty playlist and restoring into any player brings back the playlist, favorites, index, shuffle, repeat mode and recorded position; it throws exactly for a playing session with a stale index; otherwise a playing session resumes its track at the recorded position |
| Session.RestoreAfterSaveEmpty | script.js:393-400 | saving an empty playlist keeps the old playback entry, and a restore takes the index and mode from it |
| Session.RemoveFirstOfTwo | script.js:189 | deleting one of two tracks with distinct ids leaves the other |
| Session.ImportFavoriteRemoveWalkthrough | script.js:159-250 | two files imported into a new player; the first favorited, then removed: the playlist is the second track alone, the favorites are empty and "next" selects index 0 |
| Player.LocalStorage.constructor | script.js:402-406 | a storage nothing was written to holds no entries |
| Player.ExPlayer.constructor | script.js:2-16 | a new player: empty playlist and favorites, index 0, not playing, no shuffle, repeat "none", position 0 |
| Player.ExPlayer.LoadFromDatabase | script.js:131-146 | the playlist becomes what the store returned; nothing else changes |
| Player.ExPlayer.SaveToLocalStorage | script.js:381-400 | the storage holds what Session.Save gives for the current fields |
| Player.ExPlayer.LoadFromLocalStorage | script.js:402-434 | the new fields and the throw flag are what Session.LoadFromLocalStorage gives |
| Player.ExPlayer.GetTrackState | script.js:436-446 | returns Session.TrackState of the cached playback entry |
| Player.ExPlayer.PlayTrack | script.js:210-226 | the new fields are Session.PlayTrack of the old ones |
| Player.ExPlayer.TogglePlay | script.js:228-239 | the new fields are Session.TogglePlay of the old ones |
| Player.ExPlayer.PlayNext | script.js:241-250 | the new fields are Session.PlayNext of the old ones |
| Player.ExPlayer.PlayPrevious | script.js:252-261 | the new fields are Session.PlayPrevious of the old ones |
| Player.ExPlayer.ToggleShuffle | script.js:263-266 | the new fields are Session.ToggleShuffle of the old ones |
| Player.ExPlayer.ToggleRepeat | script.js:268-275 | the repeat mode steps as NextRepeatMode says; nothing else changes |
| Player.ExPlayer.HandleTrackEnd | script.js:277-291 | the new fields are Session.HandleTrackEnd of the old ones |
| Player.ExPlayer.SelectTrack | script.js:337-340 | the new fields are Session.SelectTrack of the old ones |
| Player.ExPlayer.SelectFavorite | script.js:364-367 | the new fields are Session.SelectFavorite of the old ones |
| Player.ExPlayer.UpdateProgress | script.js:293-298 | the new fields are Session.TimeUpdate of the old ones |
| Player.ExPlayer.SeekTo | script.js:448-454 | fields and storage are Session.SeekTo of the old ones |
| Player.ExPlayer.AddTrack | script.js:180-184 | fields and storage are Session.AddTrack of the old ones |
| Player.ExPlayer.RemoveTrack | script.js:186-197 | fields and storage are Session.RemoveTrack of the old ones |
| Player.ExPlayer.ToggleFavorite | script.js:199-208 | fields and storage are Session.ToggleFavorite of the old ones |
| Player.ExPlayer.HandleFiles | script.js:159-178 | fields and storage are Session.HandleFiles of the old ones, processing one file per loop iteration; the playlist gains exactly Imported of the batch and no other field changes |
| Player.ReloadRestoresSession | script.js:381-434 | a player built over the same storage after a save restores the index, modes, playlist, favorites and position of the saving player; it throws exactly for a stale index while playing; otherwise it resumes the track that was playing |

## Left out

- **Page and DOM work:** these functions are not modelled: `initializeElements`, `setupEventListeners`,
  `updatePlaylist`, `updateFavorites` and `updatePlayButton`.
  - `switchTab` and the icon updates in `toggleShuffle` and
    `toggleRepeat` are not modelled either.
  - They only render state.
  - The click handlers that select a row are modelled as
    `SelectTrack` and `SelectFavorite`.
- **IndexedDB:** the calls are not modelled: `initDatabase`,
  `saveToDatabase`, `deleteFromDatabase`, and the request inside
  `loadFromDatabase`.
  - Their only effect on the bookkeeping is success or failure, and the
    list read back. Both are parameters.
- **Async interleaving:** handleFiles is modelled as if each file's store finished before the next file
  starts. Concurrent user actions during an import are not modelled.
- **Audio payload:** the track's `data` field is not modelled, nor its conversion to a Blob URL. The
  cached playlist is restored with the rest of each track record.
- **Media element:** playback, `audio.duration` and the browser's clamping of
  `currentTime` are left out. The element's clock is outside the model:
  the position it has reached comes in as a parameter of `TimeUpdate`.
  - `UpdateProgress` (updateProgress) records that position. The
    progress bar and the time text it also writes are left out.
  - `updateDuration` and `setVolume` only pass values between the element
    and the screen, so they are left out.
- **Unknown duration:** an unknown `audio.duration` (NaN or 0) is modelled as `duration == 0`.
- **Floating point:** positions are modelled as exact reals; IEEE rounding
  of `position * duration` is not modelled.
- **Ids:** track ids are modelled as `int`. The source draws a timestamp plus a random
  fraction; only equality is used.
- **Malformed cache entries:** cache entries that are not the JSON the player wrote are left out.
  A missing entry is `None`, and each present entry has the shape a save writes.
- Session.LoadFromLocalStorage does not model: a saved index that is not a
  non-negative integer.
- **Favorites order:** the insertion order of the favorites `Set` is left
  out, because the model uses a mathematical set. Only membership is ever
  read.
- TimeFormat.FormatSeconds does not model: negative or NaN times, which formatTime
  is never given by a working media element.
- Session.ToggleRepeatPeriod is stated only for the three known modes.
  An unknown mode ends at "all" after three toggles; `Transport.RepeatModePeriod` states this.
- TimeFormat.ToDecimal: times are unbounded natural numbers. JavaScript's
  number width is not modelled: `toString` switches to exponent form
  ("1e+21") from 10^21 on, and integers above 2^53 lose precision.
  Positions of a real media element stay far below both bounds.
