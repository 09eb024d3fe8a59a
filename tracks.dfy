/**
 * Tracks and the pure rules around them: the title an imported file gets,
 * which files an import accepts, the list an import appends, and the two
 * filters over the playlist (removal by id and the favorites view).
 */
module Tracks {
  import opened Seqs

  /** Ids are caller-supplied values (the player uses a timestamp plus a random fraction); only equality matters. */
  type TrackId = int

  /** A playlist entry. The audio payload plays no part in the bookkeeping and is not modelled. */
  datatype Track = Track(id: TrackId, title: string, artist: string, duration: real)

  /** What the browser hands to an import: the file's name and its declared media type. */
  datatype FileEntry = FileEntry(name: string, mimeType: string)

  /** The artist every imported track gets ("unknown artist"). */
  const UnknownArtist: string := "Неизвестный исполнитель"

  /** Only files whose declared type starts with "audio/" are imported. */
  predicate IsAudio(f: FileEntry)
    ensures IsAudio(f) <==> |f.mimeType| >= 6 && f.mimeType[..6] == "audio/"
  {
    "audio/" <= f.mimeType
  }

  /** A final "." followed by one or more characters, none of them "." or "/". */
  predicate IsExtension(s: string) {
    |s| >= 2 && s[0] == '.' && forall j :: 1 <= j < |s| ==> s[j] != '.' && s[j] != '/'
  }

  predicate IsSeparator(c: char) {
    c == '.' || c == '/'
  }

  /** Length of the longest suffix of `s` containing neither "." nor "/". */
  function PlainSuffixLength(s: string): (n: nat)
    ensures n <= |s|
    ensures forall j :: |s| - n <= j < |s| ==> !IsSeparator(s[j])
    ensures n < |s| ==> IsSeparator(s[|s| - n - 1])
  {
    if s == [] || IsSeparator(s[|s| - 1]) then 0
    else
      var n := PlainSuffixLength(s[..|s| - 1]);
      assert forall j :: 0 <= j < |s| - 1 ==> s[..|s| - 1][j] == s[j];
      1 + n
  }

  /** An extension that starts at `k` is exactly the plain suffix after position k. */
  lemma ExtensionIsPlainSuffix(name: string, k: nat)
    requires k < |name| && IsExtension(name[k..])
    ensures PlainSuffixLength(name) == |name| - k - 1
  {
  }

  /**
   * The title of an imported file: its name with the regular expression
   * \.[^/.]+$ replaced by nothing. The match, when there is one, starts at
   * the last "." of the name, so at most one cut is possible.
   */
  function StripExtension(name: string): (title: string)
    ensures title <= name
    ensures '.' !in name ==> title == name
    ensures title != name ==> IsExtension(name[|title|..])
    ensures forall k :: 0 <= k < |name| && IsExtension(name[k..]) ==> title == name[..k]
  {
    var n := PlainSuffixLength(name);
    assert forall k :: 0 <= k < |name| && IsExtension(name[k..]) ==> n == |name| - k - 1 by {
      forall k | 0 <= k < |name| && IsExtension(name[k..]) {
        ExtensionIsPlainSuffix(name, k);
      }
    }
    if 0 < n < |name| && name[|name| - n - 1] == '.' then
      var k := |name| - n - 1;
      assert forall j :: 1 <= j < |name[k..]| ==> name[k..][j] == name[k + j];
      name[..k]
    else
      assert forall k :: 0 <= k < |name| && IsExtension(name[k..]) ==> name[k..][0] == name[k];
      name
  }

  lemma StripExtensionExamples()
    ensures StripExtension("song.mp3") == "song"
    ensures StripExtension("live.2019.flac") == "live.2019"
    ensures StripExtension("notes") == "notes"
    ensures StripExtension("trailing.") == "trailing."
    ensures StripExtension(".mp3") == ""
  {
    assert IsExtension("song.mp3"[4..]);
    assert IsExtension("live.2019.flac"[9..]);
    assert IsExtension(".mp3"[0..]);
  }

  /** The track an import builds from an accepted file and its fresh id. */
  function NewTrack(f: FileEntry, id: TrackId): (t: Track)
    ensures t.id == id && t.title <= f.name && t.artist == UnknownArtist && t.duration == 0.0
    ensures t.title == StripExtension(f.name)
    ensures '.' !in f.name ==> t.title == f.name
  {
    Track(id, StripExtension(f.name), UnknownArtist, 0.0)
  }

  /** What one file contributes to an import: its track when it is audio and was stored, else nothing. */
  function ImportStep(f: FileEntry, id: TrackId, stored: bool): (r: seq<Track>)
    ensures |r| <= 1
    ensures r != [] <==> IsAudio(f) && stored
    ensures forall t :: t in r ==> t == NewTrack(f, id)
  {
    if IsAudio(f) && stored then [NewTrack(f, id)] else []
  }

  /**
   * The tracks an import of `files` appends, in file order: one per audio
   * file whose read-and-store succeeded (`stored`), using the id the caller
   * drew for that file (`ids`).
   */
  function Imported(files: seq<FileEntry>, ids: seq<TrackId>, stored: seq<bool>): (r: seq<Track>)
    requires |ids| == |files| && |stored| == |files|
    ensures |r| <= |files|
    ensures forall t :: t in r ==> t.artist == UnknownArtist && t.duration == 0.0
    decreases |files|
  {
    if files == [] then []
    else
      var n := |files| - 1;
      Imported(files[..n], ids[..n], stored[..n]) + ImportStep(files[n], ids[n], stored[n])
  }

  /** One accepted, stored file of the batch, and the track it produced. */
  ghost predicate ProducedBy(files: seq<FileEntry>, ids: seq<TrackId>, stored: seq<bool>, i: int, t: Track)
    requires |ids| == |files| && |stored| == |files|
  {
    0 <= i < |files| && IsAudio(files[i]) && stored[i] && t == NewTrack(files[i], ids[i])
  }

  /** A track is imported exactly when some accepted, stored file produced it. */
  lemma ImportedMembers(files: seq<FileEntry>, ids: seq<TrackId>, stored: seq<bool>, t: Track)
    requires |ids| == |files| && |stored| == |files|
    ensures t in Imported(files, ids, stored) <==> exists i :: ProducedBy(files, ids, stored, i, t)
  {
    if t in Imported(files, ids, stored) {
      ImportedOnlyProduced(files, ids, stored, t);
    }
    if exists i :: ProducedBy(files, ids, stored, i, t) {
      var i :| ProducedBy(files, ids, stored, i, t);
      ProducedIsImported(files, ids, stored, i, t);
    }
  }

  lemma {:induction false} ImportedOnlyProduced(files: seq<FileEntry>, ids: seq<TrackId>, stored: seq<bool>, t: Track)
    requires |ids| == |files| && |stored| == |files|
    requires t in Imported(files, ids, stored)
    ensures exists i :: ProducedBy(files, ids, stored, i, t)
    decreases |files|
  {
    var n := |files| - 1;
    var f', i', s' := files[..n], ids[..n], stored[..n];
    if t in Imported(f', i', s') {
      ImportedOnlyProduced(f', i', s', t);
      var i :| ProducedBy(f', i', s', i, t);
      assert ProducedBy(files, ids, stored, i, t);
    } else {
      assert ProducedBy(files, ids, stored, n, t);
    }
  }

  lemma {:induction false} ProducedIsImported(files: seq<FileEntry>, ids: seq<TrackId>, stored: seq<bool>, i: int, t: Track)
    requires |ids| == |files| && |stored| == |files|
    requires ProducedBy(files, ids, stored, i, t)
    ensures t in Imported(files, ids, stored)
    decreases |files|
  {
    var n := |files| - 1;
    if i < n {
      var f', i', s' := files[..n], ids[..n], stored[..n];
      assert ProducedBy(f', i', s', i, t);
      ProducedIsImported(f', i', s', i, t);
    } else {
      assert t in ImportStep(files[n], ids[n], stored[n]);
    }
  }

  lemma ImportedLast(files: seq<FileEntry>, ids: seq<TrackId>, stored: seq<bool>,
                     f: FileEntry, id: TrackId, ok: bool)
    requires |ids| == |files| && |stored| == |files|
    ensures Imported(files + [f], ids + [id], stored + [ok]) == Imported(files, ids, stored) + ImportStep(f, id, ok)
  {
    var n := |files|;
    assert (files + [f])[..n] == files && (ids + [id])[..n] == ids && (stored + [ok])[..n] == stored;
  }

  /** Splitting the last file off the second of two batches. */
  lemma ImportedConcatLast(f1: seq<FileEntry>, i1: seq<TrackId>, s1: seq<bool>,
                           f2: seq<FileEntry>, i2: seq<TrackId>, s2: seq<bool>)
    requires |i1| == |f1| && |s1| == |f1|
    requires |i2| == |f2| && |s2| == |f2| && f2 != []
    ensures var n := |f2| - 1;
      Imported(f1 + f2, i1 + i2, s1 + s2)
        == Imported(f1 + f2[..n], i1 + i2[..n], s1 + s2[..n]) + ImportStep(f2[n], i2[n], s2[n])
  {
    var n := |f2| - 1;
    assert f1 + f2 == (f1 + f2[..n]) + [f2[n]];
    assert i1 + i2 == (i1 + i2[..n]) + [i2[n]];
    assert s1 + s2 == (s1 + s2[..n]) + [s2[n]];
    ImportedLast(f1 + f2[..n], i1 + i2[..n], s1 + s2[..n], f2[n], i2[n], s2[n]);
  }

  /** Files are processed in order: importing two batches one after the other is importing their concatenation. */
  lemma {:induction false} ImportedConcat(f1: seq<FileEntry>, i1: seq<TrackId>, s1: seq<bool>,
                                          f2: seq<FileEntry>, i2: seq<TrackId>, s2: seq<bool>)
    requires |i1| == |f1| && |s1| == |f1|
    requires |i2| == |f2| && |s2| == |f2|
    ensures Imported(f1 + f2, i1 + i2, s1 + s2) == Imported(f1, i1, s1) + Imported(f2, i2, s2)
    decreases |f2|
  {
    if f2 == [] {
      assert f1 + f2 == f1 && i1 + i2 == i1 && s1 + s2 == s1;
    } else {
      var n := |f2| - 1;
      ImportedConcatLast(f1, i1, s1, f2, i2, s2);
      ImportedConcat(f1, i1, s1, f2[..n], i2[..n], s2[..n]);
    }
  }

  /** The playlist left when the track with `id` is deleted: Array.prototype.filter on t.id !== id. */
  function WithoutTrack(playlist: seq<Track>, id: TrackId): (r: seq<Track>)
    ensures forall t :: t in r <==> t in playlist && t.id != id
    ensures forall t: Track :: t.id != id ==> multiset(r)[t] == multiset(playlist)[t]
    ensures Subsequence(r, playlist)
  {
    FilterKeepsOrder(playlist, (t: Track) => t.id != id);
    Filter(playlist, (t: Track) => t.id != id)
  }

  /** The favorites view: the playlist's favorite tracks, in playlist order. */
  function FavoritesView(playlist: seq<Track>, favorites: set<TrackId>): (r: seq<Track>)
    ensures forall t :: t in r <==> t in playlist && t.id in favorites
    ensures forall t: Track :: multiset(r)[t] == if t.id in favorites then multiset(playlist)[t] else 0
    ensures Subsequence(r, playlist)
  {
    FilterKeepsOrder(playlist, (t: Track) => t.id in favorites);
    Filter(playlist, (t: Track) => t.id in favorites)
  }

  function Ids(playlist: seq<Track>): (r: seq<TrackId>)
    ensures |r| == |playlist| && forall i :: 0 <= i < |r| ==> r[i] == playlist[i].id
  {
    seq(|playlist|, i requires 0 <= i < |playlist| => playlist[i].id)
  }

  /** The first playlist position holding a track with `id`, or -1 (Array.prototype.findIndex). */
  function FindIndex(playlist: seq<Track>, id: TrackId): (r: int)
    ensures -1 <= r < |playlist|
    ensures r == -1 <==> forall i :: 0 <= i < |playlist| ==> playlist[i].id != id
    ensures 0 <= r ==> playlist[r].id == id && forall j :: 0 <= j < r ==> playlist[j].id != id
  {
    var ids := Ids(playlist);
    var r := IndexOf(ids, id);
    assert r == -1 ==> forall i :: 0 <= i < |playlist| ==> ids[i] != id;
    r
  }
}
