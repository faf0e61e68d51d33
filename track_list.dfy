/** The search filter and the highlight test of TrackList. Lower-casing is a
    per-character function supplied by the caller, standing for `toLowerCase`. */
module TrackList {
  import opened Music

  /** `s.toLowerCase()`, applied character by character. */
  function Lower(s: string, lower: char -> char): (r: string)
    ensures |r| == |s| && forall k :: 0 <= k < |s| ==> r[k] == lower(s[k])
  {
    if s == [] then [] else Lower(s[..|s| - 1], lower) + [lower(s[|s| - 1])]
  }

  /** `hay.includes(needle)`: needle occurs in hay at some position. */
  predicate Includes(hay: string, needle: string)
  {
    exists i :: 0 <= i <= |hay| - |needle| && OccursAt(hay, needle, i)
  }

  predicate OccursAt(hay: string, needle: string, i: int)
  {
    0 <= i <= |hay| - |needle| && hay[i..i + |needle|] == needle
  }

  /** The search predicate: the lower-cased "title artist" contains the lower-cased term. */
  predicate Matches(track: Track, term: string, lower: char -> char)
  {
    Includes(Lower(track.title + " " + track.artist, lower), Lower(term, lower))
  }

  /** `filteredTracks`: the tracks that match the term, in catalog order. */
  function Filter(tracks: seq<Track>, term: string, lower: char -> char): (r: seq<Track>)
    ensures |r| <= |tracks|
  {
    if tracks == [] then []
    else
      var rest := Filter(tracks[..|tracks| - 1], term, lower);
      if Matches(tracks[|tracks| - 1], term, lower) then rest + [tracks[|tracks| - 1]] else rest
  }

  /** s is obtained from t by deleting elements, keeping the order of the rest. */
  predicate IsSubsequence(s: seq<Track>, t: seq<Track>)
    decreases |t|
  {
    if s == [] then true
    else if t == [] then false
    else if s[|s| - 1] == t[|t| - 1] then IsSubsequence(s[..|s| - 1], t[..|t| - 1])
    else IsSubsequence(s, t[..|t| - 1])
  }

  /** The filter result is an order-preserving subsequence of the catalog. */
  lemma {:induction false} FilterIsSubsequence(tracks: seq<Track>, term: string, lower: char -> char)
    ensures IsSubsequence(Filter(tracks, term, lower), tracks)
  {
    if tracks != [] {
      var init := tracks[..|tracks| - 1];
      var rest := Filter(init, term, lower);
      FilterIsSubsequence(init, term, lower);
      if Matches(tracks[|tracks| - 1], term, lower) {
        var r := rest + [tracks[|tracks| - 1]];
        assert r[..|r| - 1] == rest;
      } else {
        SubsequenceOfLonger(rest, init, tracks[|tracks| - 1]);
      }
    }
  }

  lemma {:induction false} SubsequenceOfLonger(s: seq<Track>, t: seq<Track>, x: Track)
    requires IsSubsequence(s, t)
    ensures IsSubsequence(s, t + [x])
    decreases |t|, 1
  {
    var u := t + [x];
    assert u[..|u| - 1] == t;
    if s != [] && s[|s| - 1] == x {
      SubsequenceDropLast(s, t);
    }
  }

  lemma {:induction false} SubsequenceDropLast(s: seq<Track>, t: seq<Track>)
    requires s != [] && IsSubsequence(s, t)
    ensures IsSubsequence(s[..|s| - 1], t)
    decreases |t|, 0
  {
    if t != [] {
      var init := t[..|t| - 1];
      if s[|s| - 1] == t[|t| - 1] {
        SubsequenceOfLonger(s[..|s| - 1], init, t[|t| - 1]);
        assert init + [t[|t| - 1]] == t;
      } else {
        SubsequenceDropLast(s, init);
        SubsequenceOfLonger(s[..|s| - 1], init, t[|t| - 1]);
        assert init + [t[|t| - 1]] == t;
      }
    }
  }

  /** Every kept track is a catalog track that matches. */
  lemma {:induction false} FilterSound(tracks: seq<Track>, term: string, lower: char -> char)
    ensures forall k :: 0 <= k < |Filter(tracks, term, lower)| ==>
      Filter(tracks, term, lower)[k] in tracks && Matches(Filter(tracks, term, lower)[k], term, lower)
  {
    if tracks != [] {
      var init := tracks[..|tracks| - 1];
      FilterSound(init, term, lower);
      assert forall t :: t in init ==> t in tracks;
    }
  }

  /** Every catalog track that matches is kept. */
  lemma {:induction false} FilterComplete(tracks: seq<Track>, term: string, lower: char -> char, t: Track)
    requires t in tracks && Matches(t, term, lower)
    ensures t in Filter(tracks, term, lower)
  {
    var init := tracks[..|tracks| - 1];
    assert tracks == init + [tracks[|tracks| - 1]];
    if t != tracks[|tracks| - 1] {
      FilterComplete(init, term, lower, t);
    }
  }

  /** A track is kept exactly when it is in the catalog and matches. */
  lemma FilterMembership(tracks: seq<Track>, term: string, lower: char -> char, t: Track)
    ensures t in Filter(tracks, term, lower) <==> t in tracks && Matches(t, term, lower)
  {
    if t in tracks && Matches(t, term, lower) {
      FilterComplete(tracks, term, lower, t);
    }
    FilterSound(tracks, term, lower);
  }

  /** The empty search term matches every track, so the whole catalog is shown. */
  lemma {:induction false} EmptyTermKeepsAll(tracks: seq<Track>, lower: char -> char)
    ensures Filter(tracks, "", lower) == tracks
  {
    if tracks != [] {
      var t := tracks[|tracks| - 1];
      var hay := Lower(t.title + " " + t.artist, lower);
      assert OccursAt(hay, Lower("", lower), 0);
      EmptyTermKeepsAll(tracks[..|tracks| - 1], lower);
    }
  }

  /** Filtering the filtered list again with the same term changes nothing. */
  lemma {:induction false} FilterIdempotent(tracks: seq<Track>, term: string, lower: char -> char)
    ensures Filter(Filter(tracks, term, lower), term, lower) == Filter(tracks, term, lower)
  {
    FilterSound(tracks, term, lower);
    AllMatchKept(Filter(tracks, term, lower), term, lower);
  }

  lemma {:induction false} AllMatchKept(tracks: seq<Track>, term: string, lower: char -> char)
    requires forall k :: 0 <= k < |tracks| ==> Matches(tracks[k], term, lower)
    ensures Filter(tracks, term, lower) == tracks
  {
    if tracks != [] {
      var init := tracks[..|tracks| - 1];
      forall k | 0 <= k < |init| ensures Matches(init[k], term, lower) {
        assert init[k] == tracks[k];
      }
      AllMatchKept(init, term, lower);
      assert Matches(tracks[|tracks| - 1], term, lower);
      assert init + [tracks[|tracks| - 1]] == tracks;
    }
  }

  /** `isActive`: the card of the current track is highlighted. */
  function IsActive(current: Option<Track>, t: Track): (b: bool)
    ensures b <==> current.Some? && current.value.id == t.id
    ensures current.None? ==> !b
  {
    match current
    case None => false
    case Some(c) => c.id == t.id
  }

  /** What a click on a card does. */
  datatype CardAction = SelectTrack(track: Track) | TogglePlay

  /** A click on the play/pause overlay, which only the active card shows, toggles
      playback and stops there; any other click on a card selects its track. */
  function CardClick(current: Option<Track>, t: Track, onOverlay: bool): (a: CardAction)
    ensures a == TogglePlay <==> onOverlay && current.Some? && current.value.id == t.id
    ensures a != TogglePlay ==> a == SelectTrack(t)
  {
    if onOverlay && IsActive(current, t) then TogglePlay else SelectTrack(t)
  }
}
