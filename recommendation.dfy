/** The song filter of _show_recommendations: which songs of the playlist are
    offered for a detected emotion class, given the songs' stored tags. */
module Recommendation {
  import opened EmotionClasses
  import opened Sequences
  import opened Tags

  /** A playlist entry; the filter reads only its path. */
  datatype Song = Song(path: string, title: string)

  /** The compatibility table, keyed by the detected class: UNTAGGED takes every
      song, NEUTRAL untagged and neutral songs, HAPPY happy songs, SAD neutral and
      happy songs, and any other number nothing. */
  predicate Accepts(detected: int, tag: int) {
    if detected == 0 then true
    else if detected == 1 then tag in [0, 1]
    else if detected == 2 then tag == 2
    else if detected == 3 then tag in [1, 2]
    else false
  }

  /** The test the loop applies to each song under a given mapping. */
  function Keeps(detected: int, m: map<string, Entry>): Song -> bool {
    (song: Song) => Accepts(detected, TagNumber(m, song.path))
  }

  /** The recommended songs: the playlist with every song the table rejects
      removed, in playlist order, each kept song as often as it occurs. No cap on
      the number of songs is applied. */
  function Recommendations(detected: int, playlist: seq<Song>, m: map<string, Entry>): (r: seq<Song>)
    ensures IsSubsequence(r, playlist)
    ensures forall s :: s in r <==> s in playlist && Accepts(detected, TagNumber(m, s.path))
    ensures forall s {:trigger multiset(r)[s]} ::
              multiset(r)[s] == if Accepts(detected, TagNumber(m, s.path)) then multiset(playlist)[s] else 0
  {
    Filter(playlist, Keeps(detected, m))
  }

  /** One turn of the recommendation loop: the next song is appended exactly when
      the table accepts its stored number. */
  lemma RecommendationStep(detected: int, playlist: seq<Song>, i: nat, m: map<string, Entry>)
    requires i < |playlist|
    ensures Filter(playlist[..i + 1], Keeps(detected, m)) ==
            Filter(playlist[..i], Keeps(detected, m)) +
            (if Accepts(detected, TagNumber(m, playlist[i].path)) then [playlist[i]] else [])
  {
    FilterSnoc(playlist[..i], playlist[i], Keeps(detected, m));
    assert playlist[..i + 1] == playlist[..i] + [playlist[i]];
  }

  /** Each row of the table, stated on the songs that come out. */
  lemma RecommendationTable(detected: int, playlist: seq<Song>, m: map<string, Entry>, s: Song)
    requires s in playlist
    ensures detected == UNTAGGED ==> s in Recommendations(detected, playlist, m)
    ensures detected == NEUTRAL ==>
              (s in Recommendations(detected, playlist, m) <==> TagNumber(m, s.path) in {UNTAGGED, NEUTRAL})
    ensures detected == HAPPY ==>
              (s in Recommendations(detected, playlist, m) <==> TagNumber(m, s.path) == HAPPY)
    ensures detected == SAD ==>
              (s in Recommendations(detected, playlist, m) <==> TagNumber(m, s.path) in {NEUTRAL, HAPPY})
    ensures !IsClass(detected) ==> s !in Recommendations(detected, playlist, m)
  {
  }

  /** An undetected mood (UNTAGGED) recommends the whole playlist, unfiltered. */
  lemma UntaggedMoodKeepsPlaylist(playlist: seq<Song>, m: map<string, Entry>)
    ensures Recommendations(UNTAGGED, playlist, m) == playlist
  {
    FilterKeepsAll(playlist, Keeps(UNTAGGED, m));
  }

  /** A detected number outside the four classes recommends nothing. */
  lemma UnknownMoodRecommendsNothing(detected: int, playlist: seq<Song>, m: map<string, Entry>)
    requires !IsClass(detected)
    ensures Recommendations(detected, playlist, m) == []
  {
    FilterDropsAll(playlist, Keeps(detected, m));
  }

  /** A song tagged SAD is recommended only when no mood was detected. */
  lemma SadSongsOnlyForUntaggedMood(detected: int, playlist: seq<Song>, m: map<string, Entry>, s: Song)
    requires s in Recommendations(detected, playlist, m) && TagNumber(m, s.path) == SAD
    ensures detected == UNTAGGED
  {
  }

  /** With no song tagged (the empty or cleared store), a neutral mood keeps the
      whole playlist and a happy or sad mood finds nothing. */
  lemma EmptyStoreRecommendations(playlist: seq<Song>)
    ensures Recommendations(NEUTRAL, playlist, map[]) == playlist
    ensures Recommendations(HAPPY, playlist, map[]) == []
    ensures Recommendations(SAD, playlist, map[]) == []
  {
    FilterKeepsAll(playlist, Keeps(NEUTRAL, map[]));
    FilterDropsAll(playlist, Keeps(HAPPY, map[]));
    FilterDropsAll(playlist, Keeps(SAD, map[]));
  }

  /** A happy mood over songs tagged Happy, Sad, Neutral, Happy offers exactly the
      first and the last, in that order. */
  lemma HappyMoodExample(a: Song, b: Song, c: Song, d: Song, m: map<string, Entry>)
    requires TagNumber(m, a.path) == HAPPY && TagNumber(m, b.path) == SAD
    requires TagNumber(m, c.path) == NEUTRAL && TagNumber(m, d.path) == HAPPY
    ensures Recommendations(HAPPY, [a, b, c, d], m) == [a, d]
  {
    var keep := Keeps(HAPPY, m);
    assert keep(a) && !keep(b) && !keep(c) && keep(d);
    assert Filter([d], keep) == [d] by {
      assert [d][1..] == [];
    }
    assert Filter([c, d], keep) == [d] by {
      assert [c, d][1..] == [d];
    }
    assert Filter([b, c, d], keep) == [d] by {
      assert [b, c, d][1..] == [c, d];
    }
    assert [a, b, c, d][1..] == [b, c, d];
  }

  /** Four calls of set_emotion that produce the tags of the example above. */
  lemma HappyMoodExampleTags()
    ensures var m := Assign(Assign(Assign(Assign(map[], "a.mp3", "Happy"), "b.mp3", "Sad"), "c.mp3", "Neutral"), "d.mp3", "Happy");
      TagNumber(m, "a.mp3") == HAPPY && TagNumber(m, "b.mp3") == SAD &&
      TagNumber(m, "c.mp3") == NEUTRAL && TagNumber(m, "d.mp3") == HAPPY
  {
    var m1 := Assign(map[], "a.mp3", "Happy");
    var m2 := Assign(m1, "b.mp3", "Sad");
    var m3 := Assign(m2, "c.mp3", "Neutral");
    assert TagNumber(m3, "a.mp3") == HAPPY;
  }
}
