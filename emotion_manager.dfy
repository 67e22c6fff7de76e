/** EmotionManager's tag store as an object: the mapping from song path to tag
    record that set_emotion and clear_emotions change in place, the lookups and
    queries on it, and the recommendation loop that reads it. */
module EmotionManagement {
  import opened EmotionClasses
  import opened Sequences
  import opened Tags
  import opened Recommendation

  class EmotionManager {
    /** Song path to tag record (`self.emotions`). */
    var emotions: map<string, Entry>
    /** The paths of `emotions` in insertion order, the order in which the
        dictionary's items are visited. */
    var order: seq<string>
    /** The mapping as last handed to durable storage by SaveEmotions. */
    var saved: map<string, Entry>

    /** Every key occurs once in the insertion order, and every record's name
        and number agree. */
    ghost predicate Valid()
      reads this
    {
      && Distinct(order)
      && (forall p :: p in order <==> p in emotions)
      && Consistent(emotions)
    }

    /** A manager whose storage file is absent: nothing is tagged yet. */
    constructor ()
      ensures Valid()
      ensures emotions == map[] && order == [] && saved == map[]
    {
      emotions := map[];
      order := [];
      saved := map[];
    }

    /** save_emotions: the whole mapping is written out. */
    method SaveEmotions()
      modifies this`saved
      ensures saved == emotions
    {
      saved := emotions;
    }

    /** set_emotion: an assignable name is stored for the path together with its
        number and the mapping is saved; any other name changes nothing at all. */
    method SetEmotion(songPath: string, emotion: string)
      requires Valid()
      modifies this
      ensures Valid()
      ensures emotions == Assign(old(emotions), songPath, emotion)
      ensures order == AssignOrder(old(order), old(emotions), songPath, emotion)
      ensures saved == if IsAvailable(emotion) then emotions else old(saved)
      ensures IsAvailable(emotion) ==>
                GetEmotion(songPath) == emotion && GetEmotionNumber(songPath) == CodeOf(emotion)
      ensures !IsAvailable(emotion) ==> emotions == old(emotions) && order == old(order) && saved == old(saved)
    {
      if emotion in AvailableEmotions {
        var emotionNumber := NEUTRAL;
        if emotion == "Happy" {
          emotionNumber := HAPPY;
        } else if emotion == "Sad" {
          emotionNumber := SAD;
        } else if emotion == "Neutral" {
          emotionNumber := NEUTRAL;
        }
        if songPath !in emotions {
          order := order + [songPath];
        }
        emotions := emotions[songPath := Entry(emotion, emotionNumber)];
        assert emotionNumber == CodeOf(emotion);
        assert Valid();
        SaveEmotions();
      }
    }

    /** get_emotion: the stored name, "Untagged" exactly when the path has no
        record; it is always the table name of the stored number. */
    function GetEmotion(songPath: string): (name: string)
      reads this
      requires Valid()
      ensures name == DisplayName(GetEmotionNumber(songPath))
      ensures name == "Untagged" <==> songPath !in emotions
      ensures songPath in emotions ==> IsAvailable(name)
    {
      LookupAgrees(emotions, songPath);
      TagName(emotions, songPath)
    }

    /** get_emotion_number: the stored number, UNTAGGED exactly when the path has
        no record. */
    function GetEmotionNumber(songPath: string): (n: int)
      reads this
      requires Valid()
      ensures IsClass(n)
      ensures n == UNTAGGED <==> songPath !in emotions
      ensures songPath in emotions ==> n == CodeOf(emotions[songPath].name)
    {
      LookupAgrees(emotions, songPath);
      TagNumber(emotions, songPath)
    }

    /** get_songs_by_emotion: exactly the paths whose stored name is `emotion`,
        each once, in insertion order. */
    function GetSongsByEmotion(emotion: string): (songs: seq<string>)
      reads this
      requires Valid()
      ensures forall p :: p in songs <==> p in emotions && emotions[p].name == emotion
      ensures IsSubsequence(songs, order)
      ensures Distinct(songs)
    {
      var m := emotions;
      FilterDistinct(order, (p: string) => p in m && m[p].name == emotion);
      Filter(order, (p: string) => p in m && m[p].name == emotion)
    }

    /** get_songs_by_emotion_number: exactly the paths whose stored number is
        `emotionNumber`, each once, in insertion order. */
    function GetSongsByEmotionNumber(emotionNumber: int): (songs: seq<string>)
      reads this
      requires Valid()
      ensures forall p :: p in songs <==> p in emotions && emotions[p].number == emotionNumber
      ensures IsSubsequence(songs, order)
      ensures Distinct(songs)
    {
      var m := emotions;
      FilterDistinct(order, (p: string) => p in m && m[p].number == emotionNumber);
      Filter(order, (p: string) => p in m && m[p].number == emotionNumber)
    }

    /** clear_emotions: the mapping is emptied and saved, so every path reads as
        untagged and both queries come back empty. */
    method ClearEmotions()
      requires Valid()
      modifies this
      ensures Valid()
      ensures emotions == map[] && order == [] && saved == map[]
      ensures forall p :: GetEmotion(p) == "Untagged" && GetEmotionNumber(p) == UNTAGGED
      ensures forall e :: GetSongsByEmotion(e) == []
      ensures forall n :: GetSongsByEmotionNumber(n) == []
    {
      emotions := map[];
      order := [];
      SaveEmotions();
    }

    /** The query by name and the query by number list the same songs for an
        assignable name and its number. */
    lemma SongsByNameMatchSongsByNumber(emotion: string)
      requires Valid() && IsAvailable(emotion)
      ensures GetSongsByEmotion(emotion) == GetSongsByEmotionNumber(CodeOf(emotion))
    {
      var m := emotions;
      forall i | 0 <= i < |order|
        ensures (order[i] in m && m[order[i]].name == emotion) ==
                (order[i] in m && m[order[i]].number == CodeOf(emotion))
      {
        if order[i] in m && IsAvailable(m[order[i]].name) {
          NameCodeRoundTrip(m[order[i]].name);
          NameCodeRoundTrip(emotion);
        }
      }
      FilterCongruent(order,
        (p: string) => p in m && m[p].name == emotion,
        (p: string) => p in m && m[p].number == CodeOf(emotion));
    }

    /** Untagged songs have no record, so neither query ever lists them. */
    lemma UntaggedSongsAreNeverListed()
      requires Valid()
      ensures GetSongsByEmotion("Untagged") == []
      ensures GetSongsByEmotionNumber(UNTAGGED) == []
    {
    }

    /** The loop of _show_recommendations: each playlist song, in order, is
        appended when the table accepts its stored number for the detected class. */
    method RecommendedSongs(detected: int, playlist: seq<Song>) returns (recommended: seq<Song>)
      requires Valid()
      ensures recommended == Recommendations(detected, playlist, emotions)
    {
      recommended := [];
      for i := 0 to |playlist|
        invariant recommended == Filter(playlist[..i], Keeps(detected, emotions))
      {
        var song := playlist[i];
        var songEmotion := GetEmotionNumber(song.path);
        ghost var before := recommended;
        if detected == 0 {
          recommended := recommended + [song];
        } else if detected == 1 {
          if songEmotion in [0, 1] {
            recommended := recommended + [song];
          }
        } else if detected == 2 {
          if songEmotion == 2 {
            recommended := recommended + [song];
          }
        } else if detected == 3 {
          if songEmotion in [1, 2] {
            recommended := recommended + [song];
          }
        }
        assert recommended == before + (if Accepts(detected, songEmotion) then [song] else []);
        RecommendationStep(detected, playlist, i, emotions);
      }
      assert playlist[..|playlist|] == playlist;
    }
  }

  /** Songs are listed in the order in which they were first tagged: tagging "b"
      and then "a" as Happy lists "b" before "a". */
  method TaggingOrderExample() returns (songs: seq<string>)
    ensures songs == ["b", "a"]
  {
    var manager := new EmotionManager();
    manager.SetEmotion("b", "Happy");
    manager.SetEmotion("a", "Happy");
    assert manager.order == ["b", "a"];
    ghost var m := manager.emotions;
    assert m["a"].name == "Happy" && m["b"].name == "Happy";
    FilterKeepsAll(manager.order, (p: string) => p in m && m[p].name == "Happy");
    songs := manager.GetSongsByEmotion("Happy");
  }

}
