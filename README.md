# EmotionManager of a face-based music player, in Dafny

This project models `EmotionManager` of a desktop music player. The player offers mood-based recommendations: songs carry user-assigned emotion tags, and a detected emotion class selects the playlist songs whose tags suit it. In this file two separate paths exist. `detect_emotion` (emotion_manager.py:205-236) measures a face and classifies it with `classify_emotion`, returning the class to its caller. `process_image` (emotion_manager.py:120-149) is the path that reaches the recommendation filter, and it passes the constant 1 returned by the `_analyze_emotion` stub (emotion_manager.py:138, 145), not a classified result. The model covers four parts of the class:

- **Emotion tag store.** A dictionary from song path to a record `{name, number}`. Only `"Neutral"`, `"Happy"` and `"Sad"` can be assigned, stored with numbers 1, 2 and 3. A path without a record reads as `"Untagged"` / 0. The store has two list queries (by name and by number) and a reset. It is written to durable storage after every change.
- **Rule-based classifier** (`classify_emotion`). It works on mouth and eye ratios that have already been measured. The first matching rule wins:
  - no measurement gives Untagged;
  - a mouth ratio above 0.5 gives Happy;
  - both eye ratios below 0.2 give Sad;
  - anything else gives Neutral.
- **Recommendation filter** (the loop inside `_show_recommendations`). It keeps playlist songs, in playlist order, according to a fixed table keyed by the detected class:
  - 0 keeps every song;
  - 1 keeps songs tagged 0 or 1;
  - 2 keeps songs tagged 2;
  - 3 keeps songs tagged 1 or 2;
  - any other number keeps nothing.
- **Number-to-name tables.** `get_emotion_name` returns lower-case names with the fallback `'unknown'`. `_get_emotion_name` returns capitalised names with the fallback `"Unknown"`.

Layout:

- `emotion_classes.dfy` (module `EmotionClasses`): the class constants, the assignable names, the name-to-number conversion and both name tables.
- `classifier.dfy` (modules `Wrappers`, `Classifier`): `classify_emotion` on an `Option<Measurements>`. `None` stands for Python's `None`.
- `sequences.dfy` (module `Sequences`): an order-preserving `Filter`. Its contract fixes the result uniquely: the result is a subsequence of the input, and each element occurs as often as in the input if kept, otherwise not at all. The list comprehensions and the recommendation loop are both stated through it.
- `tags.dfy` (module `Tags`): the store as a value. It holds the record type, the consistency invariant (each stored number is the code of its stored name), and `Assign`, the mapping after `set_emotion`.
- `recommendation.dfy` (module `Recommendation`): the compatibility table `Accepts` and the specification `Recommendations` of the filter, with lemmas for each row of the table.
- `emotion_manager.dfy` (module `EmotionManagement`): `class EmotionManager`. Its field `emotions: map<string, Entry>` is changed in place by `SetEmotion` and `ClearEmotions`. Two more fields:
  - `order` lists the keys in insertion order. A Python dict iterates in that order, so the two list queries return their paths in the same order as the source.
  - `saved` is the mapping last handed to storage by `SaveEmotions`. This models `save_emotions` as an abstract step.

  `RecommendedSongs` is the recommendation loop lifted out of the GUI call. It has the source's `for` loop and `if`/`elif` chain, and it is proved equal to `Recommendations`.

The filter applies no length cap: every accepted song of the playlist is offered. A Sad-tagged song is offered only when the detected class is 0.

## Model

| member | source | states |
|---|---|---|
| EmotionClasses.CodeOf | emotion_manager.py:69-75 | the number stored for a name is always NEUTRAL, HAPPY or SAD; HAPPY exactly for "Happy", SAD exactly for "Sad" |
| EmotionClasses.DisplayName | emotion_manager.py:157-165 | "Unknown" exactly for numbers outside 0..3, "Untagged" exactly for 0, an assignable name exactly for 1..3 |
| EmotionClasses.ClassName | emotion_manager.py:109-118 | for every number, including the fallback, the lower-case table is the ASCII lower-casing of the capitalised table |
| EmotionClasses.NameCodeRoundTrip | emotion_manager.py:66-75 | an assignable name converted to its number maps back to the same name through the capitalised table |
| EmotionClasses.CodeNameRoundTrip | emotion_manager.py:157-165 | a number in 1..3 maps to an assignable name whose number is the original |
| EmotionClasses.NamesAreInjective | emotion_manager.py:109-118 | distinct class numbers get distinct names in both tables |
| Classifier.ClassifyEmotion | emotion_manager.py:276-296 | the result is always 0..3; it is 0 exactly when there is no measurement; with a measurement it is HAPPY exactly when the mouth ratio exceeds 0.5, and SAD exactly when the mouth is not open and both eye ratios are below 0.2 |
| Classifier.OpenMouthWithClosedEyesIsHappy | emotion_manager.py:287-290 | mouth 0.6 with both eyes 0.1 is HAPPY, not SAD; mouth 0.5 with the same eyes is SAD |
| Classifier.ThresholdsAreStrict | emotion_manager.py:287-289 | a mouth ratio of exactly 0.5 is not open, and an eye ratio of exactly 0.2 is not closed |
| Sequences.Filter | emotion_manager.py:97-103 | the comprehension result is a subsequence of its input and holds each kept element exactly as often as the input and no other element |
| Tags.Assign | emotion_manager.py:66-83 | an unassignable name leaves the mapping unchanged; an assignable one adds the path to the keys and reads back as that name and its number; every other key's record is unchanged; consistency of names and numbers is preserved |
| Tags.AssignOrder | emotion_manager.py:78-80 | a path new to the mapping is appended at the end of the key order; a re-tagged path keeps its place; the order stays in step with the mapping's keys and free of duplicates |
| Tags.LookupAgrees | emotion_manager.py:86-95 | in a consistent mapping the number lookup yields 0..3, 0 exactly for an absent path, and the name lookup is the table name of that number |
| Tags.LookupAfterAssign | emotion_manager.py:66-95 | after assigning a valid name both lookups of that path return the name and its number, and the lookups of every other path are unchanged |
| Tags.AssignedNumbers | emotion_manager.py:69-75 | "Neutral", "Happy" and "Sad" are stored as 1, 2 and 3 |
| Tags.AssignLastWins | emotion_manager.py:80-83 | a later valid assignment to a path overrides an earlier one |
| Tags.EmptyIsUntagged | emotion_manager.py:86-95 | in the empty mapping every path reads "Untagged" and 0 |
| Recommendation.Recommendations | emotion_manager.py:174-189 | the recommended songs form a subsequence of the playlist (original order), contain exactly the songs the table accepts for their tag, and contain each one as often as the playlist does |
| Recommendation.RecommendationStep | emotion_manager.py:174-189 | one loop turn appends the next song exactly when the table accepts its tag |
| Recommendation.RecommendationTable | emotion_manager.py:179-189 | for a song of the playlist: detected 0 keeps it; 1 keeps it iff its tag is 0 or 1; 2 iff its tag is 2; 3 iff its tag is 1 or 2; any other number never keeps it |
| Recommendation.UntaggedMoodKeepsPlaylist | emotion_manager.py:179-180 | detected class 0 recommends the whole playlist unchanged |
| Recommendation.UnknownMoodRecommendsNothing | emotion_manager.py:179-189 | a detected number outside 0..3 recommends nothing |
| Recommendation.SadSongsOnlyForUntaggedMood | emotion_manager.py:181-189 | a song tagged SAD is recommended only when the detected class is 0 |
| Recommendation.EmptyStoreRecommendations | emotion_manager.py:174-189 | with no tags stored, detected 1 keeps the whole playlist and detected 2 or 3 keeps nothing |
| Recommendation.HappyMoodExample | emotion_manager.py:184-186 | detected HAPPY over songs tagged Happy, Sad, Neutral, Happy yields exactly the first and the last, in order |
| Recommendation.HappyMoodExampleTags | emotion_manager.py:66-83 | four set_emotion calls produce the tags that example needs |
| EmotionManagement.EmotionManager.constructor | emotion_manager.py:26-28 | a new manager over an absent storage file has an empty mapping and satisfies the invariant |
| EmotionManagement.EmotionManager.SaveEmotions | emotion_manager.py:59-64 | the stored copy becomes the current mapping |
| EmotionManagement.EmotionManager.SetEmotion | emotion_manager.py:66-84 | keeps the invariant; the new mapping is Assign of the old one and the key order is AssignOrder of the old one; with a valid name both lookups of the path return the name and its number and the mapping is saved; with any other name the mapping, the order and the saved copy are all unchanged |
| EmotionManagement.EmotionManager.GetEmotion | emotion_manager.py:86-89 | "Untagged" exactly when the path has no record, an assignable name otherwise, and always the capitalised table name of the path's number |
| EmotionManagement.EmotionManager.GetEmotionNumber | emotion_manager.py:91-95 | 0..3; 0 exactly when the path has no record; otherwise the code of the stored name |
| EmotionManagement.EmotionManager.GetSongsByEmotion | emotion_manager.py:97-99 | exactly the paths whose stored name equals the argument, each once, in insertion order |
| EmotionManagement.EmotionManager.GetSongsByEmotionNumber | emotion_manager.py:101-103 | exactly the paths whose stored number equals the argument, each once, in insertion order |
| EmotionManagement.EmotionManager.ClearEmotions | emotion_manager.py:105-107 | the mapping is empty and saved as such; every path then reads "Untagged"/0 and both queries return empty lists for every argument |
| EmotionManagement.EmotionManager.SongsByNameMatchSongsByNumber | emotion_manager.py:97-103 | for an assignable name, the query by name and the query by its number return the same list |
| EmotionManagement.EmotionManager.UntaggedSongsAreNeverListed | emotion_manager.py:97-103 | neither query lists anything for "Untagged" or 0 |
| EmotionManagement.TaggingOrderExample | emotion_manager.py:78-99 | on a fresh manager, tagging "b" and then "a" as Happy makes the Happy query return ["b", "a"]: paths are listed in the order they were first tagged |
| EmotionManagement.EmotionManager.RecommendedSongs | emotion_manager.py:167-189 | the list the loop builds equals Recommendations for the detected class, the playlist and the current mapping |

## Left out

- `load_emotions` (emotion_manager.py:50-57): file reading and JSON parsing. The constructor starts from the empty mapping, which is what the code produces when the file is absent. A file with malformed records is not modelled, so the name/number invariant covers every record. Without that assumption it would cover only records written by `set_emotion`.
- `save_emotions` (emotion_manager.py:59-64): the JSON write is modelled only as `saved := emotions`. `saved` is a map, so the key order of the written file is not recorded. A write failure, which the code catches and prints, is not modelled.
- `__init__` (emotion_manager.py:16-48): MediaPipe FaceMesh and OpenCV cascade setup, the data-directory lookup and the landmark index lists. These are foreign libraries and file-system calls.
- `detect_emotion` (emotion_manager.py:205-236): image colour conversion and face-mesh calls. It maps a `None` image, no face landmarks and any exception to UNTAGGED (emotion_manager.py:210-212, 220-222, 234-236); the model keeps only the classification step, and its `None` case of `ClassifyEmotion` stands for missing measurements.
- `process_image` (emotion_manager.py:120-149): image loading and face-mesh calls. A missing image or no face raises (emotion_manager.py:125-126, 134-135); the exception is caught and shown in an error dialog (emotion_manager.py:147-149), so no class is produced and no recommendation is shown. Otherwise it passes `_analyze_emotion`'s result to `_show_recommendations`; the filter (`RecommendedSongs`) is modelled for any detected number.
- `get_facial_measurements` (emotion_manager.py:238-274): Euclidean norms over floating-point landmark coordinates. The classifier works on already-computed ratios as `real`. IEEE effects such as NaN are not modelled: in Python a NaN ratio falls through to NEUTRAL.
- `classify_emotion`'s `KeyError` path (emotion_manager.py:294-296) is not modelled: `Measurements` always carries all three ratios, as `get_facial_measurements` guarantees.
- `_analyze_emotion` (emotion_manager.py:151-155): a stub that always returns 1, so along `process_image` the filter always runs with detected class 1 (NEUTRAL); `classify_emotion` is reached only through `detect_emotion` (emotion_manager.py:229).
- The `RecommendationWindow` construction and the `messagebox` error dialog of `_show_recommendations` (emotion_manager.py:191-203), and the error dialog of `process_image` (emotion_manager.py:147-149): GUI. Songs are modelled by their path and title only.
- The `{}` placeholder that `set_emotion` stores before overwriting it (emotion_manager.py:78-79) appears only as the key's position in `order`. It is overwritten before anyone can observe it.
- EmotionManagement.EmotionManager.SetEmotion: "every other path's lookups are unchanged" is not restated in terms of `GetEmotion`. It follows from `emotions == Assign(old(emotions), …)` together with the contract of `Tags.Assign` and the lemma `Tags.LookupAfterAssign`.
- app_builders.py: dependency installation, directory copying and PyInstaller invocation, with no algorithmic content.
