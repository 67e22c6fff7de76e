/** The value level of the emotion tag store: the mapping from song path to its
    tag record, and what set_emotion does to it. */
module Tags {
  import opened EmotionClasses
  import opened Sequences

  /** The record stored for a song: {"name": ..., "number": ...}. */
  datatype Entry = Entry(name: string, number: int)

  /** Every stored record has an assignable name and the number that name converts to. */
  predicate Consistent(m: map<string, Entry>) {
    forall p :: p in m ==> IsAvailable(m[p].name) && m[p].number == CodeOf(m[p].name)
  }

  /** get_emotion on a mapping: the stored name, "Untagged" for an absent path. */
  function TagName(m: map<string, Entry>, path: string): string {
    if path in m then m[path].name else "Untagged"
  }

  /** get_emotion_number on a mapping: the stored number, UNTAGGED for an absent path. */
  function TagNumber(m: map<string, Entry>, path: string): int {
    if path in m then m[path].number else UNTAGGED
  }

  /** The mapping after set_emotion(path, emotion): an assignable name is upserted
      with its number; any other name leaves the mapping as it was. */
  function Assign(m: map<string, Entry>, path: string, emotion: string): (r: map<string, Entry>)
    ensures !IsAvailable(emotion) ==> r == m
    ensures IsAvailable(emotion) ==> r.Keys == m.Keys + {path}
    ensures IsAvailable(emotion) ==> TagName(r, path) == emotion && TagNumber(r, path) == CodeOf(emotion)
    ensures forall q :: q != path && q in m ==> q in r && r[q] == m[q]
    ensures Consistent(m) ==> Consistent(r)
  {
    if IsAvailable(emotion) then m[path := Entry(emotion, CodeOf(emotion))] else m
  }

  /** The key order after set_emotion: a path new to the mapping goes at the end;
      re-tagging a path keeps its place. */
  function AssignOrder(order: seq<string>, m: map<string, Entry>, path: string, emotion: string): (r: seq<string>)
    requires forall q :: q in order <==> q in m
    ensures forall q :: q in r <==> q in Assign(m, path, emotion)
    ensures Distinct(order) ==> Distinct(r)
    ensures (path in m || !IsAvailable(emotion)) ==> r == order
    ensures IsAvailable(emotion) && path !in m ==> r == order + [path]
  {
    if IsAvailable(emotion) && path !in m then order + [path] else order
  }

  /** In a consistent mapping a lookup yields a class number, UNTAGGED exactly for
      absent paths, and the name is the table name of the number. */
  lemma LookupAgrees(m: map<string, Entry>, path: string)
    requires Consistent(m)
    ensures IsClass(TagNumber(m, path))
    ensures TagNumber(m, path) == UNTAGGED <==> path !in m
    ensures TagName(m, path) == DisplayName(TagNumber(m, path))
  {
    if path in m {
      NameCodeRoundTrip(m[path].name);
    }
  }

  /** set_emotion with an assignable name is read back by both lookups, and no
      other path's lookups change. */
  lemma LookupAfterAssign(m: map<string, Entry>, path: string, emotion: string, other: string)
    requires IsAvailable(emotion) && other != path
    ensures TagName(Assign(m, path, emotion), path) == emotion
    ensures TagNumber(Assign(m, path, emotion), path) == CodeOf(emotion)
    ensures TagName(Assign(m, path, emotion), other) == TagName(m, other)
    ensures TagNumber(Assign(m, path, emotion), other) == TagNumber(m, other)
  {
  }

  /** The number stored by set_emotion is NEUTRAL, HAPPY or SAD for "Neutral",
      "Happy" or "Sad". */
  lemma AssignedNumbers(m: map<string, Entry>, path: string)
    ensures TagNumber(Assign(m, path, "Neutral"), path) == NEUTRAL
    ensures TagNumber(Assign(m, path, "Happy"), path) == HAPPY
    ensures TagNumber(Assign(m, path, "Sad"), path) == SAD
  {
  }

  /** Assigning the same tag twice is the same as assigning it once, and a later
      assignment to a path overrides an earlier one. */
  lemma AssignLastWins(m: map<string, Entry>, path: string, first: string, second: string)
    requires IsAvailable(second)
    ensures Assign(Assign(m, path, first), path, second) == Assign(m, path, second)
  {
  }

  /** In the empty mapping every path is untagged. */
  lemma EmptyIsUntagged(path: string)
    ensures TagName(map[], path) == "Untagged" && TagNumber(map[], path) == UNTAGGED
  {
  }
}
