/** The emotion class numbers of EmotionManager, the names the tag store accepts,
    and the two number-to-name tables. */
module EmotionClasses {

  const UNTAGGED: int := 0
  const NEUTRAL: int := 1
  const HAPPY: int := 2
  const SAD: int := 3

  /** One of the four class numbers. */
  predicate IsClass(n: int) {
    UNTAGGED <= n <= SAD
  }

  /** The names a user may assign to a song; "Untagged" is not among them. */
  const AvailableEmotions: seq<string> := ["Neutral", "Happy", "Sad"]

  predicate IsAvailable(name: string) {
    name in AvailableEmotions
  }

  /** The name-to-number conversion of set_emotion: it starts from NEUTRAL and
      overrides it for "Happy" and "Sad". */
  function CodeOf(name: string): (n: int)
    ensures n == NEUTRAL || n == HAPPY || n == SAD
    ensures n == HAPPY <==> name == "Happy"
    ensures n == SAD <==> name == "Sad"
  {
    if name == "Happy" then HAPPY
    else if name == "Sad" then SAD
    else if name == "Neutral" then NEUTRAL
    else NEUTRAL
  }

  /** The capitalised table of _get_emotion_name, falling back to "Unknown". */
  function DisplayName(n: int): (name: string)
    ensures name == "Unknown" <==> !IsClass(n)
    ensures name == "Untagged" <==> n == UNTAGGED
    ensures NEUTRAL <= n <= SAD <==> IsAvailable(name)
  {
    if n == UNTAGGED then "Untagged"
    else if n == NEUTRAL then "Neutral"
    else if n == HAPPY then "Happy"
    else if n == SAD then "Sad"
    else "Unknown"
  }

  /** ASCII lower-casing, the reference against which the lower-case table is checked. */
  function LowerChar(c: char): (d: char)
    ensures 'A' <= c <= 'Z' ==> 'a' <= d <= 'z'
    ensures !('A' <= c <= 'Z') ==> d == c
  {
    if 'A' <= c <= 'Z' then (c as int + 32) as char else c
  }

  function LowerAscii(s: string): (r: string)
    ensures |r| == |s|
    ensures forall i :: 0 <= i < |s| ==> r[i] == LowerChar(s[i])
  {
    seq(|s|, i requires 0 <= i < |s| => LowerChar(s[i]))
  }

  /** The lower-case table of get_emotion_name, falling back to "unknown": for every
      number it is the lower-cased capitalised table. */
  function ClassName(n: int): (name: string)
    ensures name == LowerAscii(DisplayName(n))
  {
    if n == UNTAGGED then "untagged"
    else if n == NEUTRAL then "neutral"
    else if n == HAPPY then "happy"
    else if n == SAD then "sad"
    else "unknown"
  }

  /** An assignable name survives the trip to its number and back through the table. */
  lemma NameCodeRoundTrip(name: string)
    requires IsAvailable(name)
    ensures DisplayName(CodeOf(name)) == name
  {
  }

  /** A tagged class number survives the trip to its name and back. */
  lemma CodeNameRoundTrip(n: int)
    requires NEUTRAL <= n <= SAD
    ensures IsAvailable(DisplayName(n)) && CodeOf(DisplayName(n)) == n
  {
  }

  /** Distinct class numbers have distinct names in both tables. */
  lemma NamesAreInjective(m: int, n: int)
    requires IsClass(m) && IsClass(n) && m != n
    ensures DisplayName(m) != DisplayName(n)
    ensures ClassName(m) != ClassName(n)
  {
    if m != UNTAGGED && n != UNTAGGED {
      CodeNameRoundTrip(m);
      CodeNameRoundTrip(n);
    }
    // the four lower-case names already differ in their first letter
    assert ClassName(m)[0] != ClassName(n)[0];
  }
}
