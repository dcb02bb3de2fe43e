/** The two classifiers of the detail screen
    (presentation/ui/DogDetailScreen.kt): an age group from integer
    thresholds, and a personality from the first of six keywords that occurs
    in the description, ignoring case. */
module DetailScreen {

  // ---------------------------------------------------------------------
  // Case-insensitive substring search

  /** ASCII case folding; every keyword is lower-case ASCII. */
  function LowerAscii(c: char): char {
    if 'A' <= c <= 'Z' then (c as int - 'A' as int + 'a' as int) as char else c
  }

  predicate SameIgnoringCase(a: char, b: char) {
    LowerAscii(a) == LowerAscii(b)
  }

  /** `keyword` occurs in `s` at position `i`, ignoring case. */
  ghost predicate OccursAt(s: string, keyword: string, i: int) {
    && 0 <= i && i + |keyword| <= |s|
    && forall k :: 0 <= k < |keyword| ==> SameIgnoringCase(s[i + k], keyword[k])
  }

  /** `s` starts with `keyword`, ignoring case (`regionMatches` at 0). */
  function StartsWithIgnoreCase(s: string, keyword: string): bool
    requires |keyword| <= |s|
  {
    keyword == [] || (SameIgnoringCase(s[0], keyword[0]) && StartsWithIgnoreCase(s[1..], keyword[1..]))
  }

  /** `s.contains(keyword, ignoreCase = true)`: tries every start position in
      turn, and so finds the keyword exactly when it occurs somewhere. */
  function ContainsIgnoreCase(s: string, keyword: string): (found: bool)
    ensures found <==> exists i :: OccursAt(s, keyword, i)
    decreases |s|
  {
    if |keyword| > |s| then
      assert forall i :: !OccursAt(s, keyword, i);
      false
    else
      StartsWithIsOccursAtZero(s, keyword);
      if s == [] then
        StartsWithIgnoreCase(s, keyword)
      else
        OccursShift(s, keyword);
        StartsWithIgnoreCase(s, keyword) || ContainsIgnoreCase(s[1..], keyword)
  }

  lemma {:induction false} StartsWithIsOccursAtZero(s: string, keyword: string)
    requires |keyword| <= |s|
    ensures StartsWithIgnoreCase(s, keyword) <==> OccursAt(s, keyword, 0)
  {
    if keyword != [] {
      StartsWithIsOccursAtZero(s[1..], keyword[1..]);
      if OccursAt(s[1..], keyword[1..], 0) && SameIgnoringCase(s[0], keyword[0]) {
        forall k | 0 <= k < |keyword| ensures SameIgnoringCase(s[k], keyword[k]) {
          if k > 0 { assert s[1..][k - 1] == s[k] && keyword[1..][k - 1] == keyword[k]; }
        }
      }
      if OccursAt(s, keyword, 0) {
        forall k | 0 <= k < |keyword[1..]| ensures SameIgnoringCase(s[1..][k], keyword[1..][k]) {
          assert SameIgnoringCase(s[k + 1], keyword[k + 1]);
        }
      }
    }
  }

  /** The occurrences in `s[1..]` are those in `s` after its first position. */
  lemma OccursShift(s: string, keyword: string)
    requires s != []
    ensures forall i :: OccursAt(s[1..], keyword, i) ==> OccursAt(s, keyword, i + 1)
    ensures forall i :: OccursAt(s, keyword, i) && i > 0 ==> OccursAt(s[1..], keyword, i - 1)
  {
    forall i | OccursAt(s[1..], keyword, i) ensures OccursAt(s, keyword, i + 1) {
      forall k | 0 <= k < |keyword| ensures SameIgnoringCase(s[i + 1 + k], keyword[k]) {
        assert s[1..][i + k] == s[i + 1 + k];
      }
    }
    forall i | OccursAt(s, keyword, i) && i > 0 ensures OccursAt(s[1..], keyword, i - 1) {
      forall k | 0 <= k < |keyword| ensures SameIgnoringCase(s[1..][i - 1 + k], keyword[k]) {
        assert s[i + k] == s[1..][i - 1 + k];
      }
    }
  }

  // ---------------------------------------------------------------------
  // Personality

  datatype Personality = Friendly | Playful | Loyal | Cautious | Protective | Leader | Unique
  {
    function Label(): string {
      match this
      case Friendly => "Friendly"
      case Playful => "Playful"
      case Loyal => "Loyal"
      case Cautious => "Cautious"
      case Protective => "Protective"
      case Leader => "Leader"
      case Unique => "Unique"
    }

    /** The index of the keyword that selects this personality; Unique comes
        after all six. */
    function Priority(): nat {
      match this
      case Friendly => 0
      case Playful => 1
      case Loyal => 2
      case Cautious => 3
      case Protective => 4
      case Leader => 5
      case Unique => 6
    }
  }

  /** The keywords in priority order; the personality at priority `i`
      (Friendly, Playful, Loyal, Cautious, Protective, Leader) is the one the
      keyword `Keywords[i]` selects. */
  const Keywords: seq<string> := ["friendly", "playful", "loyal", "trust", "bodyguard", "democracy"]

  /** `getPersonalityFromDescription`: the personality of the first keyword
      found, in priority order, or Unique when none is found. */
  function PersonalityFromDescription(description: string): (p: Personality)
    ensures p.Priority() <= |Keywords|
    ensures forall j :: 0 <= j < p.Priority() ==> !ContainsIgnoreCase(description, Keywords[j])
    ensures p != Unique ==> ContainsIgnoreCase(description, Keywords[p.Priority()])
    ensures p == Unique <==> forall j :: 0 <= j < |Keywords| ==> !ContainsIgnoreCase(description, Keywords[j])
  {
    if ContainsIgnoreCase(description, "friendly") then Friendly
    else if ContainsIgnoreCase(description, "playful") then Playful
    else if ContainsIgnoreCase(description, "loyal") then Loyal
    else if ContainsIgnoreCase(description, "trust") then Cautious
    else if ContainsIgnoreCase(description, "bodyguard") then Protective
    else if ContainsIgnoreCase(description, "democracy") then Leader
    else Unique
  }

  /** Whichever keywords a description holds, the first of them in priority
      order decides: a description speaking of both trust and loyalty (as the
      screen's preview dog's does) is Loyal, not Cautious. */
  lemma FirstKeywordWins(description: string, i: int)
    requires 0 <= i < |Keywords| && ContainsIgnoreCase(description, Keywords[i])
    requires forall j :: 0 <= j < i ==> !ContainsIgnoreCase(description, Keywords[j])
    ensures PersonalityFromDescription(description).Priority() == i
  {
  }

  /** The seven labels are distinct, so the label determines the personality. */
  lemma LabelsDistinct(p: Personality, q: Personality)
    ensures p.Label() == q.Label() <==> p == q
  {
  }

  // ---------------------------------------------------------------------
  // Age group

  datatype AgeGroup = Puppy | Adult | Senior
  {
    function Label(): string {
      match this
      case Puppy => "Puppy"
      case Adult => "Adult"
      case Senior => "Senior"
    }

    /** Position in the order Puppy < Adult < Senior. */
    function Rank(): nat {
      match this
      case Puppy => 0
      case Adult => 1
      case Senior => 2
    }
  }

  /** `getAgeGroup`: below 2 a puppy (negative ages included), below 7 an
      adult, otherwise a senior. */
  function AgeGroupFor(age: int): (g: AgeGroup)
    ensures g == Puppy <==> age < 2
    ensures g == Adult <==> 2 <= age < 7
    ensures g == Senior <==> 7 <= age
  {
    if age < 2 then Puppy
    else if age < 7 then Adult
    else Senior
  }

  /** An older dog is never in an earlier group. */
  lemma AgeGroupMonotone(younger: int, older: int)
    requires younger <= older
    ensures AgeGroupFor(younger).Rank() <= AgeGroupFor(older).Rank()
  {
  }
}
