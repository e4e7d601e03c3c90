/** The challenge list of scripts/challenges.js: the eight built-in challenges, the search and
    category filter, the status class of a card and the hand-off of a solved challenge to the
    progress dashboard. */
module ChallengeList {
  import opened Wrappers
  import opened Text
  import opened Sequences
  import opened ProgressRecord
  import opened Progress
  import opened Achievements

  datatype Challenge = Challenge(title: string, difficulty: string, language: string, status: string, category: string)

  /** The `challenges` array, in page order. */
  const Challenges: seq<Challenge> := [
    Challenge("Responsive Navbar", "easy", "HTML, CSS", "Incomplete", "frontend"),
    Challenge("Simple REST API Server", "medium", "Node.js, Express", "Complete", "backend"),
    Challenge("User Authentication Flow", "hard", "React, Node.js", "Incomplete", "fullstack"),
    Challenge("To-Do List Application", "easy", "JavaScript, HTML, CSS", "Complete", "frontend"),
    Challenge("Database Schema Design", "medium", "SQL", "Incomplete", "backend"),
    Challenge("Binary Search Algorithm", "medium", "Python", "Complete", "algorithms"),
    Challenge("CSS Card Component", "easy", "HTML, CSS", "Complete", "frontend"),
    Challenge("Real-time Chat App", "hard", "Socket.IO, Node.js", "Incomplete", "fullstack")]

  /** The search test: the lowercased term occurs in the lowercased title or language. */
  predicate MatchesSearch(c: Challenge, searchValue: string) {
    var term := Lower(searchValue);
    Includes(Lower(c.title), term) || Includes(Lower(c.language), term)
  }

  /** The category test: `'all'` lets everything through, any other value must match exactly. */
  predicate MatchesCategory(c: Challenge, category: string) {
    category == "all" || c.category == category
  }

  predicate Shown(c: Challenge, searchValue: string, category: string) {
    MatchesSearch(c, searchValue) && MatchesCategory(c, category)
  }

  /** `applyFilters`: the challenges passing both tests, in their original order. */
  function ApplyFilters(cs: seq<Challenge>, searchValue: string, category: string): (r: seq<Challenge>)
    ensures forall c :: c in r <==> c in cs && Shown(c, searchValue, category)
    ensures SubsequenceOf(r, cs)
  {
    if cs == [] then []
    else
      var rest := ApplyFilters(cs[1..], searchValue, category);
      assert forall c :: c in cs <==> c == cs[0] || c in cs[1..];
      if Shown(cs[0], searchValue, category) then [cs[0]] + rest else rest
  }

  /** Every string includes the empty one. */
  lemma IncludesEmpty(s: string)
    ensures Includes(s, "")
  {
    assert OccursAt(s, "", 0);
  }

  /** An empty search with category `'all'` keeps the whole list. */
  lemma {:induction false} EmptySearchKeepsAll(cs: seq<Challenge>)
    ensures ApplyFilters(cs, "", "all") == cs
    decreases |cs|
  {
    if cs != [] {
      IncludesEmpty(Lower(cs[0].title));
      EmptySearchKeepsAll(cs[1..]);
    }
  }

  /** On first load the page therefore shows all eight challenges. */
  lemma InitialRenderShowsAll()
    ensures |ApplyFilters(Challenges, "", "all")| == 8
  {
    EmptySearchKeepsAll(Challenges);
  }

  /** Terms that lowercase alike select the same challenges. */
  lemma {:induction false} SearchIgnoresCase(cs: seq<Challenge>, t1: string, t2: string, category: string)
    requires Lower(t1) == Lower(t2)
    ensures ApplyFilters(cs, t1, category) == ApplyFilters(cs, t2, category)
    decreases |cs|
  {
    if cs != [] {
      SearchIgnoresCase(cs[1..], t1, t2, category);
    }
  }

  /** Filtering again with the same inputs changes nothing. */
  lemma {:induction false} ApplyFiltersIdempotent(cs: seq<Challenge>, searchValue: string, category: string)
    ensures ApplyFilters(ApplyFilters(cs, searchValue, category), searchValue, category) == ApplyFilters(cs, searchValue, category)
    decreases |cs|
  {
    if cs != [] {
      ApplyFiltersIdempotent(cs[1..], searchValue, category);
      var rest := ApplyFilters(cs[1..], searchValue, category);
      if Shown(cs[0], searchValue, category) {
        assert ([cs[0]] + rest)[1..] == rest;
      }
    }
  }

  /** The challenges of one category, in order. */
  function InCategory(cs: seq<Challenge>, category: string): seq<Challenge> {
    if cs == [] then []
    else if cs[0].category == category then [cs[0]] + InCategory(cs[1..], category)
    else InCategory(cs[1..], category)
  }

  /** With an empty search only the category test is left. */
  lemma {:induction false} EmptySearchIsCategory(cs: seq<Challenge>, category: string)
    requires category != "all"
    ensures ApplyFilters(cs, "", category) == InCategory(cs, category)
    decreases |cs|
  {
    if cs != [] {
      IncludesEmpty(Lower(cs[0].title));
      EmptySearchIsCategory(cs[1..], category);
    }
  }

  /** The category filter alone: the backend challenges, in order. */
  lemma BackendCategory()
    ensures ApplyFilters(Challenges, "", "backend") == [Challenges[1], Challenges[4]]
  {
    EmptySearchIsCategory(Challenges, "backend");
    BackendAfterFirstTwo();
    var cs := Challenges;
    assert InCategory(cs, "backend") == [cs[1]] + InCategory(cs[2..], "backend");
  }

  lemma BackendAfterFirstTwo()
    ensures InCategory(Challenges[2..], "backend") == [Challenges[4]]
  {
    var cs := Challenges;
    assert InCategory(cs[5..], "backend") == [] by {
      assert InCategory(cs[7..], "backend") == InCategory(cs[8..], "backend") == [];
      assert InCategory(cs[5..], "backend") == InCategory(cs[7..], "backend");
    }
    assert InCategory(cs[4..], "backend") == [cs[4]] + InCategory(cs[5..], "backend");
    assert InCategory(cs[2..], "backend") == InCategory(cs[4..], "backend");
  }

  /** The class of a card's status badge: `complete` exactly for a status that lowercases to
      `complete`. */
  function StatusClass(status: string): (cls: string)
    ensures cls == "complete" || cls == "incomplete"
    ensures cls == "complete" <==> Lower(status) == "complete"
  {
    if Lower(status) == "complete" then "complete" else "incomplete"
  }

  /** The badges of the built-in challenges follow their written status; a status that merely
      starts with the word does not count as complete. */
  lemma StatusClassExamples()
    ensures forall i :: 0 <= i < |Challenges| ==>
      (StatusClass(Challenges[i].status) == "complete" <==> Challenges[i].status == "Complete")
    ensures StatusClass("COMPLETE") == "complete"
    ensures StatusClass("Completed") == "incomplete"
  {
    assert Lower("Complete") == "complete";
    assert Lower("COMPLETE") == "complete";
    assert |Lower("Completed")| == 9;
    assert |Lower("Incomplete")| == 10;
  }

  /** `value || fallback` on a string that may be missing: an empty string is falsy too. */
  function OrDefault(value: Option<string>, fallback: string): (r: string)
    ensures value.Some? && value.value != "" ==> r == value.value
    ensures (value.None? || value.value == "") ==> r == fallback
  {
    if value.Some? && value.value != "" then value.value else fallback
  }

  /** The challenge a "Solve challenge" click reports, from the card's title text and its
      `data-difficulty` and `data-category` attributes. */
  function CardChallenge(title: Option<string>, difficulty: Option<string>, category: Option<string>): (c: ChallengeData)
    ensures c.title != [] && c.difficulty != [] && c.category != []
    ensures c.title == OrDefault(title, "Unknown")
    ensures c.difficulty == OrDefault(difficulty, "unknown") && c.category == OrDefault(category, "unknown")
  {
    ChallengeData(OrDefault(title, "Unknown"), OrDefault(difficulty, "unknown"), OrDefault(category, "unknown"))
  }

  /** Every card without a title and a difficulty reports the id `Unknown_unknown`, so after the
      first one is recorded the others are all taken for repeats. */
  lemma UnknownCardsShareId(c1: Option<string>, c2: Option<string>)
    ensures ChallengeId(CardChallenge(None, None, c1)) == ChallengeId(CardChallenge(Some(""), None, c2)) == "Unknown_unknown"
  {
  }

  /** `trackChallengeInteraction` after a click on a card: nothing without a dashboard, otherwise
      the completion is recorded there. */
  method TrackChallengeInteraction(dashboard: ProgressDashboard?, title: Option<string>, difficulty: Option<string>,
    category: Option<string>, today: Day, now: Timestamp, writable: bool)
    modifies if dashboard == null then {} else {dashboard, dashboard.achievements}
    ensures dashboard != null ==>
      var c := CardChallenge(title, difficulty, category);
      && (ChallengeId(c) in old(dashboard.userData).completedChallenges ==>
            && dashboard.userData == old(dashboard.userData)
            && dashboard.slot == old(dashboard.slot)
            && dashboard.achievements.newlyUnlocked == old(dashboard.achievements.newlyUnlocked))
      && (ChallengeId(c) !in old(dashboard.userData).completedChallenges ==>
            && dashboard.userData == Track(old(dashboard.userData), c, today).(lastUpdated := now)
            && dashboard.slot == (if writable then Parsed(ToStored(dashboard.userData)) else old(dashboard.slot))
            && dashboard.achievements.newlyUnlocked ==
                 Unlock(Catalogue, Streaked(old(dashboard.userData), c, today), old(dashboard.userData).achievements).1)
  {
    if dashboard != null {
      dashboard.TrackChallengeCompletion(CardChallenge(title, difficulty, category), today, now, writable);
    }
  }
}
