/** The leaderboard of scripts/app.js: users ordered by points, highest first, with their rank
    labels and the medal classes of the first three. */
module Leaderboard {
  import opened Text

  datatype User = User(name: string, points: int, img: string)

  /** What one rendered card shows. */
  datatype Card = Card(name: string, rankClass: string, rankLabel: string, points: int)

  /** The `leaderboardData` the page starts with. */
  const InitialData: seq<User> := [
    User("Alice", 1250, "assets/leaderboard-section/user-1.png"),
    User("Bob", 1100, "assets/leaderboard-section/user-2.png"),
    User("Charlie", 980, "assets/leaderboard-section/user-3.png"),
    User("David", 900, "assets/leaderboard-section/user-4.png"),
    User("Eva", 870, "assets/leaderboard-section/user-5.png")]

  /** Points never increase along the list. */
  predicate SortedDesc(s: seq<User>) {
    forall i, j :: 0 <= i < j < |s| ==> s[i].points >= s[j].points
  }

  /** The users with exactly `v` points, in list order. */
  function WithPoints(s: seq<User>, v: int): seq<User> {
    if s == [] then [] else (if s[0].points == v then [s[0]] else []) + WithPoints(s[1..], v)
  }

  /** Places `u` ahead of the first user with no more points than it. */
  function Insert(u: User, t: seq<User>): (r: seq<User>)
    ensures multiset(r) == multiset(t) + multiset{u}
  {
    if t == [] || t[0].points <= u.points then [u] + t
    else
      assert t == [t[0]] + t[1..];
      [t[0]] + Insert(u, t[1..])
  }

  lemma {:induction false} InsertSorted(u: User, t: seq<User>)
    requires SortedDesc(t)
    ensures SortedDesc(Insert(u, t))
    decreases |t|
  {
    if t != [] && t[0].points > u.points {
      var rest := Insert(u, t[1..]);
      InsertSorted(u, t[1..]);
      forall x | x in rest ensures x.points <= t[0].points {
        assert x in multiset(rest);
        if x != u {
          assert x in multiset(t[1..]);
        }
      }
    }
  }

  /** `leaderboardData.sort((a, b) => b.points - a.points)`: the sort is stable, so users with
      equal points keep their order. */
  function SortByPoints(s: seq<User>): (r: seq<User>)
    ensures SortedDesc(r)
    ensures multiset(r) == multiset(s)
  {
    if s == [] then []
    else
      assert s == [s[0]] + s[1..];
      InsertSorted(s[0], SortByPoints(s[1..]));
      Insert(s[0], SortByPoints(s[1..]))
  }

  lemma {:induction false} InsertWithPoints(u: User, t: seq<User>, v: int)
    ensures WithPoints(Insert(u, t), v) == (if u.points == v then [u] else []) + WithPoints(t, v)
    decreases |t|
  {
    if t == [] || t[0].points <= u.points {
      assert ([u] + t)[1..] == t;
    } else {
      InsertWithPoints(u, t[1..], v);
      assert ([t[0]] + Insert(u, t[1..]))[1..] == Insert(u, t[1..]);
    }
  }

  /** The sort is stable: for every score, the users holding it appear in the order they had. */
  lemma {:induction false} SortIsStable(s: seq<User>, v: int)
    ensures WithPoints(SortByPoints(s), v) == WithPoints(s, v)
    decreases |s|
  {
    if s != [] {
      SortIsStable(s[1..], v);
      InsertWithPoints(s[0], SortByPoints(s[1..]), v);
    }
  }

  /** A list already in order is left as it is. */
  lemma {:induction false} SortKeepsSorted(s: seq<User>)
    requires SortedDesc(s)
    ensures SortByPoints(s) == s
    decreases |s|
  {
    if s != [] {
      assert SortedDesc(s[1..]);
      SortKeepsSorted(s[1..]);
    }
  }

  /** The starting data is in order, so the first render shows it as listed. */
  lemma InitialDataInOrder()
    ensures SortByPoints(InitialData) == InitialData
  {
    SortKeepsSorted(InitialData);
  }

  /** The rank class: medals for the first three places, none after. */
  function RankClass(index: nat): (cls: string)
    ensures index < 3 <==> cls != ""
  {
    if index == 0 then "rank-1" else if index == 1 then "rank-2" else if index == 2 then "rank-3" else ""
  }

  /** `#${index + 1}`. */
  function RankLabel(index: nat): (text: string)
    ensures |text| >= 2 && text[0] == '#'
  {
    "#" + NatToString(index + 1)
  }

  /** Rank labels tell places apart and read back as the one-based place. */
  lemma RankLabelsDistinct(i: nat, j: nat)
    ensures RankLabel(i) == RankLabel(j) <==> i == j
    ensures ParseDigits(RankLabel(i)[1..]) == i + 1
  {
    if RankLabel(i) == RankLabel(j) {
      assert RankLabel(i)[1..] == NatToString(i + 1);
      assert RankLabel(j)[1..] == NatToString(j + 1);
      NatToStringInjective(i + 1, j + 1);
    }
    assert RankLabel(i)[1..] == NatToString(i + 1);
    ParseNatToString(i + 1);
  }

  /** Every user with their drawn bonus added, in list order. */
  function Bumped(users: seq<User>, bonuses: seq<nat>): (r: seq<User>)
    requires |bonuses| == |users|
    ensures |r| == |users|
    ensures forall i :: 0 <= i < |r| ==> r[i] == users[i].(points := users[i].points + bonuses[i])
  {
    if users == [] then []
    else [users[0].(points := users[0].points + bonuses[0])] + Bumped(users[1..], bonuses[1..])
  }

  /** `u` is `v` with a bonus below 15 added: same name and picture, no fewer points. */
  predicate GainedBonus(v: User, u: User) {
    u.name == v.name && u.img == v.img && v.points <= u.points < v.points + 15
  }

  /** After a tick the board holds the same number of people, each of them one of the old users
      with their bonus added, and every old user is still there. */
  lemma {:induction false} LiveUpdateKeepsUsers(users: seq<User>, bonuses: seq<nat>)
    requires |bonuses| == |users| && forall k :: 0 <= k < |bonuses| ==> bonuses[k] < 15
    ensures |SortByPoints(Bumped(users, bonuses))| == |users|
    ensures forall u :: u in SortByPoints(Bumped(users, bonuses)) ==>
      exists i :: 0 <= i < |users| && GainedBonus(users[i], u)
    ensures forall i :: 0 <= i < |users| ==>
      exists u :: u in SortByPoints(Bumped(users, bonuses)) && GainedBonus(users[i], u)
  {
    var b := Bumped(users, bonuses);
    var sorted := SortByPoints(b);
    assert |sorted| == |multiset(sorted)| == |multiset(b)| == |b|;
    forall u | u in sorted ensures exists i :: 0 <= i < |users| && GainedBonus(users[i], u) {
      assert u in multiset(b);
      var i :| 0 <= i < |b| && b[i] == u;
      assert GainedBonus(users[i], u);
    }
    forall i | 0 <= i < |users| ensures exists u :: u in sorted && GainedBonus(users[i], u) {
      assert b[i] in multiset(sorted);
      assert b[i] in sorted && GainedBonus(users[i], b[i]);
    }
  }

  class LeaderboardView {
    var leaderboardData: seq<User>

    constructor ()
      ensures leaderboardData == InitialData
    {
      leaderboardData := InitialData;
    }

    /** `renderLeaderboard`: sort in place, then one card per user in the new order. */
    method RenderLeaderboard() returns (cards: seq<Card>)
      modifies this
      ensures leaderboardData == SortByPoints(old(leaderboardData))
      ensures SortedDesc(leaderboardData) && multiset(leaderboardData) == multiset(old(leaderboardData))
      ensures |cards| == |leaderboardData|
      ensures forall i :: 0 <= i < |cards| ==>
        cards[i] == Card(leaderboardData[i].name, RankClass(i), RankLabel(i), leaderboardData[i].points)
    {
      leaderboardData := SortByPoints(leaderboardData);
      cards := [];
      var index := 0;
      while index < |leaderboardData|
        invariant 0 <= index <= |leaderboardData| && |cards| == index
        invariant forall i :: 0 <= i < index ==>
          cards[i] == Card(leaderboardData[i].name, RankClass(i), RankLabel(i), leaderboardData[i].points)
      {
        var user := leaderboardData[index];
        cards := cards + [Card(user.name, RankClass(index), RankLabel(index), user.points)];
        index := index + 1;
      }
    }

    /** One tick of the live update: every user gains their drawn bonus (below 15), then the
        board is sorted and rendered again. */
    method LiveUpdate(bonuses: seq<nat>) returns (cards: seq<Card>)
      requires |bonuses| == |leaderboardData| && forall k :: 0 <= k < |bonuses| ==> bonuses[k] < 15
      modifies this
      ensures leaderboardData == SortByPoints(Bumped(old(leaderboardData), bonuses))
      ensures |cards| == |leaderboardData|
      ensures forall i :: 0 <= i < |cards| ==>
        cards[i] == Card(leaderboardData[i].name, RankClass(i), RankLabel(i), leaderboardData[i].points)
    {
      var k := 0;
      var bumped := [];
      while k < |leaderboardData|
        invariant 0 <= k <= |leaderboardData| && |bumped| == k
        invariant forall i :: 0 <= i < k ==>
          bumped[i] == leaderboardData[i].(points := leaderboardData[i].points + bonuses[i])
      {
        var user := leaderboardData[k];
        bumped := bumped + [user.(points := user.points + bonuses[k])];
        k := k + 1;
      }
      assert bumped == Bumped(leaderboardData, bonuses);
      leaderboardData := bumped;
      cards := RenderLeaderboard();
    }
  }
}
