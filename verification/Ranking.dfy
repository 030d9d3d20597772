/** The cached top-ten list of scores. */
module Ranking {

  const MAX_RANKING_COUNT: nat := 10

  datatype RankingInfo = RankingInfo(id: int, nickname: string, score: int)

  /** Higher scores first; equal scores by player number. */
  predicate Before(a: RankingInfo, b: RankingInfo) {
    if a.score != b.score then a.score > b.score else a.id < b.id
  }

  predicate Ordered(s: seq<RankingInfo>) {
    forall i, j :: 0 <= i < j < |s| ==> !Before(s[j], s[i])
  }

  function Inserted(s: seq<RankingInfo>, x: RankingInfo): (r: seq<RankingInfo>)
    requires Ordered(s)
    ensures Ordered(r) && forall y :: y in r <==> y == x || y in s
  {
    if s == [] then [x]
    else if Before(x, s[0]) then [x] + s
    else
      var rest := Inserted(s[1..], x);
      assert forall j :: 0 <= j < |rest| ==> rest[j] in rest;
      [s[0]] + rest
  }

  /** The library sort. */
  function Sorted(s: seq<RankingInfo>): (r: seq<RankingInfo>)
    ensures Ordered(r)
  {
    if s == [] then [] else Inserted(Sorted(s[1..]), s[0])
  }

  lemma {:induction false} InsertedIsPermutation(s: seq<RankingInfo>, x: RankingInfo)
    requires Ordered(s)
    ensures multiset(Inserted(s, x)) == multiset(s) + multiset{x}
  {
    if s != [] {
      assert s == [s[0]] + s[1..];
      if !Before(x, s[0]) {
        InsertedIsPermutation(s[1..], x);
      }
    }
  }

  lemma {:induction false} SortedIsPermutation(s: seq<RankingInfo>)
    ensures multiset(Sorted(s)) == multiset(s)
  {
    if s != [] {
      SortedIsPermutation(s[1..]);
      InsertedIsPermutation(Sorted(s[1..]), s[0]);
      assert s == [s[0]] + s[1..];
    }
  }

  function Trimmed(s: seq<RankingInfo>): seq<RankingInfo> {
    var sorted := Sorted(s);
    if |sorted| > MAX_RANKING_COUNT then sorted[..MAX_RANKING_COUNT] else sorted
  }

  predicate Lists(s: seq<RankingInfo>, id: int) {
    exists k :: 0 <= k < |s| && s[k].id == id
  }

  /** The list after a player has scored. */
  function Updated(s: seq<RankingInfo>, id: int, nickname: string, score: int): seq<RankingInfo> {
    if score <= 0 then s
    else if Lists(s, id) then Trimmed(Improved(s, id, nickname, score))
    else if |s| < MAX_RANKING_COUNT || score > s[|s| - 1].score then Trimmed(s + [RankingInfo(id, nickname, score)])
    else s
  }

  /** The entry of a listed player gets the new name and the better of the two scores. */
  function Improved(s: seq<RankingInfo>, id: int, nickname: string, score: int): (r: seq<RankingInfo>)
    ensures |r| == |s|
    ensures forall k :: 0 <= k < |s| ==> r[k] == ImprovedEntry(s[k], id, nickname, score)
  {
    seq(|s|, (k: int) requires 0 <= k < |s| => ImprovedEntry(s[k], id, nickname, score))
  }

  function ImprovedEntry(e: RankingInfo, id: int, nickname: string, score: int): RankingInfo {
    if e.id == id then RankingInfo(id, nickname, if score > e.score then score else e.score) else e
  }

  class RankingManager {
    var rankings: seq<RankingInfo>

    constructor ()
      ensures rankings == []
    {
      rankings := [];
    }

    method SortAndTrim()
      modifies this
      ensures rankings == Trimmed(old(rankings))
    {
      rankings := Sorted(rankings);
      if |rankings| > MAX_RANKING_COUNT {
        rankings := rankings[..MAX_RANKING_COUNT];
      }
    }

    method InitRanking(initial: seq<RankingInfo>)
      modifies this
      ensures rankings == Trimmed(initial)
    {
      rankings := initial;
      SortAndTrim();
    }

    method UpdateRanking(id: int, nickname: string, score: int)
      requires Distinct(rankings)
      modifies this
      ensures rankings == Updated(old(rankings), id, nickname, score)
    {
      if score <= 0 {
        return;
      }
      var it := 0;
      while it < |rankings| && rankings[it].id != id
        invariant 0 <= it <= |rankings| && forall k :: 0 <= k < it ==> rankings[k].id != id
      {
        it := it + 1;
      }
      if it < |rankings| {
        var entry := rankings[it].(nickname := nickname);
        if score > entry.score {
          entry := entry.(score := score);
        }
        assert Improved(rankings, id, nickname, score) == rankings[it := entry];
        rankings := rankings[it := entry];
        SortAndTrim();
        return;
      }
      if |rankings| < MAX_RANKING_COUNT || score > rankings[|rankings| - 1].score {
        rankings := rankings + [RankingInfo(id, nickname, score)];
        SortAndTrim();
      }
    }
  }

  // ---------- What the list means ----------

  predicate Distinct(s: seq<RankingInfo>) {
    forall i, j :: 0 <= i < j < |s| ==> s[i].id != s[j].id
  }

  /** The entries of the list are players' best scores, one entry a player. */
  ghost predicate Correct(s: seq<RankingInfo>, best: map<int, int>) {
    Distinct(s) && forall k :: 0 <= k < |s| ==> s[k].id in best && best[s[k].id] == s[k].score
  }

  /** Players who are missing from the list are no better than anyone on it, and only a list
      of ten may miss somebody. */
  ghost predicate Covers(s: seq<RankingInfo>, best: map<int, int>) {
    forall id :: id in best && !Lists(s, id) ==>
      |s| >= MAX_RANKING_COUNT && forall k :: 0 <= k < |s| ==> best[id] <= s[k].score
  }

  /** The list is a top ten of `best`, the best positive score of every player. */
  ghost predicate Tracks(s: seq<RankingInfo>, best: map<int, int>) {
    |s| <= MAX_RANKING_COUNT && Ordered(s) && Correct(s, best) && Covers(s, best)
  }

  /** Best scores after an update. */
  function Raised(best: map<int, int>, id: int, score: int): map<int, int> {
    if score <= 0 || (id in best && best[id] >= score) then best else best[id := score]
  }

  lemma SameElements(s: seq<RankingInfo>, t: seq<RankingInfo>, x: RankingInfo)
    requires multiset(s) == multiset(t)
    ensures x in s <==> x in t
  {
    assert x in multiset(s) <==> x in s;
    assert x in multiset(t) <==> x in t;
  }

  lemma SortedCorrect(s: seq<RankingInfo>, best: map<int, int>)
    requires Correct(s, best)
    ensures Correct(Sorted(s), best) && |Sorted(s)| == |s|
    ensures forall x :: x in s <==> x in Sorted(s)
  {
    var t := Sorted(s);
    SortedIsPermutation(s);
    assert |s| == |multiset(s)| == |multiset(t)| == |t|;
    forall x
      ensures x in s <==> x in t
    {
      SameElements(s, t, x);
    }
    forall i, j | 0 <= i < j < |t|
      ensures t[i].id != t[j].id
    {
      assert t[i] in s && t[j] in s;
      if t[i].id == t[j].id {
        assert t[i] == t[j];
        MultipleTwice(t, i, j);
        NoMultiples(s, t[i]);
      }
    }
    forall k | 0 <= k < |t|
      ensures t[k].id in best && best[t[k].id] == t[k].score
    {
      assert t[k] in s;
    }
  }

  lemma MultipleTwice(t: seq<RankingInfo>, i: nat, j: nat)
    requires i < j < |t| && t[i] == t[j]
    ensures multiset(t)[t[i]] >= 2
  {
    assert t == t[..j] + [t[j]] + t[j + 1..];
    assert t[i] in t[..j];
    assert multiset(t[..j])[t[i]] >= 1;
  }

  lemma {:induction false} NoMultiples(s: seq<RankingInfo>, x: RankingInfo)
    requires Distinct(s)
    ensures multiset(s)[x] <= 1
  {
    if s != [] {
      NoMultiples(s[1..], x);
      assert s == [s[0]] + s[1..];
      if s[0] == x {
        assert x !in s[1..];
      }
    }
  }

  /** Who is cut is no better than who stays. */
  lemma TrimCovers(s: seq<RankingInfo>, best: map<int, int>, id: int)
    requires Correct(s, best) && Covers(s, best) && id in best && !Lists(Trimmed(s), id)
    ensures |Trimmed(s)| >= MAX_RANKING_COUNT
    ensures forall k :: 0 <= k < |Trimmed(s)| ==> best[id] <= Trimmed(s)[k].score
  {
    SortedCorrect(s, best);
    var t, r := Sorted(s), Trimmed(s);
    hide Sorted, Trimmed;
    if j :| 0 <= j < |s| && s[j].id == id {
      assert s[j] in t;
      var i :| 0 <= i < |t| && t[i] == s[j];
      assert forall k :: 0 <= k < |r| ==> t[k] == r[k] && r[k].id != id;
    } else {
      forall k | 0 <= k < |r|
        ensures best[id] <= r[k].score
      {
        assert r[k] == t[k] && t[k] in s;
      }
    }
  }

  /** Sorting and cutting at ten keeps a top ten, provided the rows are correct and miss nobody
      better; so does loading the ranking. */
  lemma TrimTracks(s: seq<RankingInfo>, best: map<int, int>)
    requires Correct(s, best) && Covers(s, best)
    ensures Tracks(Trimmed(s), best)
  {
    SortedCorrect(s, best);
    forall id | id in best && !Lists(Trimmed(s), id)
      ensures |Trimmed(s)| >= MAX_RANKING_COUNT && forall k :: 0 <= k < |Trimmed(s)| ==> best[id] <= Trimmed(s)[k].score
    {
      TrimCovers(s, best, id);
    }
  }

  lemma StillListed(s: seq<RankingInfo>, t: seq<RankingInfo>, id: int)
    requires |s| <= |t| && forall k :: 0 <= k < |s| ==> t[k].id == s[k].id
    ensures Lists(s, id) ==> Lists(t, id)
  {
    if k :| 0 <= k < |s| && s[k].id == id {
      assert t[k].id == id;
    }
  }

  lemma ListedUpdate(s: seq<RankingInfo>, best: map<int, int>, id: int, nickname: string, score: int)
    requires Tracks(s, best) && Lists(s, id) && score > 0
    ensures Tracks(Updated(s, id, nickname, score), Raised(best, id, score))
  {
    var t := Improved(s, id, nickname, score);
    var best' := Raised(best, id, score);
    forall k | 0 <= k < |t|
      ensures t[k].id == s[k].id && t[k].score >= s[k].score && t[k].id in best' && best'[t[k].id] == t[k].score
    {
      assert best[s[k].id] == s[k].score;
    }
    assert Distinct(t);
    forall other | other in best' && !Lists(t, other)
      ensures |t| >= MAX_RANKING_COUNT && forall k :: 0 <= k < |t| ==> best'[other] <= t[k].score
    {
      var j :| 0 <= j < |s| && s[j].id == id;
      assert t[j].id == id;
      StillListed(s, t, other);
    }
    TrimTracks(t, best');
  }

  lemma UnlistedUpdate(s: seq<RankingInfo>, best: map<int, int>, id: int, nickname: string, score: int)
    requires Tracks(s, best) && !Lists(s, id) && score > 0
    ensures Tracks(Updated(s, id, nickname, score), Raised(best, id, score))
  {
    var best' := Raised(best, id, score);
    if |s| < MAX_RANKING_COUNT || score > s[|s| - 1].score {
      var t := s + [RankingInfo(id, nickname, score)];
      assert t[|s|].id == id;
      forall k | 0 <= k < |s|
        ensures t[k] == s[k] && s[k].id != id && (|s| == MAX_RANKING_COUNT ==> s[k].score >= s[|s| - 1].score)
      {
      }
      assert Correct(t, best');
      forall other | other in best' && !Lists(t, other)
        ensures |t| >= MAX_RANKING_COUNT && forall k :: 0 <= k < |t| ==> best'[other] <= t[k].score
      {
        StillListed(s, t, other);
      }
      TrimTracks(t, best');
    } else {
      forall k | 0 <= k < |s|
        ensures s[k].score >= s[|s| - 1].score && s[k].id != id
      {
      }
    }
  }

  /** A score update keeps the list a top ten. */
  lemma UpdateTracks(s: seq<RankingInfo>, best: map<int, int>, id: int, nickname: string, score: int)
    requires Tracks(s, best)
    ensures Tracks(Updated(s, id, nickname, score), Raised(best, id, score))
  {
    if score > 0 {
      if Lists(s, id) {
        ListedUpdate(s, best, id, nickname, score);
      } else {
        UnlistedUpdate(s, best, id, nickname, score);
      }
    }
  }

  /** A player who has scored is listed under the name of the update, and nobody else's entry
      changes. */
  lemma NamesAreKept(s: seq<RankingInfo>, id: int, nickname: string, score: int, k: nat)
    requires Distinct(s) && score > 0 && k < |Updated(s, id, nickname, score)|
    ensures var e := Updated(s, id, nickname, score)[k];
            if e.id == id then e.nickname == nickname else e in s
  {
    hide Sorted;
    var t := if Lists(s, id) then Improved(s, id, nickname, score) else s + [RankingInfo(id, nickname, score)];
    SortedIsPermutation(t);
    if Updated(s, id, nickname, score) == Trimmed(t) {
      var e := Trimmed(t)[k];
      assert e in Sorted(t);
      SameElements(t, Sorted(t), e);
    }
  }

  datatype Score = Score(id: int, nickname: string, score: int)

  function AfterScores(s: seq<RankingInfo>, scores: seq<Score>): seq<RankingInfo>
    decreases |scores|
  {
    if scores == [] then s
    else AfterScores(Updated(s, scores[0].id, scores[0].nickname, scores[0].score), scores[1..])
  }

  function BestAfter(best: map<int, int>, scores: seq<Score>): map<int, int>
    decreases |scores|
  {
    if scores == [] then best else BestAfter(Raised(best, scores[0].id, scores[0].score), scores[1..])
  }

  // ---------- An independent reading of "top ten" ----------

  /** How many players have a best score of at least `v`. */
  ghost function AtLeast(best: map<int, int>, v: int): nat {
    |set id | id in best && best[id] >= v|
  }

  function Ids(s: seq<RankingInfo>): (ids: set<int>)
    ensures forall id :: id in ids <==> Lists(s, id)
  {
    set k | 0 <= k < |s| :: s[k].id
  }

  lemma {:induction false} IdsCount(s: seq<RankingInfo>)
    requires Distinct(s)
    ensures |Ids(s)| == |s|
  {
    if s != [] {
      var n := |s| - 1;
      IdsCount(s[..n]);
      assert s[n].id !in Ids(s[..n]);
      assert Ids(s) == Ids(s[..n]) + {s[n].id} by {
        forall id
          ensures id in Ids(s) <==> id in Ids(s[..n]) + {s[n].id}
        {
          if k :| 0 <= k < |s| && s[k].id == id {
            assert k < n ==> s[..n][k].id == id;
          }
          if k :| 0 <= k < n && s[..n][k].id == id {
            assert s[k].id == id;
          }
        }
      }
    }
  }

  lemma SubsetSize(a: set<int>, b: set<int>)
    requires a <= b
    ensures |a| <= |b|
  {
    assert b == a + (b - a);
  }

  /** Place `k` of the list holds a score of at least `v` exactly when more than `k` players
      have one: the list holds the largest best scores, in order. */
  lemma PlaceIsRank(s: seq<RankingInfo>, best: map<int, int>, k: nat, v: int)
    requires Tracks(s, best) && k < |s|
    ensures s[k].score >= v <==> AtLeast(best, v) > k
  {
    var good := set id | id in best && best[id] >= v;
    if s[k].score >= v {
      IdsCount(s[..k + 1]);
      forall id | id in Ids(s[..k + 1])
        ensures id in good
      {
        var j :| 0 <= j < k + 1 && s[..k + 1][j].id == id;
        assert s[j].score >= s[k].score;
      }
      SubsetSize(Ids(s[..k + 1]), good);
    } else {
      IdsCount(s[..k]);
      forall id | id in good
        ensures id in Ids(s[..k])
      {
        assert Lists(s, id);
        var j :| 0 <= j < |s| && s[j].id == id;
        assert j < k;
        assert s[..k][j].id == id;
      }
      SubsetSize(good, Ids(s[..k]));
    }
  }

  /** Everybody is listed until there are ten. */
  lemma FullUnlessFew(s: seq<RankingInfo>, best: map<int, int>)
    requires Tracks(s, best)
    ensures |s| == if |best| < MAX_RANKING_COUNT then |best| else MAX_RANKING_COUNT
  {
    IdsCount(s);
    SubsetSize(Ids(s), best.Keys);
    if |s| < MAX_RANKING_COUNT {
      forall id | id in best.Keys
        ensures id in Ids(s)
      {
        assert Lists(s, id);
      }
      SubsetSize(best.Keys, Ids(s));
    }
    assert |best| == |best.Keys|;
  }

  /** After any updates, starting from a true top ten: the score at place `k` is at least `v`
      exactly when more than `k` players have a best score of at least `v`, no player is
      listed twice, and nobody is missing while there is room. */
  lemma {:induction false} RankingAfterScores(s: seq<RankingInfo>, best: map<int, int>, scores: seq<Score>)
    requires Tracks(s, best)
    ensures var r, all := AfterScores(s, scores), BestAfter(best, scores);
            && Tracks(r, all)
            && |r| == (if |all| < MAX_RANKING_COUNT then |all| else MAX_RANKING_COUNT)
            && (forall k, v :: 0 <= k < |r| ==> (r[k].score >= v <==> AtLeast(all, v) > k))
    decreases |scores|
  {
    if scores == [] {
      FullUnlessFew(s, best);
      forall k, v | 0 <= k < |s|
        ensures s[k].score >= v <==> AtLeast(best, v) > k
      {
        PlaceIsRank(s, best, k, v);
      }
    } else {
      var e := scores[0];
      UpdateTracks(s, best, e.id, e.nickname, e.score);
      RankingAfterScores(Updated(s, e.id, e.nickname, e.score), Raised(best, e.id, e.score), scores[1..]);
    }
  }
}
