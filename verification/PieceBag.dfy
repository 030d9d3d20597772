/** The room's shared piece list: bags of seven kinds, consumed by every player at their own
    pace. */
module PieceBag {
  import opened Tetromino

  const BAG_SIZE: nat := 7

  /** A shuffle of the seven kinds. */
  predicate IsBag(bag: seq<Kind>) {
    |bag| == BAG_SIZE && forall k: Kind :: k in bag
  }

  /** The list is a concatenation of bags. */
  predicate IsBagged(list: seq<Kind>) {
    |list| % BAG_SIZE == 0 &&
    forall n :: 0 <= n < |list| && n % BAG_SIZE == 0 ==> IsBag(Bag(list, n))
  }

  function Bag(list: seq<Kind>, n: nat): seq<Kind>
    requires n < |list| && n % BAG_SIZE == 0 && |list| % BAG_SIZE == 0
  {
    BagEndsInside(|list|, n);
    list[n..n + BAG_SIZE]
  }

  lemma BagEndsInside(length: nat, n: nat)
    requires n < length && n % BAG_SIZE == 0 && length % BAG_SIZE == 0
    ensures n + BAG_SIZE <= length
  {
    assert n == BAG_SIZE * (n / BAG_SIZE) && length == BAG_SIZE * (length / BAG_SIZE);
  }

  lemma BaggedAppend(list: seq<Kind>, bag: seq<Kind>)
    requires IsBagged(list) && IsBag(bag)
    ensures IsBagged(list + bag)
  {
    var all := list + bag;
    forall n | 0 <= n < |all| && n % BAG_SIZE == 0
      ensures IsBag(Bag(all, n))
    {
      if n < |list| {
        BagEndsInside(|list|, n);
        assert Bag(all, n) == Bag(list, n);
      } else {
        BagEndsInside(|all|, n);
        assert Bag(all, n) == bag;
      }
    }
  }

  /** Two consecutive occurrences of a kind are at most 13 positions apart: the bag after the
      one that holds the first occurrence holds the kind again. */
  lemma KindReturnsSoon(list: seq<Kind>, p: nat, q: nat)
    requires IsBagged(list) && p < q < |list| && list[p] == list[q]
    requires forall m :: p < m < q ==> list[m] != list[p]
    ensures q - p <= 13
  {
    var next := p - p % BAG_SIZE + BAG_SIZE;
    assert next == BAG_SIZE * (p / BAG_SIZE + 1);
    if next <= q {
      assert IsBag(Bag(list, next)) && list[p] in Bag(list, next);
      BagEndsInside(|list|, next);
      var j :| 0 <= j < BAG_SIZE && Bag(list, next)[j] == list[p];
      assert list[next + j] == list[p];
    }
  }

  // ---------- Games as sequences of spawns ----------

  /** A spawn of player `p`; `bag` is used if the list has to be extended. */
  datatype Deal = Deal(p: nat, bag: seq<Kind>)

  datatype Shared = Shared(list: seq<Kind>, indices: seq<nat>)

  function Dealt(s: Shared, d: Deal): Shared
    requires d.p < |s.indices|
  {
    var list := if s.indices[d.p] == |s.list| - 2 then s.list + d.bag else s.list;
    Shared(list, s.indices[d.p := s.indices[d.p] + 1])
  }

  function AfterDeals(s: Shared, deals: seq<Deal>): (s': Shared)
    requires forall k :: 0 <= k < |deals| ==> deals[k].p < |s.indices|
    decreases |deals|
  {
    if deals == [] then s else AfterDeals(Dealt(s, deals[0]), deals[1..])
  }

  /** The kinds player `p` is dealt by the spawns of a game. */
  function DealtTo(s: Shared, deals: seq<Deal>, p: nat): seq<Kind>
    requires InRange(s) && forall k :: 0 <= k < |deals| ==> deals[k].p < |s.indices| && IsBag(deals[k].bag)
    decreases |deals|
  {
    if deals == [] then []
    else
      var s' := Dealt(s, deals[0]);
      DealtInRange(s, deals[0]);
      (if deals[0].p == p then [s'.list[s'.indices[p]]] else []) + DealtTo(s', deals[1..], p)
  }

  ghost predicate InRange(s: Shared) {
    IsBagged(s.list) && forall p :: 0 <= p < |s.indices| ==> s.indices[p] + 1 < |s.list|
  }

  lemma DealtInRange(s: Shared, d: Deal)
    requires InRange(s) && d.p < |s.indices| && IsBag(d.bag)
    ensures InRange(Dealt(s, d)) && s.list <= Dealt(s, d).list
  {
    BaggedAppend(s.list, d.bag);
  }

  /** Whatever the order in which the players lock their pieces and whatever bags are drawn,
      each player is dealt the final list from the entry after their starting position. */
  lemma {:induction false} EveryPlayerReadsTheList(s: Shared, deals: seq<Deal>, p: nat)
    requires InRange(s) && p < |s.indices|
    requires forall k :: 0 <= k < |deals| ==> deals[k].p < |s.indices| && IsBag(deals[k].bag)
    ensures var s' := AfterDeals(s, deals);
            && InRange(s') && s.list <= s'.list && |s'.indices| == |s.indices|
            && s.indices[p] <= s'.indices[p]
            && DealtTo(s, deals, p) == s'.list[s.indices[p] + 1..s'.indices[p] + 1]
    decreases |deals|
  {
    hide IsBagged, IsBag;
    if deals != [] {
      var s1 := Dealt(s, deals[0]);
      DealtInRange(s, deals[0]);
      EveryPlayerReadsTheList(s1, deals[1..], p);
      var list, last := AfterDeals(s1, deals[1..]).list, AfterDeals(s1, deals[1..]).indices[p];
      if deals[0].p == p {
        DealtPosition(s1, list, p);
        SliceStep(list, s1.indices[p], last + 1);
      }
    } else {
      assert s.list[s.indices[p] + 1..s.indices[p] + 1] == [];
    }
  }

  lemma DealtPosition(s: Shared, list: seq<Kind>, p: nat)
    requires InRange(s) && p < |s.indices| && s.list <= list
    ensures s.indices[p] < |list| && list[s.indices[p]] == s.list[s.indices[p]]
  {
  }

  lemma SliceStep(list: seq<Kind>, i: nat, j: nat)
    requires i < j <= |list|
    ensures list[i..j] == [list[i]] + list[i + 1..j]
  {
  }

  /** The list is no longer than the player who is furthest needs: one bag to begin with, and
      then never more than seven entries behind that player's next kind. */
  ghost predicate IsTight(s: Shared) {
    |s.list| <= BAG_SIZE || exists p :: 0 <= p < |s.indices| && |s.list| <= s.indices[p] + 1 + BAG_SIZE
  }

  /** No bag is drawn before somebody has reached the last kind but one. */
  lemma {:induction false} NoBagTooEarly(s: Shared, deals: seq<Deal>)
    requires IsTight(s)
    requires forall k :: 0 <= k < |deals| ==> deals[k].p < |s.indices| && IsBag(deals[k].bag)
    ensures IsTight(AfterDeals(s, deals))
    decreases |deals|
  {
    if deals != [] {
      var (s1, p) := (Dealt(s, deals[0]), deals[0].p);
      if s.indices[p] == |s.list| - 2 {
        assert |s1.list| <= s1.indices[p] + 1 + BAG_SIZE;
      } else if |s.list| > BAG_SIZE {
        var q :| 0 <= q < |s.indices| && |s.list| <= s.indices[q] + 1 + BAG_SIZE;
        assert |s1.list| <= s1.indices[q] + 1 + BAG_SIZE;
      }
      NoBagTooEarly(s1, deals[1..]);
    }
  }

  // ---------- The room's list ----------

  class SpawnList {
    /** The shared list, and every player's position in it. */
    var list: seq<Kind>
    var indices: seq<nat>

    /** Every player's current and next kind are in the list. */
    ghost predicate Valid()
      reads this
    {
      InRange(View())
    }

    function View(): Shared
      reads this
    {
      Shared(list, indices)
    }

    /** Start of a game for `players` players. */
    constructor (players: nat, bag: seq<Kind>)
      requires IsBag(bag)
      ensures Valid() && View() == Shared(bag, seq(players, _ => 0))
    {
      assert IsBagged([]);
      BaggedAppend([], bag);
      assert [] + bag == bag;
      list := bag;
      indices := seq(players, _ => 0);
    }

    method AppendTetromino7Bag(bag: seq<Kind>)
      requires Valid() && IsBag(bag)
      modifies this`list
      ensures Valid() && list == old(list) + bag
    {
      BaggedAppend(list, bag);
      list := list + bag;
    }

    /** A player's spawn task: the bag is extended when the player has reached the last entry
        but one, the player moves on, and current and next kind are read. */
    method Spawn(p: nat, bag: seq<Kind>) returns (kind: Kind, next: Kind)
      requires Valid() && p < |indices| && IsBag(bag)
      modifies this
      ensures Valid() && View() == Dealt(old(View()), Deal(p, bag))
      ensures kind == list[indices[p]] && next == list[indices[p] + 1]
    {
      if indices[p] == |list| - 2 {
        AppendTetromino7Bag(bag);
      }
      indices := indices[p := indices[p] + 1];
      kind := list[indices[p]];
      next := list[indices[p] + 1];
    }
  }
}
