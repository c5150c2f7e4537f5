/** The global card store: one ordered list of story cards, an append and a removal by id. */
module StoryboardStore {
  import opened Wrappers
  import opened Seqs

  type Id = string

  /** A card of the store; a card without an image has `imageUrl == None` (`null`). */
  datatype StoryCard = StoryCard(id: Id, text: string, imageUrl: Option<string>)

  /** Some card of `cards` carries `id`. */
  predicate HasId(cards: seq<StoryCard>, id: Id)
  {
    exists k :: 0 <= k < |cards| && cards[k].id == id
  }

  /** No two cards share an id. */
  predicate DistinctIds(cards: seq<StoryCard>)
  {
    forall j, k :: 0 <= j < k < |cards| ==> cards[j].id != cards[k].id
  }

  /** The filter predicate of `removeCard(id)`: the card's id differs from `id`. */
  function Keep(id: Id): (p: StoryCard -> bool)
    ensures forall c :: p(c) <==> c.id != id
  {
    (c: StoryCard) => c.id != id
  }

  /** The list `removeCard(id)` leaves: every card whose id differs, in the original order. */
  function Without(cards: seq<StoryCard>, id: Id): (r: seq<StoryCard>)
    ensures forall c :: c in r <==> c in cards && c.id != id
    ensures !HasId(r, id)
  {
    var r := Filter(cards, Keep(id));
    assert forall k :: 0 <= k < |r| ==> r[k] in r;
    r
  }

  /** Removing an id that no card carries leaves the list as it was. */
  lemma WithoutAbsent(cards: seq<StoryCard>, id: Id)
    requires !HasId(cards, id)
    ensures Without(cards, id) == cards
  {
    forall c | c in cards ensures c.id != id {
      var k :| 0 <= k < |cards| && cards[k] == c;
    }
    FilterAll(cards, Keep(id));
  }

  /** Removing twice is removing once. */
  lemma WithoutIdempotent(cards: seq<StoryCard>, id: Id)
    ensures Without(Without(cards, id), id) == Without(cards, id)
  {
    FilterIdempotent(cards, Keep(id));
  }

  /** The cards that remain keep their relative order. */
  lemma WithoutKeepsOrder(cards: seq<StoryCard>, id: Id, i: int, j: int)
    requires 0 <= i < j < |cards| && cards[i].id != id && cards[j].id != id
    ensures exists i', j' ::
              0 <= i' < j' < |Without(cards, id)| &&
              Without(cards, id)[i'] == cards[i] && Without(cards, id)[j'] == cards[j]
  {
    FilterKeepsOrder(cards, Keep(id), i, j);
    var r := Without(cards, id);
    assert r == Filter(cards, Keep(id));
    var i', j' :| 0 <= i' < j' < |r| && r[i'] == cards[i] && r[j'] == cards[j];
  }

  /** Removing the id of a card that no other card carries leaves the cards around it. */
  lemma WithoutSplit(front: seq<StoryCard>, card: StoryCard, back: seq<StoryCard>)
    requires !HasId(front, card.id) && !HasId(back, card.id)
    ensures Without(front + [card] + back, card.id) == front + back
  {
    var p := Keep(card.id);
    assert Filter([card], p) == [] by {
      assert !p(card) && [card][1..] == [];
    }
    WithoutAbsent(front, card.id);
    WithoutAbsent(back, card.id);
    FilterConcat(front + [card], back, p);
    FilterConcat(front, [card], p);
    assert Filter(front + [card], p) == front;
    assert Filter(front + [card] + back, p) == front + back;
  }

  /** When ids are distinct, removing the id of the card at index `k` removes exactly that card. */
  lemma WithoutUnique(cards: seq<StoryCard>, k: int)
    requires DistinctIds(cards) && 0 <= k < |cards|
    ensures Without(cards, cards[k].id) == cards[..k] + cards[k + 1..]
  {
    var id := cards[k].id;
    var front, back := cards[..k], cards[k + 1..];
    assert cards == front + [cards[k]] + back;
    assert !HasId(front, id) by {
      forall m | 0 <= m < |front| ensures front[m].id != id {
        assert front[m] == cards[m];
      }
    }
    assert !HasId(back, id) by {
      forall m | 0 <= m < |back| ensures back[m].id != id {
        assert back[m] == cards[k + 1 + m];
      }
    }
    WithoutSplit(front, cards[k], back);
  }

  /** Appending a card whose id is not yet used keeps the ids distinct. */
  lemma AppendFreshKeepsDistinct(cards: seq<StoryCard>, card: StoryCard)
    requires DistinctIds(cards) && !HasId(cards, card.id)
    ensures DistinctIds(cards + [card])
  {
  }

  /** A card whose id no card of `cards` carries can be put in front without a clash. */
  lemma PrependFreshKeepsDistinct(card: StoryCard, cards: seq<StoryCard>)
    requires DistinctIds(cards) && !HasId(cards, card.id)
    ensures DistinctIds([card] + cards)
  {
  }

  /** Removal never makes two cards share an id. */
  lemma {:induction false} WithoutKeepsDistinct(cards: seq<StoryCard>, id: Id)
    requires DistinctIds(cards)
    ensures DistinctIds(Without(cards, id))
  {
    if cards != [] {
      var tail := cards[1..];
      assert DistinctIds(tail) by {
        forall j, k | 0 <= j < k < |tail| ensures tail[j].id != tail[k].id {
          assert tail[j] == cards[j + 1] && tail[k] == cards[k + 1];
        }
      }
      WithoutKeepsDistinct(tail, id);
      var rest := Without(tail, id);
      assert Filter(cards, Keep(id)) == (if cards[0].id != id then [cards[0]] else []) + rest;
      if cards[0].id != id {
        assert !HasId(rest, cards[0].id) by {
          forall m | 0 <= m < |rest| ensures rest[m].id != cards[0].id {
            assert rest[m] in tail;
            var t :| 0 <= t < |tail| && tail[t] == rest[m];
            assert tail[t] == cards[t + 1];
          }
        }
        PrependFreshKeepsDistinct(cards[0], rest);
      } else {
        assert [] + rest == rest;
      }
    }
  }

  /** Adding a card with a fresh id and then removing that id restores the list. */
  lemma AddThenRemove(cards: seq<StoryCard>, card: StoryCard)
    requires !HasId(cards, card.id)
    ensures Without(cards + [card], card.id) == cards
  {
    var p := Keep(card.id);
    FilterConcat(cards, [card], p);
    assert [card][1..] == [];
    assert Filter([card], p) == [];
    WithoutAbsent(cards, card.id);
  }

  /** The store (`useStoryboardStore`): its only state is the ordered card list. */
  class Store {
    var cards: seq<StoryCard>

    /** The store starts with no cards. */
    constructor ()
      ensures cards == []
    {
      cards := [];
    }

    /** `addCard`: appends a card with id `freshId` (the value `crypto.randomUUID()` would produce),
        text "Text" and no image. */
    method AddCard(freshId: Id)
      modifies this
      ensures cards == old(cards) + [StoryCard(freshId, "Text", None)]
      ensures |cards| == |old(cards)| + 1 && cards[..|old(cards)|] == old(cards)
      ensures DistinctIds(old(cards)) && !HasId(old(cards), freshId) ==> DistinctIds(cards)
    {
      var card := StoryCard(freshId, "Text", None);
      if DistinctIds(cards) && !HasId(cards, freshId) {
        AppendFreshKeepsDistinct(cards, card);
      }
      cards := cards + [card];
    }

    /** `removeCard(id)`: drops every card carrying `id`, keeping the others in order. */
    method RemoveCard(id: Id)
      modifies this
      ensures cards == Without(old(cards), id)
      ensures !HasId(cards, id)
      ensures DistinctIds(old(cards)) ==> DistinctIds(cards)
    {
      if DistinctIds(cards) {
        WithoutKeepsDistinct(cards, id);
      }
      cards := Without(cards, id);
    }
  }
}
