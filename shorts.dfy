/** The shorts feed's like map: one flag per short id, toggled by the
    heart button, whose click does not reach the card underneath. */
module Shorts {

  /** `liked[id]`, an absent id reading as not liked. */
  predicate IsLiked(liked: map<string, bool>, id: string) {
    id in liked && liked[id]
  }

  /** What a click on a card lands on. */
  datatype ClickTarget = Card(id: string) | LikeButton(id: string)

  class Feed {
    var liked: map<string, bool>
    /** The ids `handleShortClick` was called with, in order (it only
        logs them). */
    var viewed: seq<string>

    constructor ()
      ensures liked == map[] && viewed == []
    {
      liked := map[];
      viewed := [];
    }

    /** `handleLike`: flip the flag of `id`, leave every other entry. */
    method HandleLike(id: string)
      modifies this`liked
      ensures liked.Keys == old(liked).Keys + {id}
      ensures IsLiked(liked, id) == !IsLiked(old(liked), id)
      ensures forall k :: k in old(liked) && k != id ==> k in liked && liked[k] == old(liked)[k]
    {
      liked := liked[id := !IsLiked(liked, id)];
    }

    /** `handleShortClick`: nothing but the log. */
    method HandleShortClick(id: string)
      modifies this`viewed
      ensures viewed == old(viewed) + [id]
    {
      viewed := viewed + [id];
    }

    /** A click: the heart's handler stops propagation, so only one of the
        two handlers runs. */
    method Click(target: ClickTarget)
      modifies this`liked, this`viewed
      ensures target.Card? ==> liked == old(liked) && viewed == old(viewed) + [target.id]
      ensures target.LikeButton? ==>
        && viewed == old(viewed)
        && liked == old(liked)[target.id := !IsLiked(old(liked), target.id)]
    {
      match target {
        case Card(id) => HandleShortClick(id);
        case LikeButton(id) => HandleLike(id);
      }
    }
  }

  /** Liking twice restores every flag as shown, though an id first absent
      is now present with `false`. */
  lemma LikeTwiceRestoresFlags(liked: map<string, bool>, id: string)
    ensures var twice := liked[id := !IsLiked(liked, id)][id := !IsLiked(liked[id := !IsLiked(liked, id)], id)];
      && (forall k :: IsLiked(twice, k) == IsLiked(liked, k))
      && twice.Keys == liked.Keys + {id}
  {
  }
}
