/** The plain post card: a heart button that toggles the viewer's like. */
module Post {

  /** The cells `isLiked` and `likeCount`. */
  datatype LikeState = LikeState(isLiked: bool, likeCount: int)

  /** `handleLike`: flip the flag, and move the counter down if it was set, up if it was not. */
  function Toggle(s: LikeState): LikeState {
    LikeState(!s.isLiked, if s.isLiked then s.likeCount - 1 else s.likeCount + 1)
  }

  /** The state after `n` clicks. */
  function ToggleTimes(s: LikeState, n: nat): LikeState
    decreases n
  {
    if n == 0 then s else ToggleTimes(Toggle(s), n - 1)
  }

  /** The counter is the `likes` prop plus one exactly when the post is liked. */
  ghost predicate Consistent(likes: int, s: LikeState) {
    s.likeCount == likes + (if s.isLiked then 1 else 0)
  }

  /** Two clicks in a row restore both cells. */
  lemma ToggleTwice(s: LikeState)
    ensures Toggle(Toggle(s)) == s
  {
  }

  /** After any number of clicks the counter still matches the flag, and never drops below `likes`. */
  lemma {:induction false} ToggleTimesConsistent(likes: int, s: LikeState, n: nat)
    requires Consistent(likes, s)
    ensures Consistent(likes, ToggleTimes(s, n))
    ensures ToggleTimes(s, n).likeCount >= likes
    decreases n
  {
    if n > 0 {
      ToggleTimesConsistent(likes, Toggle(s), n - 1);
    }
  }

  /** After `n` clicks the flag has flipped `n` times: it is back where it was exactly when `n` is even. */
  lemma {:induction false} ToggleTimesParity(s: LikeState, n: nat)
    ensures ToggleTimes(s, n).isLiked == (if n % 2 == 0 then s.isLiked else !s.isLiked)
    decreases n
  {
    if n > 0 {
      ToggleTimesParity(Toggle(s), n - 1);
    }
  }

  /** The rendered card: `likes`, `comments` and `shares` are props, so no click changes them. */
  class PostCard {
    const likes: int
    const comments: int
    const shares: int
    var isLiked: bool
    var likeCount: int

    function State(): LikeState
      reads this
    {
      LikeState(isLiked, likeCount)
    }

    ghost predicate Valid()
      reads this
    {
      Consistent(likes, State())
    }

    constructor (likes: int, comments: int, shares: int)
      ensures this.likes == likes && this.comments == comments && this.shares == shares
      ensures State() == LikeState(false, likes) && Valid()
    {
      this.likes := likes;
      this.comments := comments;
      this.shares := shares;
      isLiked := false;
      likeCount := likes;
    }

    /** `handleLike`. */
    method HandleLike()
      requires Valid()
      modifies this
      ensures Valid()
      ensures State() == Toggle(old(State()))
      ensures isLiked == !old(isLiked) && likeCount >= likes
    {
      var wasLiked := isLiked;
      isLiked := !isLiked;
      likeCount := if wasLiked then likeCount - 1 else likeCount + 1;
    }
  }
}
