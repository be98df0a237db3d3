/**
 * The interactive post card: the viewer's reaction and the like counter it drives, the
 * floating emojis each reaction spawns and a timer later removes, and the locally owned
 * comment thread with its input box.
 */
module AnimatedPost {
  import opened Optional
  import opened Lists
  import opened Text

  // ---------------------------------------------------------------------------
  // The reaction table
  // ---------------------------------------------------------------------------

  /** One row of the reaction table: its name and the emoji that floats up when it is chosen. */
  datatype ReactionKind = ReactionKind(name: string, emoji: string)

  /** The five reactions the picker offers, in picker order. */
  const ReactionTable: seq<ReactionKind> := [
    ReactionKind("love", "\U{2764}\U{FE0F}"),  // red heart
    ReactionKind("like", "\U{1F44D}"),         // thumbs up
    ReactionKind("laugh", "\U{1F602}"),        // face with tears of joy
    ReactionKind("angry", "\U{1F620}"),        // angry face
    ReactionKind("sad", "\U{1F622}")           // crying face
  ]

  /** `table.find(r => r.name === name)`: the first row carrying `name`, if any. */
  function FindIn(table: seq<ReactionKind>, name: string): (r: Option<ReactionKind>)
    ensures r.Some? ==> r.value in table && r.value.name == name
    ensures r.None? <==> forall i :: 0 <= i < |table| ==> table[i].name != name
  {
    if table == [] then None
    else if table[0].name == name then Some(table[0])
    else FindIn(table[1..], name)
  }

  /** `find` returns the first row carrying the name. */
  lemma {:induction false} FindInFirst(table: seq<ReactionKind>, name: string, i: nat)
    requires i < |table| && table[i].name == name
    requires forall j :: 0 <= j < i ==> table[j].name != name
    ensures FindIn(table, name) == Some(table[i])
  {
    if i > 0 {
      FindInFirst(table[1..], name, i - 1);
    }
  }

  /** The lookup `handleReaction` does in the reaction table. */
  function FindReaction(name: string): Option<ReactionKind> {
    FindIn(ReactionTable, name)
  }

  /** No two rows of the table share a name. */
  lemma ReactionNamesDistinct()
    ensures forall i, j :: 0 <= i < j < |ReactionTable| ==> ReactionTable[i].name != ReactionTable[j].name
  {
  }

  /** Each name in the table finds its own row. */
  lemma FindReactionAt(i: nat)
    requires i < |ReactionTable|
    ensures FindReaction(ReactionTable[i].name) == Some(ReactionTable[i])
  {
    ReactionNamesDistinct();
    var r := FindReaction(ReactionTable[i].name);
    var j :| 0 <= j < |ReactionTable| && ReactionTable[j] == r.value;
    assert i == j;
  }

  // ---------------------------------------------------------------------------
  // The reaction state machine
  // ---------------------------------------------------------------------------

  /** The cells `userReaction` (null or a reaction name) and `likeCount`. */
  datatype ReactionState = ReactionState(userReaction: Option<string>, likeCount: int)

  /**
   * What `handleReaction(name)` does to the two cells: choosing the active reaction clears it,
   * anything else becomes the reaction; the counter moves only between "no reaction" and
   * "some reaction", so switching from one reaction to another leaves it alone.
   */
  function Select(s: ReactionState, name: string): ReactionState {
    var same := s.userReaction == Some(name);
    ReactionState(
      if same then None else Some(name),
      if s.userReaction.None? && !same then s.likeCount + 1
      else if s.userReaction.Some? && same then s.likeCount - 1
      else s.likeCount)
  }

  /** The counter is the seeded `likes` plus one exactly when a reaction is set. */
  ghost predicate Consistent(likes: int, s: ReactionState) {
    s.likeCount == likes + (if s.userReaction.Some? then 1 else 0)
  }

  /** From no reaction, choosing `name` sets it and adds one like. */
  lemma SelectFromNone(s: ReactionState, name: string)
    requires s.userReaction == None
    ensures Select(s, name) == ReactionState(Some(name), s.likeCount + 1)
  {
  }

  /** Choosing the active reaction clears it and takes one like away. */
  lemma SelectActive(s: ReactionState, name: string)
    requires s.userReaction == Some(name)
    ensures Select(s, name) == ReactionState(None, s.likeCount - 1)
  {
  }

  /** Choosing a different reaction while one is set switches it and keeps the counter. */
  lemma SelectOther(s: ReactionState, name: string)
    requires s.userReaction.Some? && s.userReaction != Some(name)
    ensures Select(s, name) == ReactionState(Some(name), s.likeCount)
  {
  }

  /** Choosing the same reaction twice from no reaction restores the state exactly. */
  lemma SelectTwiceRestores(s: ReactionState, name: string)
    requires s.userReaction == None
    ensures Select(Select(s, name), name) == s
  {
  }

  /** The state after the picker is used for each name of `names` in turn. */
  function SelectAll(s: ReactionState, names: seq<string>): ReactionState
    decreases |names|
  {
    if names == [] then s else SelectAll(Select(s, names[0]), names[1..])
  }

  /** One selection keeps the counter consistent with the reaction. */
  lemma SelectConsistent(likes: int, s: ReactionState, name: string)
    requires Consistent(likes, s)
    ensures Consistent(likes, Select(s, name))
  {
  }

  /** However many selections are made, the counter stays consistent with the reaction. */
  lemma {:induction false} SelectAllConsistent(likes: int, s: ReactionState, names: seq<string>)
    requires Consistent(likes, s)
    ensures Consistent(likes, SelectAll(s, names))
    decreases |names|
  {
    if names != [] {
      SelectConsistent(likes, s, names[0]);
      SelectAllConsistent(likes, Select(s, names[0]), names[1..]);
    }
  }

  /** JavaScript truthiness of the `userReaction` cell: null and the empty name are falsy. */
  predicate IsTruthy(r: Option<string>) {
    r.Some? && r.value != ""
  }

  /**
   * What the main heart button does to the two cells: with no reaction it chooses "love",
   * otherwise it clears the reaction and leaves the counter as it is.
   */
  function HeartClick(s: ReactionState): ReactionState {
    if !IsTruthy(s.userReaction) then Select(s, "love") else s.(userReaction := None)
  }

  /** With no reaction, the heart button is the same as choosing "love". */
  lemma HeartWithoutReaction(s: ReactionState)
    requires s.userReaction == None
    ensures HeartClick(s) == Select(s, "love")
    ensures HeartClick(s) == ReactionState(Some("love"), s.likeCount + 1)
  {
  }

  /**
   * With a reaction set, the heart button clears it without touching the counter, so a
   * consistent state becomes inconsistent: the like that was added is never taken back.
   */
  lemma HeartClearsWithoutDecrement(likes: int, s: ReactionState)
    requires IsTruthy(s.userReaction) && Consistent(likes, s)
    ensures HeartClick(s) == ReactionState(None, s.likeCount)
    ensures !Consistent(likes, HeartClick(s))
    ensures HeartClick(s).likeCount == likes + 1
  {
  }

  /** Choose "love" and then click the heart: the reaction is gone but the like stays. */
  lemma LoveThenHeartKeepsTheLike(likes: int)
    ensures HeartClick(Select(ReactionState(None, likes), "love")) == ReactionState(None, likes + 1)
  {
    assert IsTruthy(Some("love"));
  }

  /**
   * A post seeded with 24 likes: "love" gives 25, "love" again gives 24, then "like" gives
   * 25 again, because after the toggle-off no reaction is set.
   */
  lemma SeededPostScenario()
    ensures var s0 := ReactionState(None, 24);
      Select(s0, "love") == ReactionState(Some("love"), 25)
      && Select(Select(s0, "love"), "love") == ReactionState(None, 24)
      && Select(Select(Select(s0, "love"), "love"), "like") == ReactionState(Some("like"), 25)
      && Select(Select(s0, "love"), "like") == ReactionState(Some("like"), 25)
  {
  }

  // ---------------------------------------------------------------------------
  // Floating emojis
  // ---------------------------------------------------------------------------

  /** One floating-emoji entry; `x` and `y` are the random percentages it is drawn at. */
  datatype FloatingEmoji = FloatingEmoji(id: string, emoji: string, x: real, y: real)

  /** The entry list after `handleReaction(name)`: one more entry at the end if `name` is in the table. */
  function Emit(list: seq<FloatingEmoji>, name: string, id: string, x: real, y: real): seq<FloatingEmoji> {
    match FindReaction(name)
    case Some(k) => list + [FloatingEmoji(id, k.emoji, x, y)]
    case None => list
  }

  /** The timer callback's filter: every entry with identity `id` goes, the rest stay in order. */
  function Expire(list: seq<FloatingEmoji>, id: string): (r: seq<FloatingEmoji>)
    ensures forall e :: e in r <==> e in list && e.id != id
    ensures |r| <= |list|
  {
    Filter((e: FloatingEmoji) => e.id != id, list)
  }

  /** A table reaction appends exactly one entry carrying its emoji, whether it sets or clears. */
  lemma EmitTableReaction(list: seq<FloatingEmoji>, i: nat, id: string, x: real, y: real)
    requires i < |ReactionTable|
    ensures Emit(list, ReactionTable[i].name, id, x, y) == list + [FloatingEmoji(id, ReactionTable[i].emoji, x, y)]
    ensures |Emit(list, ReactionTable[i].name, id, x, y)| == |list| + 1
  {
    FindReactionAt(i);
  }

  /** A name outside the table spawns nothing. */
  lemma EmitUnknownName(list: seq<FloatingEmoji>, name: string, id: string, x: real, y: real)
    requires forall i :: 0 <= i < |ReactionTable| ==> ReactionTable[i].name != name
    ensures Emit(list, name, id, x, y) == list
  {
  }

  /** Expiry keeps the other entries in their order and with their multiplicities. */
  lemma ExpireKeepsOthers(list: seq<FloatingEmoji>, id: string)
    ensures IsSubsequence(Expire(list, id), list)
    ensures forall e :: multiset(Expire(list, id))[e] == if e.id != id then multiset(list)[e] else 0
  {
    var p := (e: FloatingEmoji) => e.id != id;
    FilterSubsequence(p, list);
    forall e ensures multiset(Expire(list, id))[e] == if e.id != id then multiset(list)[e] else 0 {
      FilterCount(p, list, e);
    }
  }

  /** Expiring the same identity twice is the same as expiring it once. */
  lemma ExpireIdempotent(list: seq<FloatingEmoji>, id: string)
    ensures Expire(Expire(list, id), id) == Expire(list, id)
  {
    FilterIdempotent((e: FloatingEmoji) => e.id != id, list);
  }

  /** Once its own timer fires, a freshly emitted entry is gone, with everything else of that identity. */
  lemma ExpireOwnEntry(list: seq<FloatingEmoji>, name: string, id: string, x: real, y: real)
    ensures Expire(Emit(list, name, id, x, y), id) == Expire(list, id)
  {
    var p := (e: FloatingEmoji) => e.id != id;
    match FindReaction(name)
    case Some(k) =>
      var e := FloatingEmoji(id, k.emoji, x, y);
      FilterAppend(p, list, [e]);
      assert Filter(p, [e]) == [];
    case None =>
  }

  /** Another entry's timer leaves a freshly emitted entry in place, at the end. */
  lemma ExpireOtherEntry(list: seq<FloatingEmoji>, i: nat, id: string, x: real, y: real, other: string)
    requires i < |ReactionTable| && other != id
    ensures Expire(Emit(list, ReactionTable[i].name, id, x, y), other)
         == Expire(list, other) + [FloatingEmoji(id, ReactionTable[i].emoji, x, y)]
  {
    var e := FloatingEmoji(id, ReactionTable[i].emoji, x, y);
    var p := (f: FloatingEmoji) => f.id != other;
    EmitTableReaction(list, i, id, x, y);
    FilterAppend(p, list, [e]);
    assert Filter(p, [e]) == [e];
  }

  // ---------------------------------------------------------------------------
  // The comment thread
  // ---------------------------------------------------------------------------

  datatype Comment = Comment(id: string, author: string, content: string, avatar: string, timestamp: string)

  /** The avatar the viewer's own comments carry. */
  const ViewerAvatar := "https://images.unsplash.com/photo-1472099645785-5658abf4ff4e?w=150"

  /** The two mock comments every card starts with. */
  const SeedComments: seq<Comment> := [
    Comment("1", "Emma Wilson", "Amazing! Keep it up! \U{1F4AA}",
            "https://images.unsplash.com/photo-1438761681033-6461ffad8d80?w=150", "2m"),
    Comment("2", "John Smith", "This is so inspiring! Thanks for sharing.",
            "https://images.unsplash.com/photo-1472099645785-5658abf4ff4e?w=150", "5m")
  ]

  /** The cells `postComments` (newest first) and `newComment`. */
  datatype CommentBox = CommentBox(thread: seq<Comment>, input: string)

  /** The comment `handleAddComment` builds from the input. */
  function ViewerComment(id: string, text: string): Comment {
    Comment(id, "You", text, ViewerAvatar, "now")
  }

  /** `handleAddComment`: unless the input trims to nothing, prepend it as the viewer's comment and clear the box. */
  function AddComment(b: CommentBox, id: string): CommentBox {
    if Trim(b.input) != "" then CommentBox([ViewerComment(id, b.input)] + b.thread, "") else b
  }

  /** The number the comment button shows: the seeded comment count plus the local thread. */
  function DisplayedCommentCount(comments: int, thread: seq<Comment>): int {
    comments + |thread|
  }

  /** Blank or whitespace-only input changes neither the thread nor the input. */
  lemma AddBlankComment(b: CommentBox, id: string)
    requires IsBlank(b.input)
    ensures AddComment(b, id) == b
  {
    TrimEmptyIffBlank(b.input);
  }

  /** Other input goes in front, untrimmed, as the viewer's comment; the old thread follows; the box is cleared. */
  lemma AddNonBlankComment(b: CommentBox, id: string)
    requires !IsBlank(b.input)
    ensures AddComment(b, id).thread == [ViewerComment(id, b.input)] + b.thread
    ensures AddComment(b, id).thread[1..] == b.thread
    ensures AddComment(b, id).thread[0].author == "You" && AddComment(b, id).thread[0].timestamp == "now"
    ensures AddComment(b, id).thread[0].content == b.input
    ensures AddComment(b, id).input == ""
  {
    TrimEmptyIffBlank(b.input);
  }

  /** Adding a comment raises the displayed count by one exactly when the input is not blank. */
  lemma AddCommentCount(comments: int, b: CommentBox, id: string)
    ensures DisplayedCommentCount(comments, AddComment(b, id).thread)
         == DisplayedCommentCount(comments, b.thread) + (if IsBlank(b.input) then 0 else 1)
  {
    TrimEmptyIffBlank(b.input);
  }

  /** A fresh card already shows two more comments than its `comments` prop: the two mock ones. */
  lemma FreshCardCommentCount(comments: int)
    ensures DisplayedCommentCount(comments, SeedComments) == comments + 2
  {
  }

  /** A post with 8 comments shows 10 at first and 11 after the viewer adds "Nice!". */
  lemma NiceCommentScenario(id: string)
    ensures DisplayedCommentCount(8, SeedComments) == 10
    ensures AddComment(CommentBox(SeedComments, "Nice!"), id)
         == CommentBox([ViewerComment(id, "Nice!")] + SeedComments, "")
    ensures DisplayedCommentCount(8, AddComment(CommentBox(SeedComments, "Nice!"), id).thread) == 11
  {
    assert !IsTrimmable("Nice!"[0]);
    assert Trim("Nice!") != "";
  }

  // ---------------------------------------------------------------------------
  // The component
  // ---------------------------------------------------------------------------

  /** One rendered card: `likes` and `comments` are its props, the variables its state cells. */
  class AnimatedPostCard {
    const likes: int
    const comments: int
    var userReaction: Option<string>
    var likeCount: int
    var showReactions: bool
    var showComments: bool
    var newComment: string
    var postComments: seq<Comment>
    var floatingEmojis: seq<FloatingEmoji>

    /** The reaction cells as one value. */
    function Reaction(): ReactionState
      reads this
    {
      ReactionState(userReaction, likeCount)
    }

    /** The comment cells as one value. */
    function Comments(): CommentBox
      reads this
    {
      CommentBox(postComments, newComment)
    }

    /** The first render: no reaction, the counter at `likes`, two mock comments, nothing floating. */
    constructor (likes: int, comments: int)
      ensures this.likes == likes && this.comments == comments
      ensures Reaction() == ReactionState(None, likes) && Consistent(likes, Reaction())
      ensures !showReactions && !showComments
      ensures Comments() == CommentBox(SeedComments, "")
      ensures floatingEmojis == []
    {
      this.likes := likes;
      this.comments := comments;
      userReaction := None;
      likeCount := likes;
      showReactions := false;
      showComments := false;
      newComment := "";
      postComments := SeedComments;
      floatingEmojis := [];
    }

    /** `handleReaction(name)`, with the clock reading `id` and the random position `(x, y)` given. */
    method HandleReaction(name: string, id: string, x: real, y: real)
      modifies this
      ensures Reaction() == Select(old(Reaction()), name)
      ensures old(Consistent(likes, Reaction())) ==> Consistent(likes, Reaction())
      ensures !showReactions
      ensures floatingEmojis == Emit(old(floatingEmojis), name, id, x, y)
      ensures Comments() == old(Comments()) && showComments == old(showComments)
    {
      UpdateReaction(name);
      showReactions := false;
      SpawnEmoji(name, id, x, y);
    }

    /** The two `setUserReaction`/`setLikeCount` updates of `handleReaction`. */
    method UpdateReaction(name: string)
      modifies this
      ensures Reaction() == Select(old(Reaction()), name)
      ensures old(Consistent(likes, Reaction())) ==> Consistent(likes, Reaction())
      ensures showReactions == old(showReactions) && floatingEmojis == old(floatingEmojis)
      ensures postComments == old(postComments) && newComment == old(newComment)
      ensures showComments == old(showComments)
    {
      var prevReaction := userReaction;
      var same := prevReaction == Some(name);
      userReaction := if same then None else Some(name);
      if prevReaction.None? && !same {
        likeCount := likeCount + 1;
      } else if prevReaction.Some? && same {
        likeCount := likeCount - 1;
      }
    }

    /** The floating-emoji update of `handleReaction`: one entry for a name in the table. */
    method SpawnEmoji(name: string, id: string, x: real, y: real)
      modifies this
      ensures floatingEmojis == Emit(old(floatingEmojis), name, id, x, y)
      ensures userReaction == old(userReaction) && likeCount == old(likeCount)
      ensures showReactions == old(showReactions)
      ensures postComments == old(postComments) && newComment == old(newComment)
      ensures showComments == old(showComments)
    {
      var reaction := FindReaction(name);
      if reaction.Some? {
        floatingEmojis := floatingEmojis + [FloatingEmoji(id, reaction.value.emoji, x, y)];
      }
    }

    /** The main heart button: choose "love" when no reaction is set, otherwise only clear the reaction. */
    method ClickHeart(id: string, x: real, y: real)
      modifies this
      ensures Reaction() == HeartClick(old(Reaction()))
      ensures !IsTruthy(old(userReaction)) ==>
                !showReactions && floatingEmojis == Emit(old(floatingEmojis), "love", id, x, y)
      ensures IsTruthy(old(userReaction)) ==>
                showReactions == old(showReactions) && floatingEmojis == old(floatingEmojis)
      ensures Comments() == old(Comments()) && showComments == old(showComments)
    {
      if !IsTruthy(userReaction) {
        HandleReaction("love", id, x, y);
      } else {
        userReaction := None;
      }
    }

    /** The timer callback for entry `id`, run when it fires. */
    method ExpireEmoji(id: string)
      modifies this
      ensures floatingEmojis == Expire(old(floatingEmojis), id)
      ensures Reaction() == old(Reaction()) && showReactions == old(showReactions)
      ensures Comments() == old(Comments()) && showComments == old(showComments)
    {
      floatingEmojis := Filter((e: FloatingEmoji) => e.id != id, floatingEmojis);
    }

    /** The comment button: show or hide the thread. */
    method ToggleComments()
      modifies this
      ensures showComments == !old(showComments)
      ensures Reaction() == old(Reaction()) && showReactions == old(showReactions)
      ensures Comments() == old(Comments()) && floatingEmojis == old(floatingEmojis)
    {
      showComments := !showComments;
    }

    /** Typing in the comment box. */
    method SetNewComment(text: string)
      modifies this
      ensures Comments() == CommentBox(old(postComments), text)
      ensures Reaction() == old(Reaction()) && showReactions == old(showReactions)
      ensures showComments == old(showComments) && floatingEmojis == old(floatingEmojis)
    {
      newComment := text;
    }

    /** `handleAddComment`, with the clock reading `id` given. */
    method HandleAddComment(id: string)
      modifies this
      ensures Comments() == AddComment(old(Comments()), id)
      ensures Reaction() == old(Reaction()) && showReactions == old(showReactions)
      ensures showComments == old(showComments) && floatingEmojis == old(floatingEmojis)
    {
      if Trim(newComment) != "" {
        postComments := [ViewerComment(id, newComment)] + postComments;
        newComment := "";
      }
    }

    /** A key pressed in the comment box: Enter, with or without Shift, runs `handleAddComment`. */
    method CommentKeyPress(key: string, id: string)
      modifies this
      ensures Comments() == (if key == "Enter" then AddComment(old(Comments()), id) else old(Comments()))
      ensures Reaction() == old(Reaction()) && showReactions == old(showReactions)
      ensures showComments == old(showComments) && floatingEmojis == old(floatingEmojis)
    {
      if key == "Enter" {
        HandleAddComment(id);
      }
    }
  }
}
