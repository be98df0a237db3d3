/** The feed page: a composer box and the list of posts, newest first. */
module Home {
  import opened Optional
  import opened Text

  datatype Author = Author(name: string, username: string, avatar: Option<string>)

  /** One entry of `posts`, with the props it hands to its card. */
  datatype FeedPost = FeedPost(
    id: string, author: Author, content: string, image: Option<string>,
    timestamp: string, likes: int, comments: int, shares: int)

  /** The avatar of the viewer's own posts. */
  const ViewerAvatar := "https://images.unsplash.com/photo-1472099645785-5658abf4ff4e?w=150"

  /** The three mock posts the feed starts with. */
  const SeedPosts: seq<FeedPost> := [
    FeedPost("1",
      Author("Sarah Johnson", "sarahj", Some("https://images.unsplash.com/photo-1494790108755-2616b612b287?w=150")),
      "Just finished an amazing workout session! Feeling energized and ready to tackle the day. \U{1F4AA} #fitness #motivation",
      Some("https://images.unsplash.com/photo-1571019613454-1cb2f99b2d8b?w=500"), "2h", 24, 8, 3),
    FeedPost("2",
      Author("Alex Chen", "alexc", Some("https://images.unsplash.com/photo-1507003211169-0a1dd7228f2d?w=150")),
      "Beautiful sunset from my balcony tonight. Sometimes you just need to pause and appreciate the simple things in life. \U{1F305}",
      Some("https://images.unsplash.com/photo-1506905925346-21bda4d32df4?w=500"), "4h", 42, 12, 7),
    FeedPost("3",
      Author("Emma Davis", "emmad", Some("https://images.unsplash.com/photo-1438761681033-6461ffad8d80?w=150")),
      "Coffee and code - the perfect combination for a productive morning! \U{2615}\U{FE0F}\U{1F469}\U{200D}\U{1F4BB} Working on something exciting that I can't wait to share.",
      None, "6h", 18, 5, 2)
  ]

  /** The cells `posts` and `newPost`. */
  datatype Composer = Composer(posts: seq<FeedPost>, newPost: string)

  /** The post `handlePost` builds: the viewer's, just now, with no reactions yet. */
  function ViewerPost(id: string, text: string): FeedPost {
    FeedPost(id, Author("You", "you", Some(ViewerAvatar)), text, None, "now", 0, 0, 0)
  }

  /** `handlePost`: unless the text trims to nothing, put it in front of the feed and clear the box. */
  function Publish(c: Composer, id: string): Composer {
    if Trim(c.newPost) != "" then Composer([ViewerPost(id, c.newPost)] + c.posts, "") else c
  }

  /** Blank or whitespace-only text changes neither the feed nor the box. */
  lemma PublishBlank(c: Composer, id: string)
    requires IsBlank(c.newPost)
    ensures Publish(c, id) == c
  {
    TrimEmptyIffBlank(c.newPost);
  }

  /**
   * Other text adds exactly one post, in front, with the text as typed and zero counts,
   * followed by the old feed in its order; the box is cleared.
   */
  lemma PublishNonBlank(c: Composer, id: string)
    requires !IsBlank(c.newPost)
    ensures |Publish(c, id).posts| == |c.posts| + 1
    ensures Publish(c, id).posts[0] == ViewerPost(id, c.newPost)
    ensures Publish(c, id).posts[1..] == c.posts
    ensures Publish(c, id).posts[0].content == c.newPost
    ensures Publish(c, id).posts[0].author == Author("You", "you", Some(ViewerAvatar))
    ensures var p := Publish(c, id).posts[0]; p.likes == 0 && p.comments == 0 && p.shares == 0 && p.timestamp == "now"
    ensures Publish(c, id).newPost == ""
  {
    TrimEmptyIffBlank(c.newPost);
  }

  /** The feed page's state. */
  class HomeFeed {
    var posts: seq<FeedPost>
    var newPost: string

    function State(): Composer
      reads this
    {
      Composer(posts, newPost)
    }

    constructor ()
      ensures State() == Composer(SeedPosts, "")
    {
      posts := SeedPosts;
      newPost := "";
    }

    /** Typing in the composer. */
    method SetNewPost(text: string)
      modifies this
      ensures State() == Composer(old(posts), text)
    {
      newPost := text;
    }

    /** `handlePost`, with the clock reading `id` given. */
    method HandlePost(id: string)
      modifies this
      ensures State() == Publish(old(State()), id)
      ensures IsBlank(old(newPost)) ==> posts == old(posts) && newPost == old(newPost)
      ensures !IsBlank(old(newPost)) ==> posts == [ViewerPost(id, old(newPost))] + old(posts) && newPost == ""
    {
      TrimEmptyIffBlank(newPost);
      if Trim(newPost) != "" {
        posts := [ViewerPost(id, newPost)] + posts;
        newPost := "";
      }
    }
  }
}
