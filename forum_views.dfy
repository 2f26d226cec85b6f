/** The forum views (backend/forum/views.py): which posts a user sees,
    liking and unliking a post, counting a new comment, and the hot list. */
module ForumViews {
  import opened Wrappers
  import opened Accounts
  import opened ForumModels
  import opened ForumSerializers

  /** The authors a user has blocked: authors of any post carrying a deny
      rule for them. */
  function BlockedAuthors(posts: seq<Post>, rules: set<Rule>, user: nat): set<nat> {
    set p | p in posts && Rule(p.id, user, Deny) in rules :: p.author
  }

  /** `get_queryset`'s test of one post: its author is not blocked, and it
      is public, private with an allow rule for the user, or the user's. */
  predicate CanSee(posts: seq<Post>, rules: set<Rule>, user: nat, p: Post) {
    p.author !in BlockedAuthors(posts, rules, user) &&
    (p.visibility == Public || (p.visibility == Private && Rule(p.id, user, Allow) in rules) || p.author == user)
  }

  /** The posts of `s` that `keep` holds for, in order. */
  function Filter(s: seq<Post>, keep: Post -> bool): (r: seq<Post>)
    ensures |r| <= |s|
    ensures forall p :: p in r <==> p in s && keep(p)
    decreases |s|
  {
    if |s| == 0 then []
    else
      var rest := Filter(s[1..], keep);
      assert forall p :: p in s[1..] ==> p in s;
      assert forall p :: p in s ==> p == s[0] || p in s[1..];
      if keep(s[0]) then [s[0]] + rest else rest
  }

  function Visible(posts: seq<Post>, rules: set<Rule>, user: nat): seq<Post> {
    Filter(posts, p => CanSee(posts, rules, user, p))
  }

  /** A user sees exactly the posts that pass the test; a deny rule on
      any post of an author hides every post of that author, public or
      the user's own; otherwise the user's own posts and public posts
      are seen. */
  lemma VisibilityRules(posts: seq<Post>, rules: set<Rule>, user: nat, p: Post, q: Post)
    requires p in posts && q in posts
    ensures p in Visible(posts, rules, user) <==> CanSee(posts, rules, user, p)
    ensures Rule(q.id, user, Deny) in rules && p.author == q.author ==> p !in Visible(posts, rules, user)
    ensures p.author !in BlockedAuthors(posts, rules, user) && (p.visibility == Public || p.author == user) ==>
      p in Visible(posts, rules, user)
    ensures p.visibility == Private && p.author != user && Rule(p.id, user, Allow) !in rules ==>
      p !in Visible(posts, rules, user)
  {
    if Rule(q.id, user, Deny) in rules && p.author == q.author {
      assert p.author in BlockedAuthors(posts, rules, user);
    }
  }

  datatype Creation = Refused(detail: string) | Saved(post: Post, aiQueued: bool)

  /** Creating a post: the serializer's check, then `perform_create`, which
      stores the post for the requesting user and queues an AI comment when
      the post allows one. */
  function CreatePost(user: User, form: PostForm, id: nat, now: int): (r: Creation)
    ensures r.Refused? <==> Validate(user, form).Some?
    ensures r.Refused? ==> r.detail == NO_ANONYMOUS_STAFF
    ensures r.Saved? ==> r.post == NewPost(id, user.id, form, now)
    ensures r.Saved? ==> (r.aiQueued <==> form.allowAiComments == Some(true))
    ensures r.Saved? && MayNotPostAnonymously(user) ==> !r.post.isAnonymous
  {
    match Validate(user, form)
    case Some(detail) => Refused(detail)
    case None =>
      var post := NewPost(id, user.id, form, now);
      ValidateRules(user, form, id, now);
      Saved(post, post.allowAiComments)
  }

  /** A post row's counters and its likes, as `like`, `unlike` and the
      comment view update them. */
  class PostRow {
    var likers: set<nat>
    var likeCount: int
    var commentCount: int

    /** The like counter agrees with the like rows. */
    ghost predicate Valid()
      reads this
    {
      likeCount == |likers|
    }

    constructor (likers: set<nat>, likeCount: int, commentCount: int)
      ensures this.likers == likers && this.likeCount == likeCount && this.commentCount == commentCount
    {
      this.likers := likers;
      this.likeCount := likeCount;
      this.commentCount := commentCount;
    }

    /** `like`: a like row for the user, created if missing; the counter
        moves only when it was created. */
    method Like(user: nat) returns (created: bool)
      modifies this
      ensures created <==> user !in old(likers)
      ensures likers == old(likers) + {user}
      ensures likeCount == old(likeCount) + (if created then 1 else 0)
      ensures commentCount == old(commentCount)
      ensures old(Valid()) ==> Valid()
    {
      created := user !in likers;
      if created {
        likers := likers + {user};
        likeCount := likeCount + 1;
      }
    }

    /** `unlike`: the user's like row deleted, the counter moved only when
        there was one. */
    method Unlike(user: nat) returns (deleted: nat)
      modifies this
      ensures deleted == (if user in old(likers) then 1 else 0)
      ensures likers == old(likers) - {user}
      ensures likeCount == old(likeCount) - deleted
      ensures commentCount == old(commentCount)
      ensures old(Valid()) ==> Valid() && likeCount >= 0
    {
      deleted := if user in likers then 1 else 0;
      likers := likers - {user};
      if deleted > 0 {
        likeCount := likeCount - 1;
      }
    }

    /** The comment view's `perform_create`: one more comment. */
    method CountComment()
      modifies this
      ensures commentCount == old(commentCount) + 1
      ensures likers == old(likers) && likeCount == old(likeCount)
    {
      commentCount := commentCount + 1;
    }
  }

  /** Liking twice counts once. */
  method LikeTwiceCountsOnce(row: PostRow, user: nat)
    requires row.Valid()
    modifies row
    ensures row.Valid() && row.likeCount == old(row.likeCount) + (if user in old(row.likers) then 0 else 1)
  {
    var first := row.Like(user);
    var second := row.Like(user);
    assert !second;
  }

  /** The hot-list score: likes plus twice the comments. */
  function Hotness(p: Post): int {
    p.likeCount + 2 * p.commentCount
  }

  /** `a` comes no later than `b` in the hot order: hotter, or as hot and
      no older. */
  predicate RanksBefore(a: Post, b: Post) {
    Hotness(a) > Hotness(b) || (Hotness(a) == Hotness(b) && a.createdAt >= b.createdAt)
  }

  predicate SortedByRank(s: seq<Post>) {
    forall i, j :: 0 <= i < j < |s| ==> RanksBefore(s[i], s[j])
  }

  /** `p` put into `s` before the first post it ranks before. */
  function Insert(p: Post, s: seq<Post>): seq<Post>
    decreases |s|
  {
    if |s| == 0 then [p]
    else if RanksBefore(p, s[0]) then [p] + s
    else [s[0]] + Insert(p, s[1..])
  }

  /** The posts in hot order (an insertion sort). */
  function SortByRank(s: seq<Post>): seq<Post>
    decreases |s|
  {
    if |s| == 0 then [] else Insert(s[|s| - 1], SortByRank(s[..|s| - 1]))
  }

  lemma {:induction false} InsertElements(p: Post, s: seq<Post>)
    ensures multiset(Insert(p, s)) == multiset(s) + multiset{p}
    ensures forall x :: x in Insert(p, s) <==> x == p || x in s
    decreases |s|
  {
    if |s| > 0 {
      assert s == [s[0]] + s[1..];
      if !RanksBefore(p, s[0]) {
        InsertElements(p, s[1..]);
      }
    }
  }

  lemma PrependSorted(x: Post, rest: seq<Post>)
    requires SortedByRank(rest)
    requires forall y :: y in rest ==> RanksBefore(x, y)
    ensures SortedByRank([x] + rest)
  {
    var r := [x] + rest;
    forall i, j | 0 <= i < j < |r| ensures RanksBefore(r[i], r[j]) {
      assert r[j] == rest[j - 1];
      if i > 0 {
        assert r[i] == rest[i - 1];
      }
    }
  }

  lemma {:induction false} InsertSorted(p: Post, s: seq<Post>)
    requires SortedByRank(s)
    ensures SortedByRank(Insert(p, s))
    decreases |s|
  {
    if |s| > 0 && !RanksBefore(p, s[0]) {
      InsertSorted(p, s[1..]);
      InsertElements(p, s[1..]);
      assert RanksBefore(s[0], p);
      forall y | y in s[1..] ensures RanksBefore(s[0], y) {
        var j :| 0 <= j < |s[1..]| && s[1..][j] == y;
        assert s[j + 1] == y;
      }
      PrependSorted(s[0], Insert(p, s[1..]));
    } else if |s| > 0 {
      forall y | y in s ensures RanksBefore(p, y) {
        var j :| 0 <= j < |s| && s[j] == y;
        if j > 0 {
          assert RanksBefore(s[0], s[j]);
        }
      }
      PrependSorted(p, s);
    }
  }

  /** The sort keeps the posts, each as often as it was given. */
  lemma {:induction false} SortByRankElements(s: seq<Post>)
    ensures multiset(SortByRank(s)) == multiset(s)
    ensures forall x :: x in SortByRank(s) <==> x in s
    decreases |s|
  {
    if |s| > 0 {
      var init := s[..|s| - 1];
      SortByRankElements(init);
      InsertElements(s[|s| - 1], SortByRank(init));
      assert s == init + [s[|s| - 1]];
    }
  }

  /** The sort puts the posts in hot order. */
  lemma {:induction false} SortByRankSorted(s: seq<Post>)
    ensures SortedByRank(SortByRank(s))
    decreases |s|
  {
    if |s| > 0 {
      SortByRankSorted(s[..|s| - 1]);
      InsertSorted(s[|s| - 1], SortByRank(s[..|s| - 1]));
    }
  }

  const SECONDS_PER_DAY := 86400
  /** How many posts the hot list shows. */
  const HOT_SIZE := 10

  /** The window of the hot list: a month is thirty days, anything else a
      week. */
  function WindowDays(period: string): nat {
    if period == "month" then 30 else 7
  }

  /** The test of the hot list's window. */
  function CreatedSince(since: int): Post -> bool {
    (p: Post) => p.createdAt >= since
  }

  /** The visible posts created since `since`. */
  function Recent(posts: seq<Post>, rules: set<Rule>, user: nat, since: int): seq<Post> {
    Filter(Visible(posts, rules, user), CreatedSince(since))
  }

  /** The first ten. */
  function Top(ranked: seq<Post>): (r: seq<Post>)
    ensures |r| <= HOT_SIZE && |r| <= |ranked| && r == ranked[..|r|] && (|r| < HOT_SIZE ==> r == ranked)
  {
    if |ranked| <= HOT_SIZE then ranked else ranked[..HOT_SIZE]
  }

  /** `hot`: the visible posts of the window, hottest first, newest first
      among equals, at most ten. */
  function Hot(posts: seq<Post>, rules: set<Rule>, user: nat, period: string, now: int): seq<Post> {
    Top(SortByRank(Recent(posts, rules, user, now - WindowDays(period) * SECONDS_PER_DAY)))
  }

  /** The hot list holds at most ten visible posts of the window, in rank
      order, and is the head of all of them in rank order: a post of the
      window it leaves out ranks after each post it shows. */
  lemma HotRules(posts: seq<Post>, rules: set<Rule>, user: nat, period: string, now: int)
    ensures var recent := Recent(posts, rules, user, now - WindowDays(period) * SECONDS_PER_DAY);
      var ranked := SortByRank(recent);
      var hot := Hot(posts, rules, user, period, now);
      |hot| <= HOT_SIZE && SortedByRank(hot) &&
      multiset(ranked) == multiset(recent) && hot == ranked[..|hot|] &&
      (|hot| < HOT_SIZE ==> hot == ranked) &&
      (forall p :: p in hot ==> p in posts && CanSee(posts, rules, user, p) && p.createdAt >= now - WindowDays(period) * SECONDS_PER_DAY) &&
      (forall i, j :: 0 <= i < |hot| <= j < |ranked| ==> RanksBefore(hot[i], ranked[j]))
  {
    var recent := Recent(posts, rules, user, now - WindowDays(period) * SECONDS_PER_DAY);
    var ranked := SortByRank(recent);
    SortByRankElements(recent);
    SortByRankSorted(recent);
    var hot := Top(ranked);
    assert forall p :: p in hot ==> p in ranked;
  }
}
