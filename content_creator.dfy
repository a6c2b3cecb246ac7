// content_creator: the singleton `ApplicationSettings` row, creator
// applications, the post serializer's premium masking, the subscribe
// placeholder and the creator dashboard. Money is in cents; dates are
// timestamps passed in.
module ContentCreator {
  import opened Common
  import opened Subscription
  import opened PaymentLedger

  /** `ApplicationSettings`; the revenue share is in hundredths of a percent. */
  datatype AppSettings = AppSettings(isOpen: bool, revenueShare: int, creatorsNeeded: nat, showCreatorTab: bool)

  /** The model's defaults: closed, 35.00%, 5 creators needed, tab hidden. */
  const DefaultSettings: AppSettings := AppSettings(false, 3500, 5, false)

  const SingletonError: string := "Only one ApplicationSettings instance allowed"

  /**
   * `ApplicationSettings.save` as written: only a save whose primary key
   * is falsy (None or 0) is refused when a row exists. A save with a
   * primary key updates that row, or inserts it when no row has that key.
   * `freshPk` is the key the table would assign.
   */
  function SaveAsWritten(rows: map<int, AppSettings>, pk: Option<int>, s: AppSettings, freshPk: int)
    : Result<map<int, AppSettings>, string>
  {
    if (pk.None? || pk.value == 0) && |rows| > 0 then Err(SingletonError)
    else if pk.None? then Ok(rows[freshPk := s])
    else Ok(rows[pk.value := s])
  }

  /** An instance given an unused primary key slips past the guard and makes a second row. */
  lemma SaveAsWrittenSecondRow()
    ensures var r := SaveAsWritten(map[1 := DefaultSettings], Some(2), DefaultSettings, 2);
      r.Ok? && |r.value| == 2
  {
    var r := SaveAsWritten(map[1 := DefaultSettings], Some(2), DefaultSettings, 2);
    assert 1 in r.value && 2 in r.value;
    assert r.value.Keys == {1, 2};
  }

  /** The guard as intended: any save that is not of an existing row is refused once a row exists. */
  function SaveOutcome(rows: map<int, AppSettings>, pk: Option<int>, s: AppSettings, freshPk: int)
    : Result<map<int, AppSettings>, string>
  {
    if (pk.None? || pk.value !in rows) && |rows| > 0 then Err(SingletonError)
    else if pk.None? then Ok(rows[freshPk := s])
    else Ok(rows[pk.value := s])
  }

  /**
   * With the guard, the table never holds two rows; re-saving the existing
   * row is always allowed and replaces it; a new row is refused exactly
   * when one exists.
   */
  lemma SaveKeepsSingleton(rows: map<int, AppSettings>, pk: Option<int>, s: AppSettings, freshPk: int)
    requires |rows| <= 1
    ensures var r := SaveOutcome(rows, pk, s, freshPk); r.Ok? ==> |r.value| <= 1
    ensures pk.Some? && pk.value in rows ==> SaveOutcome(rows, pk, s, freshPk) == Ok(rows[pk.value := s])
    ensures pk.None? ==> (SaveOutcome(rows, pk, s, freshPk).Err? <==> |rows| > 0)
  {
    var r := SaveOutcome(rows, pk, s, freshPk);
    if r.Ok? {
      if |rows| == 1 {
        var k := SomeKey(rows);
        OneKey(rows, k);
        assert pk.Some? && pk.value == k;
        assert r.value.Keys == {k};
      } else {
        assert rows == map[];
        var key := if pk.None? then freshPk else pk.value;
        assert r.value.Keys == {key};
      }
    }
  }

  /** A map with one entry has that entry's key as its only key. */
  lemma OneKey(m: map<int, AppSettings>, k: int)
    requires k in m && |m| == 1
    ensures m.Keys == {k}
  {
    assert |m.Keys| == 1;
    assert |m.Keys - {k}| == |m.Keys| - 1;
    assert m.Keys - {k} == {};
  }

  /** A non-empty map has a key. */
  lemma SomeKey(m: map<int, AppSettings>) returns (k: int)
    requires |m| > 0
    ensures k in m
  {
    if !(exists j :: j in m.Keys) {
      assert false;
    }
    k :| k in m.Keys;
  }

  /** A `content_creator.CreatorApplication` row (one per user). */
  datatype CreatorApp = CreatorApp(text: string, experience: string, status: string, appliedAt: int)

  const ClosedError: string := "Creator applications are currently closed."
  const AlreadyAppliedError: string := "You have already submitted an application."

  /** The settings table and the applications by user id. */
  class CreatorBoard {
    var settings: map<int, AppSettings>
    var nextPk: int
    var applications: map<int, CreatorApp>

    /** At most one settings row, and every key below the next one to assign. */
    ghost predicate Valid()
      reads this
    {
      |settings| <= 1 && forall k :: k in settings ==> k < nextPk
    }

    constructor ()
      ensures Valid() && settings == map[] && applications == map[]
    {
      settings := map[];
      nextPk := 1;
      applications := map[];
    }

    /** `ApplicationSettings.save` with the singleton guard; returns the row's key. */
    method Save(pk: Option<int>, s: AppSettings) returns (r: Result<int, string>)
      requires Valid()
      modifies this
      ensures Valid()
      ensures applications == old(applications)
      ensures var o := SaveOutcome(old(settings), pk, s, old(nextPk));
        r.Err? == o.Err? && (o.Err? ==> r.error == o.error && settings == old(settings))
        && (o.Ok? ==> settings == o.value && r.value in settings && settings[r.value] == s)
    {
      SaveKeepsSingleton(settings, pk, s, nextPk);
      if (pk.None? || pk.value !in settings) && |settings| > 0 {
        return Err(SingletonError);
      }
      var key := if pk.None? then nextPk else pk.value;
      settings := settings[key := s];
      nextPk := Max(nextPk, key + 1);
      r := Ok(key);
    }

    /** `get_settings`: the existing row, or a new closed one with the defaults. */
    method GetSettings() returns (s: AppSettings)
      requires Valid()
      modifies this
      ensures Valid()
      ensures applications == old(applications)
      ensures |settings| == 1 && exists k :: settings.Keys == {k} && settings[k] == s
      ensures old(|settings|) == 0 ==> s == DefaultSettings
      ensures old(|settings|) == 1 ==> settings == old(settings)
    {
      if |settings| == 0 {
        var r := Save(None, DefaultSettings);
        s := DefaultSettings;
        OneKey(settings, r.value);
      } else {
        ghost var g := SomeKey(settings);
        var k :| k in settings;
        OneKey(settings, k);
        s := settings[k];
      }
    }

    /**
     * `CreateCreatorApplicationView.perform_create`: refused while
     * applications are closed or when the user already applied; otherwise
     * a pending application for the user is stored. The settings row is
     * created first if missing.
     */
    method Apply(uid: int, text: string, experience: string, now: int) returns (r: Result<CreatorApp, string>)
      requires Valid()
      modifies this
      ensures Valid()
      ensures |settings| == 1 && (old(|settings|) == 1 ==> settings == old(settings))
      ensures var open := exists k :: k in settings && settings[k].isOpen;
        (!open ==> r == Err(ClosedError) && applications == old(applications))
        && (open && uid in old(applications) ==> r == Err(AlreadyAppliedError) && applications == old(applications))
        && (open && uid !in old(applications) ==>
              r.Ok? && r.value == CreatorApp(text, experience, "pending", now)
              && applications == old(applications)[uid := r.value])
    {
      var st := GetSettings();
      ghost var key :| settings.Keys == {key} && settings[key] == st;
      if !st.isOpen {
        return Err(ClosedError);
      }
      if uid in applications {
        return Err(AlreadyAppliedError);
      }
      var app := CreatorApp(text, experience, "pending", now);
      applications := applications[uid := app];
      r := Ok(app);
    }
  }

  /** An `OpportunityPost`; `creator` is the author's user id. */
  datatype Post = Post(
    id: int,
    creator: int,
    title: string,
    description: string,
    contentType: string,
    content: string,
    premiumContent: string,
    opportunityLink: string,
    hasPremiumSection: bool,
    isActive: bool,
    isDraft: bool,
    createdAt: int)

  /** The serialized post; the two premium fields become None when hidden. */
  datatype PostData = PostData(
    id: int,
    creator: int,
    creatorUsername: string,
    title: string,
    description: string,
    contentType: string,
    content: string,
    premiumContent: Option<string>,
    opportunityLink: Option<string>,
    hasPremiumSection: bool,
    isActive: bool,
    isDraft: bool,
    createdAt: int,
    isPremiumContent: bool,
    isVerified: bool)

  /** `get_creator_username`: "MAT" for staff authors, the username otherwise. */
  function CreatorUsername(author: User): string
  {
    if author.isStaff then "MAT" else author.username
  }

  /** The fields before masking (`super().to_representation`). */
  function Serialized(p: Post, author: User): PostData
  {
    PostData(p.id, p.creator, CreatorUsername(author), p.title, p.description, p.contentType, p.content,
             Some(p.premiumContent), Some(p.opportunityLink), p.hasPremiumSection, p.isActive, p.isDraft,
             p.createdAt, p.hasPremiumSection, author.isStaff)
  }

  /** Who is asking: an anonymous visitor, or a user with the status of their dashboard if they have one. */
  datatype Viewer = Anonymous | Member(isStaff: bool, dashStatus: Option<string>)

  /** Staff, or a member whose dashboard is active. */
  predicate SeesPremium(viewer: Option<Viewer>)
  {
    viewer.Some? && viewer.value.Member? && (viewer.value.isStaff || viewer.value.dashStatus == Some(StatusActive))
  }

  /**
   * `OpportunityPostSerializer.to_representation`; `viewer` is None when the
   * serializer has no request. Only the two premium keys are ever changed,
   * and they are hidden exactly when the viewer may not see them.
   */
  function Represent(p: Post, author: User, viewer: Option<Viewer>): (r: PostData)
    ensures var s := Serialized(p, author);
      r.(premiumContent := s.premiumContent, opportunityLink := s.opportunityLink) == s
    ensures SeesPremium(viewer) ==> r == Serialized(p, author)
    ensures !SeesPremium(viewer) ==> r.premiumContent.None? && r.opportunityLink.None?
    ensures r.creatorUsername == (if author.isStaff then "MAT" else author.username)
    ensures r.isVerified == author.isStaff && r.isPremiumContent == p.hasPremiumSection
  {
    var data := Serialized(p, author);
    var hidden := data.(premiumContent := None, opportunityLink := None);
    if viewer.Some? && viewer.value.Member? then
      if viewer.value.isStaff then data
      else if viewer.value.dashStatus.None? then hidden   // no dashboard
      else if viewer.value.dashStatus.value != StatusActive then hidden
      else data
    else hidden
  }

  /** A viewer without a dashboard, or an anonymous one, never sees the premium fields. */
  lemma NoDashboardHidden(p: Post, author: User, viewer: Option<Viewer>)
    requires viewer.None? || viewer.value.Anonymous? || (!viewer.value.isStaff && viewer.value.dashStatus.None?)
    ensures Represent(p, author, viewer).premiumContent.None? && Represent(p, author, viewer).opportunityLink.None?
  {
  }

  /**
   * `subscribe_to_creator_post`: 404 without an active post of that id, 400
   * for a user whose dashboard is active, otherwise the placeholder reply.
   * Nothing is stored on any path.
   */
  function SubscribeToCreatorPost(posts: seq<Post>, postId: int, dashStatus: Option<string>): Reply
  {
    if !exists k :: 0 <= k < |posts| && posts[k].id == postId && posts[k].isActive then
      Reply(404, "Not found.")
    else if dashStatus == Some(StatusActive) then
      Reply(400, "You already have an active subscription")
    else
      Reply(200, "Payment initialization would happen here")
  }

  /** Only users with an active subscription are turned away from an active post. */
  lemma SubscribeRule(posts: seq<Post>, postId: int, dashStatus: Option<string>, k: int)
    requires 0 <= k < |posts| && posts[k].id == postId && posts[k].isActive
    ensures SubscribeToCreatorPost(posts, postId, dashStatus).code == (if dashStatus == Some(StatusActive) then 400 else 200)
  {
  }

  /** A `CreatorRevenue` row; amounts in cents. */
  datatype Revenue = Revenue(creator: int, subscriber: int, post: int, amount: int)

  /** The posts written by `uid`, in table order. */
  function PostsBy(posts: seq<Post>, uid: int): (r: seq<Post>)
    ensures |r| <= |posts|
    ensures forall k :: 0 <= k < |r| ==> r[k].creator == uid && r[k] in posts
    ensures forall p :: p in posts && p.creator == uid ==> p in r
  {
    if posts == [] then []
    else
      var init := PostsBy(posts[..|posts| - 1], uid);
      var p := posts[|posts| - 1];
      assert forall q :: q in posts ==> q in posts[..|posts| - 1] || q == p;
      if p.creator == uid then init + [p] else init
  }

  /** The sum of the revenue amounts of creator `uid`. */
  function Earnings(revenues: seq<Revenue>, uid: int): int
  {
    if revenues == [] then 0
    else
      var r := revenues[|revenues| - 1];
      Earnings(revenues[..|revenues| - 1], uid) + (if r.creator == uid then r.amount else 0)
  }

  /** A new revenue row adds its amount to its own creator's total only. */
  lemma EarningsAppend(revenues: seq<Revenue>, r: Revenue, uid: int)
    ensures Earnings(revenues + [r], uid) == Earnings(revenues, uid) + (if r.creator == uid then r.amount else 0)
  {
    assert (revenues + [r])[..|revenues|] == revenues;
  }

  /** Non-negative amounts give non-negative earnings. */
  lemma {:induction false} EarningsNonNegative(revenues: seq<Revenue>, uid: int)
    requires forall k :: 0 <= k < |revenues| ==> revenues[k].amount >= 0
    ensures Earnings(revenues, uid) >= 0
  {
    if revenues != [] {
      EarningsNonNegative(revenues[..|revenues| - 1], uid);
    }
  }

  /** Newest first: every post is at least as new as each one after it. */
  predicate NewestFirst(s: seq<Post>)
  {
    forall i, j :: 0 <= i < j < |s| ==> s[i].createdAt >= s[j].createdAt
  }

  /** `p` placed before the first post of `s` that is not newer than it. */
  function InsertByAge(p: Post, s: seq<Post>): (r: seq<Post>)
    ensures |r| == |s| + 1 && multiset(r) == multiset(s) + multiset{p}
  {
    if s == [] || s[0].createdAt <= p.createdAt then [p] + s
    else
      assert s == [s[0]] + s[1..];
      [s[0]] + InsertByAge(p, s[1..])
  }

  /** The posts under `Meta.ordering = ['-created_at']`; posts created at the same time keep table order. */
  function ByNewest(s: seq<Post>): (r: seq<Post>)
    ensures |r| == |s| && multiset(r) == multiset(s)
  {
    if s == [] then []
    else
      assert s == [s[0]] + s[1..];
      InsertByAge(s[0], ByNewest(s[1..]))
  }

  /** A post at least as new as every post of a newest-first list can head it. */
  lemma ConsNewestFirst(x: Post, q: seq<Post>)
    requires NewestFirst(q) && forall j :: 0 <= j < |q| ==> q[j].createdAt <= x.createdAt
    ensures NewestFirst([x] + q)
  {
    var r := [x] + q;
    forall i, j | 0 <= i < j < |r|
      ensures r[i].createdAt >= r[j].createdAt
    {
      assert r[j] == q[j - 1];
      if i > 0 {
        assert r[i] == q[i - 1];
      }
    }
  }

  lemma {:induction false} InsertByAgeSorted(p: Post, s: seq<Post>)
    requires NewestFirst(s)
    ensures NewestFirst(InsertByAge(p, s))
  {
    if s == [] || s[0].createdAt <= p.createdAt {
      forall j | 0 <= j < |s|
        ensures s[j].createdAt <= p.createdAt
      {
        if j > 0 {
          assert s[0].createdAt >= s[j].createdAt;
        }
      }
      ConsNewestFirst(p, s);
    } else {
      var t := s[1..];
      assert NewestFirst(t) by {
        forall i, j | 0 <= i < j < |t|
          ensures t[i].createdAt >= t[j].createdAt
        {
          assert t[i] == s[i + 1] && t[j] == s[j + 1];
        }
      }
      InsertByAgeSorted(p, t);
      var q := InsertByAge(p, t);
      forall j | 0 <= j < |q|
        ensures q[j].createdAt <= s[0].createdAt
      {
        assert q[j] in multiset(q);
        if q[j] != p {
          assert q[j] in multiset(t);
          var k :| 0 <= k < |t| && t[k] == q[j];
          assert s[k + 1] == t[k];
        }
      }
      ConsNewestFirst(s[0], q);
    }
  }

  /** `ByNewest` reorders the posts, newest first. */
  lemma {:induction false} ByNewestSorted(s: seq<Post>)
    ensures multiset(ByNewest(s)) == multiset(s)
    ensures NewestFirst(ByNewest(s))
  {
    if s != [] {
      ByNewestSorted(s[1..]);
      InsertByAgeSorted(s[0], ByNewest(s[1..]));
    }
  }

  datatype CreatorStats = CreatorStats(postsCount: nat, totalEarnings: int, recentPosts: seq<PostData>)

  /** The five newest of `uid`'s posts. */
  function RecentPosts(posts: seq<Post>, uid: int): (r: seq<Post>)
    ensures |r| == Min(5, |PostsBy(posts, uid)|)
  {
    Take(ByNewest(PostsBy(posts, uid)), 5)
  }

  /** A prefix of a newest-first list is newest first, and no newer than nothing after it. */
  lemma NewestFirstPrefix(n: seq<Post>, m: nat)
    requires NewestFirst(n) && m <= |n|
    ensures NewestFirst(n[..m])
    ensures forall k, j :: 0 <= k < m <= j < |n| ==> n[k].createdAt >= n[j].createdAt
  {
    assert forall k :: 0 <= k < m ==> n[..m][k] == n[k];
  }

  /** A post of the list that is not in its prefix lies after the prefix. */
  lemma OutsidePrefix(n: seq<Post>, m: nat, p: Post) returns (j: nat)
    requires m <= |n| && p in n && p !in n[..m]
    ensures m <= j < |n| && n[j] == p
  {
    j :| 0 <= j < |n| && n[j] == p;
  }

  /**
   * The recent posts are the user's own, newest first, and none of the
   * user's posts left out is newer than any of them.
   */
  lemma RecentPostsRules(posts: seq<Post>, uid: int)
    ensures var recent := RecentPosts(posts, uid);
      (forall k :: 0 <= k < |recent| ==> recent[k].creator == uid && recent[k] in posts)
      && NewestFirst(recent)
      && (forall k, p :: 0 <= k < |recent| && p in posts && p.creator == uid && p !in recent ==>
            recent[k].createdAt >= p.createdAt)
  {
    var mine := PostsBy(posts, uid);
    var n := ByNewest(mine);
    ByNewestSorted(mine);
    var recent := RecentPosts(posts, uid);
    var m := |recent|;
    assert recent == n[..m];
    NewestFirstPrefix(n, m);
    forall k | 0 <= k < m
      ensures recent[k].creator == uid && recent[k] in posts
    {
      assert recent[k] == n[k];
      assert n[k] in multiset(mine);
    }
    forall k, p | 0 <= k < m && p in posts && p.creator == uid && p !in recent
      ensures recent[k].createdAt >= p.createdAt
    {
      assert p in mine;
      assert p in multiset(n);
      var j := OutsidePrefix(n, m, p);
      assert recent[k] == n[k];
    }
  }

  /** Serializing without a request keeps a post's author and time and hides its premium fields. */
  lemma RepresentedWithoutRequest(p: Post, author: User)
    ensures var d := Represent(p, author, None);
      d.creator == p.creator && d.createdAt == p.createdAt && d.premiumContent.None? && d.opportunityLink.None?
  {
  }

  /**
   * `creator_dashboard`: 403 unless staff or approved; the number of the
   * user's posts, their earnings, and the five newest posts serialized
   * without a request.
   */
  function CreatorDashboard(u: User, applications: map<int, CreatorApp>, posts: seq<Post>, revenues: seq<Revenue>)
    : (r: Result<CreatorStats, Reply>)
    ensures r.Err? ==> r.error.code == 403 && !u.isStaff
    ensures r.Ok? ==> |r.value.recentPosts| <= 5 && |r.value.recentPosts| <= r.value.postsCount <= |posts|
  {
    if !(u.isStaff || (u.id in applications && applications[u.id].status == "approved")) then
      Err(Reply(403, "Not an approved creator"))
    else
      var recent := RecentPosts(posts, u.id);
      Ok(CreatorStats(|PostsBy(posts, u.id)|, Earnings(revenues, u.id),
                      seq(|recent|, k requires 0 <= k < |recent| => Represent(recent[k], u, None))))
  }

  /**
   * The dashboard is refused exactly to non-staff users without an approved
   * application. Otherwise it reports the user's revenue total and lists
   * at most five of the user's own posts, newest first, none older than
   * any post left out, with the premium fields hidden.
   */
  lemma CreatorDashboardRules(u: User, applications: map<int, CreatorApp>, posts: seq<Post>, revenues: seq<Revenue>)
    ensures var r := CreatorDashboard(u, applications, posts, revenues);
      r.Err? <==> !u.isStaff && (u.id !in applications || applications[u.id].status != "approved")
    ensures var r := CreatorDashboard(u, applications, posts, revenues);
      r.Err? ==> r.error.code == 403
    ensures var r := CreatorDashboard(u, applications, posts, revenues);
      r.Ok? ==>
        r.value.postsCount == |PostsBy(posts, u.id)| && r.value.totalEarnings == Earnings(revenues, u.id)
        && |r.value.recentPosts| == Min(5, r.value.postsCount)
        && (forall k :: 0 <= k < |r.value.recentPosts| ==>
              r.value.recentPosts[k].creator == u.id
              && r.value.recentPosts[k].premiumContent.None? && r.value.recentPosts[k].opportunityLink.None?)
        && (forall i, j :: 0 <= i < j < |r.value.recentPosts| ==>
              r.value.recentPosts[i].createdAt >= r.value.recentPosts[j].createdAt)
        && (forall k, p :: (0 <= k < |r.value.recentPosts| && p in posts && p.creator == u.id
                              && p !in RecentPosts(posts, u.id)) ==> r.value.recentPosts[k].createdAt >= p.createdAt)
  {
    var r := CreatorDashboard(u, applications, posts, revenues);
    if r.Ok? {
      var recent := RecentPosts(posts, u.id);
      RecentPostsRules(posts, u.id);
      var out := r.value.recentPosts;
      forall k | 0 <= k < |out|
        ensures out[k].creator == recent[k].creator && out[k].createdAt == recent[k].createdAt
        ensures out[k].premiumContent.None? && out[k].opportunityLink.None?
      {
        RepresentedWithoutRequest(recent[k], u);
      }
    }
  }
}
