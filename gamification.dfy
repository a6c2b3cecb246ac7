// gamification: achievements held by users (`UserAchievement`, unique per
// (user, achievement)), the per-user `UserProfile` with points and level,
// `award_achievement`, the signal receivers' thresholds and the
// `award_retroactive_achievements` command.
//
// The first module states the effects on values; the second holds the
// profile objects and the methods that update them.
module GamificationSpec {
  import opened Common
  import opened Subscription
  import opened PaymentLedger

  /** `level = total_points // 100 + 1`; Dafny's `/` by a positive divisor floors like Python's `//`. */
  function LevelFor(points: int): int
  {
    points / 100 + 1
  }

  /** Level never drops when points grow. */
  lemma LevelMonotone(p: int, q: int)
    requires p <= q
    ensures LevelFor(p) <= LevelFor(q)
  {
  }

  /** With non-negative points the level is at least 1, and the defaults (0 points, level 1) agree. */
  lemma LevelAtLeastOne(p: int)
    requires p >= 0
    ensures LevelFor(p) >= 1
    ensures LevelFor(0) == 1
  {
  }

  /** A `UserAchievement` row. */
  datatype Held = Held(user: int, name: string)

  /** The fields of a `UserProfile` the model tracks (`last_activity` as a timestamp). */
  datatype Profile = Profile(points: int, level: int, lastActivity: int)

  /** The achievement rows in insertion order and the profiles by user id. */
  datatype GameState = GameState(rows: seq<Held>, profiles: map<int, Profile>)

  /** The points a user has earned through the rows, with `catalog` giving each achievement's points. */
  function Earned(rows: seq<Held>, catalog: map<string, int>, u: int): int
  {
    if rows == [] then 0
    else
      var h := rows[|rows| - 1];
      Earned(rows[..|rows| - 1], catalog, u) + (if h.user == u && h.name in catalog then catalog[h.name] else 0)
  }

  lemma EarnedAppend(rows: seq<Held>, catalog: map<string, int>, h: Held, u: int)
    ensures Earned(rows + [h], catalog, u)
         == Earned(rows, catalog, u) + (if h.user == u && h.name in catalog then catalog[h.name] else 0)
  {
    assert (rows + [h])[..|rows|] == rows;
  }

  lemma {:induction false} EarnedNone(rows: seq<Held>, catalog: map<string, int>, u: int)
    requires forall i :: 0 <= i < |rows| ==> rows[i].user != u
    ensures Earned(rows, catalog, u) == 0
  {
    if rows != [] {
      EarnedNone(rows[..|rows| - 1], catalog, u);
    }
  }

  /**
   * The invariant the operations keep: each (user, achievement) row occurs
   * once, names a catalogued achievement of a user with a profile, and each
   * profile's points are what its rows earned, with the level to match.
   */
  predicate Consistent(s: GameState, catalog: map<string, int>)
  {
    Distinct(s.rows)
    && (forall i :: 0 <= i < |s.rows| ==> s.rows[i].name in catalog && s.rows[i].user in s.profiles)
    && (forall u :: u in s.profiles ==>
          s.profiles[u].points == Earned(s.rows, catalog, u) && s.profiles[u].level == LevelFor(s.profiles[u].points))
  }

  /** `UserProfile.objects.get_or_create(user=u)`: a new profile has 0 points, level 1. */
  function WithProfile(s: GameState, u: int, now: int): GameState
  {
    if u in s.profiles then s else s.(profiles := s.profiles[u := Profile(0, 1, now)])
  }

  /**
   * `award_achievement(u, name)`: an unknown name changes nothing; a held
   * achievement changes nothing; otherwise the row is created and its
   * points are added to the (possibly new) profile.
   */
  function Awarded(s: GameState, catalog: map<string, int>, u: int, name: string, now: int): GameState
  {
    if name !in catalog || Held(u, name) in s.rows then s
    else
      var w := WithProfile(s, u, now);
      var p := w.profiles[u];
      var total := p.points + catalog[name];
      GameState(s.rows + [Held(u, name)], w.profiles[u := p.(points := total, level := LevelFor(total))])
  }

  /** Awarding each of `names` in turn to user `u`. */
  function AwardSeq(s: GameState, catalog: map<string, int>, u: int, names: seq<string>, now: int): GameState
  {
    if names == [] then s
    else Awarded(AwardSeq(s, catalog, u, names[..|names| - 1], now), catalog, u, names[|names| - 1], now)
  }

  /** `profile.last_activity = now` on an existing profile. */
  function Touched(s: GameState, u: int, now: int): GameState
    requires u in s.profiles
  {
    s.(profiles := s.profiles[u := s.profiles[u].(lastActivity := now)])
  }

  lemma WithProfileConsistent(s: GameState, catalog: map<string, int>, u: int, now: int)
    requires Consistent(s, catalog)
    ensures Consistent(WithProfile(s, u, now), catalog)
  {
    if u !in s.profiles {
      EarnedNone(s.rows, catalog, u);
    }
  }

  /** Awarding keeps the invariant: points stay equal to what the rows earned. */
  lemma AwardedConsistent(s: GameState, catalog: map<string, int>, u: int, name: string, now: int)
    requires Consistent(s, catalog)
    ensures Consistent(Awarded(s, catalog, u, name, now), catalog)
  {
    if name in catalog && Held(u, name) !in s.rows {
      WithProfileConsistent(s, catalog, u, now);
      var w := WithProfile(s, u, now);
      var h := Held(u, name);
      var r := Awarded(s, catalog, u, name, now);
      assert r.rows == w.rows + [h];
      forall v | v in r.profiles
        ensures r.profiles[v].points == Earned(r.rows, catalog, v)
      {
        EarnedAppend(w.rows, catalog, h, v);
      }
      forall i, j | 0 <= i < j < |r.rows|
        ensures r.rows[i] != r.rows[j]
      {
        if j == |s.rows| {
          assert r.rows[i] == s.rows[i];
        }
      }
    }
  }

  lemma {:induction false} AwardSeqConsistent(s: GameState, catalog: map<string, int>, u: int, names: seq<string>, now: int)
    requires Consistent(s, catalog)
    ensures Consistent(AwardSeq(s, catalog, u, names, now), catalog)
  {
    if names != [] {
      AwardSeqConsistent(s, catalog, u, names[..|names| - 1], now);
      AwardedConsistent(AwardSeq(s, catalog, u, names[..|names| - 1], now), catalog, u, names[|names| - 1], now);
    }
  }

  lemma TouchedConsistent(s: GameState, catalog: map<string, int>, u: int, now: int)
    requires Consistent(s, catalog) && u in s.profiles
    ensures Consistent(Touched(s, u, now), catalog)
  {
  }

  /**
   * Awarding the same achievement twice equals awarding it once, so its
   * points are added once; an unknown name leaves everything as it was.
   */
  lemma AwardIdempotent(s: GameState, catalog: map<string, int>, u: int, name: string, now: int)
    ensures Awarded(Awarded(s, catalog, u, name, now), catalog, u, name, now) == Awarded(s, catalog, u, name, now)
    ensures name !in catalog ==> Awarded(s, catalog, u, name, now) == s
  {
  }

  /** A new award adds exactly the achievement's points to this user's profile and touches no other profile. */
  lemma AwardPoints(s: GameState, catalog: map<string, int>, u: int, name: string, now: int, v: int)
    requires Consistent(s, catalog)
    ensures var r := Awarded(s, catalog, u, name, now);
      u in r.profiles <==> u in s.profiles || (name in catalog && Held(u, name) !in s.rows)
    ensures var r := Awarded(s, catalog, u, name, now);
      name in catalog && Held(u, name) !in s.rows ==>
        r.profiles[u].points == (if u in s.profiles then s.profiles[u].points else 0) + catalog[name]
    ensures var r := Awarded(s, catalog, u, name, now);
      v != u && v in s.profiles ==> v in r.profiles && r.profiles[v] == s.profiles[v]
  {
  }

  /** Which rows exist after awarding a list of names: the old ones plus each catalogued name. */
  lemma {:induction false} AwardSeqHeld(s: GameState, catalog: map<string, int>, u: int, names: seq<string>, now: int, h: Held)
    ensures h in AwardSeq(s, catalog, u, names, now).rows
        <==> h in s.rows || (h.user == u && h.name in names && h.name in catalog)
  {
    if names != [] {
      var init := names[..|names| - 1];
      AwardSeqHeld(s, catalog, u, init, now, h);
      assert names == init + [names[|names| - 1]];
    }
  }

  /** Awarding only adds rows and profiles, never removes them. */
  predicate Grows(s: GameState, t: GameState)
  {
    |s.rows| <= |t.rows| && t.rows[..|s.rows|] == s.rows && s.profiles.Keys <= t.profiles.Keys
  }

  lemma {:induction false} AwardSeqGrows(s: GameState, catalog: map<string, int>, u: int, names: seq<string>, now: int)
    ensures Grows(s, AwardSeq(s, catalog, u, names, now))
  {
    if names != [] {
      var init := names[..|names| - 1];
      AwardSeqGrows(s, catalog, u, init, now);
      var m := AwardSeq(s, catalog, u, init, now);
      var r := Awarded(m, catalog, u, names[|names| - 1], now);
      assert r.rows[..|m.rows|] == m.rows;
      assert r.rows[..|s.rows|] == m.rows[..|s.rows|];
    }
  }

  /** When every catalogued name is already held, awarding them changes nothing. */
  lemma {:induction false} AwardSeqNoop(s: GameState, catalog: map<string, int>, u: int, names: seq<string>, now: int)
    requires forall n :: n in names && n in catalog ==> Held(u, n) in s.rows
    ensures AwardSeq(s, catalog, u, names, now) == s
  {
    if names != [] {
      AwardSeqNoop(s, catalog, u, names[..|names| - 1], now);
    }
  }

  // ---- The signal receivers' thresholds ----

  /** 'profile_complete' needs first name, last name and email all non-empty. */
  predicate ProfileComplete(u: User)
  {
    u.firstName != "" && u.lastName != "" && u.email != ""
  }

  const PostAdd: string := "post_add"

  function ProfileDue(u: User): seq<string>
  {
    if ProfileComplete(u) then ["profile_complete"] else []
  }

  function FavoritesDue(action: string, count: int): seq<string>
  {
    if action == PostAdd && count >= 5 then ["favorite_collector"] else []
  }

  function AppliedDue(action: string, count: int): seq<string>
  {
    if action != PostAdd then []
    else (if count >= 1 then ["first_application"] else []) + (if count >= 10 then ["application_master"] else [])
  }

  function AcceptedDue(action: string, count: int): seq<string>
  {
    if action == PostAdd && count >= 1 then ["first_acceptance"] else []
  }

  function VisaDue(action: string, count: int): seq<string>
  {
    if action == PostAdd && count >= 1 then ["visa_ready"] else []
  }

  /** What the login receiver does: award 'first_login', then stamp the (possibly new) profile. */
  function LoggedIn(s: GameState, catalog: map<string, int>, u: int, now: int): GameState
  {
    Touched(WithProfile(AwardSeq(s, catalog, u, ["first_login"], now), u, now), u, now)
  }

  /** After a login the user holds 'first_login' (when catalogued) and the profile's activity is `now`. */
  lemma LoginRule(s: GameState, catalog: map<string, int>, u: int, now: int)
    ensures var r := LoggedIn(s, catalog, u, now);
      u in r.profiles && r.profiles[u].lastActivity == now
      && ("first_login" in catalog ==> Held(u, "first_login") in r.rows)
  {
    AwardSeqHeld(s, catalog, u, ["first_login"], now, Held(u, "first_login"));
  }

  /** The receivers' threshold rules, stated as which rows exist afterwards. */
  lemma ThresholdRules(s: GameState, catalog: map<string, int>, uid: int, action: string, count: int, now: int, n: string)
    ensures Held(uid, n) in AwardSeq(s, catalog, uid, FavoritesDue(action, count), now).rows
        <==> Held(uid, n) in s.rows || (n == "favorite_collector" && n in catalog && action == PostAdd && count >= 5)
    ensures Held(uid, n) in AwardSeq(s, catalog, uid, AppliedDue(action, count), now).rows
        <==> Held(uid, n) in s.rows
             || (n == "first_application" && n in catalog && action == PostAdd && count >= 1)
             || (n == "application_master" && n in catalog && action == PostAdd && count >= 10)
    ensures Held(uid, n) in AwardSeq(s, catalog, uid, AcceptedDue(action, count), now).rows
        <==> Held(uid, n) in s.rows || (n == "first_acceptance" && n in catalog && action == PostAdd && count >= 1)
    ensures Held(uid, n) in AwardSeq(s, catalog, uid, VisaDue(action, count), now).rows
        <==> Held(uid, n) in s.rows || (n == "visa_ready" && n in catalog && action == PostAdd && count >= 1)
  {
    AwardSeqHeld(s, catalog, uid, FavoritesDue(action, count), now, Held(uid, n));
    AwardSeqHeld(s, catalog, uid, AppliedDue(action, count), now, Held(uid, n));
    AwardSeqHeld(s, catalog, uid, AcceptedDue(action, count), now, Held(uid, n));
    AwardSeqHeld(s, catalog, uid, VisaDue(action, count), now, Held(uid, n));
  }

  // ---- award_retroactive_achievements ----

  /** What the command reads from a user's dashboard: its status and the sizes of four lists. */
  datatype DashFacts = DashFacts(status: string, favorites: nat, applied: nat, accepted: nat, visa: nat)

  /** The achievements the command tries for one user, in its order. */
  function DueList(u: User, f: DashFacts): seq<string>
  {
    DueFirst(u, f)
    + (if f.applied >= 10 then ["application_master"] else [])
    + (if f.accepted >= 1 then ["first_acceptance"] else [])
    + (if f.visa >= 1 then ["visa_ready"] else [])
  }

  /** The first four of them. */
  function DueFirst(u: User, f: DashFacts): seq<string>
  {
    (if f.status == StatusActive then ["first_login"] else [])
    + (if ProfileComplete(u) then ["profile_complete"] else [])
    + (if f.favorites >= 5 then ["favorite_collector"] else [])
    + (if f.applied >= 1 then ["first_application"] else [])
  }

  /**
   * The command tries exactly what the receivers would award for the
   * current counts after a `post_add`, plus 'first_login' for an active
   * dashboard.
   */
  lemma DueListMatchesReceivers(u: User, f: DashFacts, n: string)
    ensures n in DueList(u, f)
        <==> (n == "first_login" && f.status == StatusActive)
             || n in ProfileDue(u) || n in FavoritesDue(PostAdd, f.favorites)
             || n in AppliedDue(PostAdd, f.applied) || n in AcceptedDue(PostAdd, f.accepted)
             || n in VisaDue(PostAdd, f.visa)
  {
  }

  /** One user of the command: skipped without a dashboard, otherwise profile then awards. */
  function RetroUser(s: GameState, catalog: map<string, int>, u: User, dash: map<int, DashFacts>, now: int): GameState
  {
    if u.id !in dash then s
    else AwardSeq(WithProfile(s, u.id, now), catalog, u.id, DueList(u, dash[u.id]), now)
  }

  /** The command over the users in order. */
  function RetroAll(s: GameState, catalog: map<string, int>, users: seq<User>, dash: map<int, DashFacts>, now: int): GameState
  {
    if users == [] then s
    else RetroUser(RetroAll(s, catalog, users[..|users| - 1], dash, now), catalog, users[|users| - 1], dash, now)
  }

  /** `users_updated`: the users for whom at least one row was created. */
  function UsersUpdated(s: GameState, catalog: map<string, int>, users: seq<User>, dash: map<int, DashFacts>, now: int): nat
  {
    if users == [] then 0
    else
      var m := RetroAll(s, catalog, users[..|users| - 1], dash, now);
      UsersUpdated(s, catalog, users[..|users| - 1], dash, now)
      + (if |RetroUser(m, catalog, users[|users| - 1], dash, now).rows| > |m.rows| then 1 else 0)
  }

  /** At most one per user. */
  lemma {:induction false} UsersUpdatedBound(s: GameState, catalog: map<string, int>, users: seq<User>, dash: map<int, DashFacts>, now: int)
    ensures UsersUpdated(s, catalog, users, dash, now) <= |users|
  {
    if users != [] {
      UsersUpdatedBound(s, catalog, users[..|users| - 1], dash, now);
    }
  }

  /** A user is settled when they have no dashboard, or have a profile and every due catalogued achievement. */
  predicate Settled(s: GameState, catalog: map<string, int>, u: User, dash: map<int, DashFacts>)
  {
    u.id in dash ==>
      u.id in s.profiles
      && forall n :: n in DueList(u, dash[u.id]) && n in catalog ==> Held(u.id, n) in s.rows
  }

  lemma RetroUserGrows(s: GameState, catalog: map<string, int>, u: User, dash: map<int, DashFacts>, now: int)
    ensures Grows(s, RetroUser(s, catalog, u, dash, now))
  {
    if u.id in dash {
      AwardSeqGrows(WithProfile(s, u.id, now), catalog, u.id, DueList(u, dash[u.id]), now);
    }
  }

  lemma RetroUserSettles(s: GameState, catalog: map<string, int>, u: User, dash: map<int, DashFacts>, now: int)
    ensures Settled(RetroUser(s, catalog, u, dash, now), catalog, u, dash)
  {
    if u.id in dash {
      var w := WithProfile(s, u.id, now);
      var due := DueList(u, dash[u.id]);
      AwardSeqGrows(w, catalog, u.id, due, now);
      forall n | n in due && n in catalog
        ensures Held(u.id, n) in RetroUser(s, catalog, u, dash, now).rows
      {
        AwardSeqHeld(w, catalog, u.id, due, now, Held(u.id, n));
      }
    }
  }

  lemma RetroUserNoop(s: GameState, catalog: map<string, int>, u: User, dash: map<int, DashFacts>, now: int)
    requires Settled(s, catalog, u, dash)
    ensures RetroUser(s, catalog, u, dash, now) == s
  {
    if u.id in dash {
      AwardSeqNoop(s, catalog, u.id, DueList(u, dash[u.id]), now);
    }
  }

  lemma SettledGrows(s: GameState, t: GameState, catalog: map<string, int>, u: User, dash: map<int, DashFacts>)
    requires Settled(s, catalog, u, dash) && Grows(s, t)
    ensures Settled(t, catalog, u, dash)
  {
    if u.id in dash {
      forall n | n in DueList(u, dash[u.id]) && n in catalog
        ensures Held(u.id, n) in t.rows
      {
        var k :| 0 <= k < |s.rows| && s.rows[k] == Held(u.id, n);
        assert t.rows[k] == s.rows[k];
      }
    }
  }

  lemma {:induction false} RetroAllGrows(s: GameState, catalog: map<string, int>, users: seq<User>, dash: map<int, DashFacts>, now: int)
    ensures Grows(s, RetroAll(s, catalog, users, dash, now))
  {
    if users != [] {
      var m := RetroAll(s, catalog, users[..|users| - 1], dash, now);
      RetroAllGrows(s, catalog, users[..|users| - 1], dash, now);
      RetroUserGrows(m, catalog, users[|users| - 1], dash, now);
      var r := RetroUser(m, catalog, users[|users| - 1], dash, now);
      assert r.rows[..|s.rows|] == r.rows[..|m.rows|][..|s.rows|];
    }
  }

  /** After the command every listed user is settled. */
  lemma {:induction false} RetroAllSettles(s: GameState, catalog: map<string, int>, users: seq<User>, dash: map<int, DashFacts>, now: int)
    ensures forall i :: 0 <= i < |users| ==> Settled(RetroAll(s, catalog, users, dash, now), catalog, users[i], dash)
  {
    if users != [] {
      var init := users[..|users| - 1];
      var m := RetroAll(s, catalog, init, dash, now);
      var r := RetroAll(s, catalog, users, dash, now);
      RetroAllSettles(s, catalog, init, dash, now);
      RetroUserGrows(m, catalog, users[|users| - 1], dash, now);
      RetroUserSettles(m, catalog, users[|users| - 1], dash, now);
      forall i | 0 <= i < |users| - 1
        ensures Settled(r, catalog, users[i], dash)
      {
        assert users[i] == init[i];
        SettledGrows(m, r, catalog, users[i], dash);
      }
    }
  }

  /** On a state where every listed user is settled, the command changes nothing and updates no user. */
  lemma {:induction false} RetroAllNoop(t: GameState, catalog: map<string, int>, users: seq<User>, dash: map<int, DashFacts>, now: int)
    requires forall i :: 0 <= i < |users| ==> Settled(t, catalog, users[i], dash)
    ensures RetroAll(t, catalog, users, dash, now) == t
    ensures UsersUpdated(t, catalog, users, dash, now) == 0
  {
    if users != [] {
      var init := users[..|users| - 1];
      RetroAllNoop(t, catalog, init, dash, now);
      RetroUserNoop(t, catalog, users[|users| - 1], dash, now);
    }
  }

  /** A second run of the command awards nothing and updates no user. */
  lemma RetroIdempotent(s: GameState, catalog: map<string, int>, users: seq<User>, dash: map<int, DashFacts>, now: int)
    ensures var once := RetroAll(s, catalog, users, dash, now);
      RetroAll(once, catalog, users, dash, now) == once && UsersUpdated(once, catalog, users, dash, now) == 0
  {
    RetroAllSettles(s, catalog, users, dash, now);
    RetroAllNoop(RetroAll(s, catalog, users, dash, now), catalog, users, dash, now);
  }
}

module Gamification {
  import opened Common
  import opened Subscription
  import opened PaymentLedger
  import opened GamificationSpec

  /** `UserProfile`: `streak_days` is kept but never changed by the core. */
  class UserProfile {
    var totalPoints: int
    var level: int
    var streakDays: int
    var lastActivity: int

    /** A new profile: 0 points, level 1, no streak, active `now`. */
    constructor (now: int)
      ensures totalPoints == 0 && level == 1 && streakDays == 0 && lastActivity == now
    {
      totalPoints := 0;
      level := 1;
      streakDays := 0;
      lastActivity := now;
    }

    function Row(): Profile
      reads this
    {
      Profile(totalPoints, level, lastActivity)
    }

    /** `add_points`: exactly `points` more, and the level recomputed from the new total. */
    method AddPoints(points: int)
      modifies this
      ensures totalPoints == old(totalPoints) + points
      ensures level == LevelFor(totalPoints)
      ensures lastActivity == old(lastActivity) && streakDays == old(streakDays)
    {
      totalPoints := totalPoints + points;
      level := totalPoints / 100 + 1;
    }

    /** The login receiver's `profile.last_activity = now`. */
    method Touch(now: int)
      modifies this
      ensures lastActivity == now
      ensures totalPoints == old(totalPoints) && level == old(level) && streakDays == old(streakDays)
    {
      lastActivity := now;
    }
  }

  /**
   * The `Achievement`, `UserAchievement` and `UserProfile` tables: the
   * catalogue of achievement points by name, the rows in insertion order and
   * one profile object per user, mirrored by the ghost map `prof`.
   */
  class AchievementStore {
    const catalog: map<string, int>
    var rows: seq<Held>
    var profiles: map<int, UserProfile>
    ghost var prof: map<int, Profile>

    /** Distinct users have distinct profile objects, mirrored by `prof`. */
    ghost predicate Tie()
      reads this, profiles.Values
    {
      (forall u, v :: u in profiles && v in profiles && u != v ==> profiles[u] != profiles[v])
      && prof.Keys == profiles.Keys
      && (forall u :: u in profiles ==> profiles[u].Row() == prof[u])
    }

    ghost predicate Valid()
      reads this, profiles.Values
    {
      Tie() && Consistent(State(), catalog)
    }

    ghost function State(): GameState
      reads this
    {
      GameState(rows, prof)
    }

    constructor (catalog: map<string, int>)
      ensures Valid()
      ensures this.catalog == catalog && rows == [] && profiles == map[] && prof == map[]
    {
      this.catalog := catalog;
      rows := [];
      profiles := map[];
      prof := map[];
    }

    /** `UserProfile.objects.get_or_create(user=u)`. */
    method GetOrCreateProfile(u: int, now: int) returns (p: UserProfile)
      requires Tie()
      modifies this
      ensures Tie()
      ensures u in profiles && p == profiles[u]
      ensures State() == WithProfile(old(State()), u, now)
      ensures forall o | o in profiles.Values :: o in old(profiles.Values) || fresh(o)
      ensures old(Consistent(State(), catalog)) ==> Consistent(State(), catalog)
    {
      if Consistent(State(), catalog) {
        WithProfileConsistent(State(), catalog, u, now);
      }
      if u in profiles {
        p := profiles[u];
      } else {
        p := new UserProfile(now);
        profiles := profiles[u := p];
        prof := prof[u := p.Row()];
      }
    }

    /**
     * `award_achievement`: true exactly when a new row is created, and only
     * then are the achievement's points added to the profile.
     */
    method Award(u: int, name: string, now: int) returns (created: bool)
      requires Valid()
      modifies this, profiles.Values
      ensures Valid()
      ensures created <==> name in catalog && Held(u, name) !in old(rows)
      ensures State() == Awarded(old(State()), catalog, u, name, now)
      ensures forall o | o in profiles.Values :: o in old(profiles.Values) || fresh(o)
    {
      ghost var target := Awarded(State(), catalog, u, name, now);
      AwardedConsistent(State(), catalog, u, name, now);
      if name !in catalog {
        // Achievement.DoesNotExist is caught: nothing changes.
        return false;
      }
      if Held(u, name) in rows {
        return false;
      }
      rows := rows + [Held(u, name)];
      var _ := GetOrCreateProfile(u, now);
      AddPointsTo(u, catalog[name]);
      created := true;
      assert State() == target;
    }

    /** `profile.add_points(points)` on user `u`'s profile; no other profile changes. */
    method AddPointsTo(u: int, points: int)
      requires Tie() && u in profiles
      modifies profiles[u], `prof
      ensures Tie()
      ensures prof == old(prof)[u := old(prof[u]).(points := old(prof[u].points) + points,
                                                   level := LevelFor(old(prof[u].points) + points))]
    {
      var p := profiles[u];
      p.AddPoints(points);
      prof := prof[u := p.Row()];
    }
  }

  /**
   * One guarded call of the receivers and of the command: award `name` when
   * `due` holds, appending it to `awarded` when a row is created. The ghost
   * `names` lists the names tried so far since state `s1`.
   */
  method AwardWhen(g: AchievementStore, ghost s1: GameState, ghost names: seq<string>,
                   due: bool, u: int, name: string, now: int, awarded: seq<string>)
    returns (r: seq<string>)
    requires g.Valid() && g.State() == AwardSeq(s1, g.catalog, u, names, now)
    requires |s1.rows| <= |g.rows| && |awarded| == |g.rows| - |s1.rows|
    modifies g, g.profiles.Values
    ensures g.Valid()
    ensures g.State() == AwardSeq(s1, g.catalog, u, names + (if due then [name] else []), now)
    ensures |r| == |g.rows| - |s1.rows|
    ensures forall o | o in g.profiles.Values :: o in old(g.profiles.Values) || fresh(o)
  {
    r := awarded;
    if due {
      var created := g.Award(u, name, now);
      assert (names + [name])[..|names|] == names;
      if created {
        r := r + [name];
      }
    } else {
      assert names + [] == names;
    }
  }

  /** The `post_save` receiver for a new `User`: create the profile. */
  method OnUserCreated(g: AchievementStore, u: int, created: bool, now: int)
    requires g.Valid()
    modifies g
    ensures g.Valid()
    ensures g.State() == (if created then WithProfile(old(g.State()), u, now) else old(g.State()))
  {
    if created {
      var _ := g.GetOrCreateProfile(u, now);
    }
  }

  /** The `user_logged_in` receiver. */
  method OnLogin(g: AchievementStore, u: int, now: int)
    requires g.Valid()
    modifies g, g.profiles.Values
    ensures g.Valid()
    ensures g.State() == LoggedIn(old(g.State()), g.catalog, u, now)
  {
    ghost var s0 := g.State();
    var _ := AwardWhen(g, s0, [], true, u, "first_login", now, []);
    var p := g.GetOrCreateProfile(u, now);
    ghost var s2 := g.State();
    p.Touch(now);
    g.prof := g.prof[u := p.Row()];
    TouchedConsistent(s2, g.catalog, u, now);
  }

  /** The `post_save` receiver for any saved `User`: 'profile_complete' when the profile is complete. */
  method OnUserSaved(g: AchievementStore, u: User, now: int)
    requires g.Valid()
    modifies g, g.profiles.Values
    ensures g.Valid()
    ensures g.State() == AwardSeq(old(g.State()), g.catalog, u.id, ProfileDue(u), now)
  {
    var _ := AwardWhen(g, g.State(), [], ProfileComplete(u), u.id, "profile_complete", now, []);
  }

  /** The `favorites` receiver; `count` is the list's size after the change. */
  method OnFavoritesChanged(g: AchievementStore, u: int, action: string, count: int, now: int)
    requires g.Valid()
    modifies g, g.profiles.Values
    ensures g.Valid()
    ensures g.State() == AwardSeq(old(g.State()), g.catalog, u, FavoritesDue(action, count), now)
  {
    var _ := AwardWhen(g, g.State(), [], action == PostAdd && count >= 5, u, "favorite_collector", now, []);
  }

  /** The `applied` receiver: 'first_application' at 1, 'application_master' at 10. */
  method OnAppliedChanged(g: AchievementStore, u: int, action: string, count: int, now: int)
    requires g.Valid()
    modifies g, g.profiles.Values
    ensures g.Valid()
    ensures g.State() == AwardSeq(old(g.State()), g.catalog, u, AppliedDue(action, count), now)
  {
    if action == PostAdd {
      ghost var s0 := g.State();
      var a := AwardWhen(g, s0, [], count >= 1, u, "first_application", now, []);
      ghost var names := [] + (if count >= 1 then ["first_application"] else []);
      a := AwardWhen(g, s0, names, count >= 10, u, "application_master", now, a);
    }
  }

  /** The `accepted` receiver. */
  method OnAcceptedChanged(g: AchievementStore, u: int, action: string, count: int, now: int)
    requires g.Valid()
    modifies g, g.profiles.Values
    ensures g.Valid()
    ensures g.State() == AwardSeq(old(g.State()), g.catalog, u, AcceptedDue(action, count), now)
  {
    var _ := AwardWhen(g, g.State(), [], action == PostAdd && count >= 1, u, "first_acceptance", now, []);
  }

  /** The `visa_approved` receiver. */
  method OnVisaChanged(g: AchievementStore, u: int, action: string, count: int, now: int)
    requires g.Valid()
    modifies g, g.profiles.Values
    ensures g.Valid()
    ensures g.State() == AwardSeq(old(g.State()), g.catalog, u, VisaDue(action, count), now)
  {
    var _ := AwardWhen(g, g.State(), [], action == PostAdd && count >= 1, u, "visa_ready", now, []);
  }

  /** One user of the command; `awarded` is `awarded_this_user`. */
  method RetroStep(g: AchievementStore, u: User, dash: map<int, DashFacts>, now: int) returns (awarded: seq<string>)
    requires g.Valid()
    modifies g, g.profiles.Values
    ensures g.Valid()
    ensures g.State() == RetroUser(old(g.State()), g.catalog, u, dash, now)
    ensures |awarded| == |g.rows| - |old(g.rows)|
    ensures forall o | o in g.profiles.Values :: o in old(g.profiles.Values) || fresh(o)
  {
    if u.id !in dash {
      // UserDashboard.DoesNotExist: the user is skipped.
      return [];
    }
    var f := dash[u.id];
    var _ := g.GetOrCreateProfile(u.id, now);
    ghost var s1 := g.State();
    awarded := TryFirst(g, s1, u, f, now);
    awarded := TryRest(g, s1, u, f, now, awarded);
  }

  /** The command's first four checks for one user, from state `s1`. */
  method TryFirst(g: AchievementStore, ghost s1: GameState, u: User, f: DashFacts, now: int) returns (awarded: seq<string>)
    requires g.Valid() && g.State() == s1
    modifies g, g.profiles.Values
    ensures g.Valid()
    ensures g.State() == AwardSeq(s1, g.catalog, u.id, DueFirst(u, f), now)
    ensures |s1.rows| <= |g.rows| && |awarded| == |g.rows| - |s1.rows|
    ensures forall o | o in g.profiles.Values :: o in old(g.profiles.Values) || fresh(o)
  {
    ghost var names: seq<string> := [];
    awarded := AwardWhen(g, s1, names, f.status == StatusActive, u.id, "first_login", now, []);
    names := names + (if f.status == StatusActive then ["first_login"] else []);
    awarded := AwardWhen(g, s1, names, ProfileComplete(u), u.id, "profile_complete", now, awarded);
    names := names + (if ProfileComplete(u) then ["profile_complete"] else []);
    awarded := AwardWhen(g, s1, names, f.favorites >= 5, u.id, "favorite_collector", now, awarded);
    names := names + (if f.favorites >= 5 then ["favorite_collector"] else []);
    awarded := AwardWhen(g, s1, names, f.applied >= 1, u.id, "first_application", now, awarded);
    names := names + (if f.applied >= 1 then ["first_application"] else []);
    assert names == DueFirst(u, f);
  }

  /** The command's last three checks. */
  method TryRest(g: AchievementStore, ghost s1: GameState, u: User, f: DashFacts, now: int, awarded0: seq<string>)
    returns (awarded: seq<string>)
    requires g.Valid() && g.State() == AwardSeq(s1, g.catalog, u.id, DueFirst(u, f), now)
    requires |s1.rows| <= |g.rows| && |awarded0| == |g.rows| - |s1.rows|
    modifies g, g.profiles.Values
    ensures g.Valid()
    ensures g.State() == AwardSeq(s1, g.catalog, u.id, DueList(u, f), now)
    ensures |awarded| == |g.rows| - |s1.rows|
    ensures forall o | o in g.profiles.Values :: o in old(g.profiles.Values) || fresh(o)
  {
    ghost var names := DueFirst(u, f);
    awarded := AwardWhen(g, s1, names, f.applied >= 10, u.id, "application_master", now, awarded0);
    names := names + (if f.applied >= 10 then ["application_master"] else []);
    awarded := AwardWhen(g, s1, names, f.accepted >= 1, u.id, "first_acceptance", now, awarded);
    names := names + (if f.accepted >= 1 then ["first_acceptance"] else []);
    awarded := AwardWhen(g, s1, names, f.visa >= 1, u.id, "visa_ready", now, awarded);
    names := names + (if f.visa >= 1 then ["visa_ready"] else []);
    assert names == DueList(u, f);
  }

  /**
   * `award_retroactive_achievements`: `achievementsAwarded` is the number of
   * rows created and `usersUpdated` the number of users who got at least one.
   */
  method AwardRetroactive(g: AchievementStore, users: seq<User>, dash: map<int, DashFacts>, now: int)
    returns (usersUpdated: nat, achievementsAwarded: nat)
    requires g.Valid()
    modifies g, g.profiles.Values
    ensures g.Valid()
    ensures g.State() == RetroAll(old(g.State()), g.catalog, users, dash, now)
    ensures achievementsAwarded == |g.rows| - |old(g.rows)|
    ensures usersUpdated == UsersUpdated(old(g.State()), g.catalog, users, dash, now)
  {
    usersUpdated, achievementsAwarded := 0, 0;
    ghost var s0 := g.State();
    var i := 0;
    while i < |users|
      invariant 0 <= i <= |users|
      invariant g.Valid()
      invariant g.State() == RetroAll(s0, g.catalog, users[..i], dash, now)
      invariant usersUpdated == UsersUpdated(s0, g.catalog, users[..i], dash, now)
      invariant achievementsAwarded == |g.rows| - |old(g.rows)|
      invariant forall o | o in g.profiles.Values :: o in old(g.profiles.Values) || fresh(o)
    {
      var awarded := RetroStep(g, users[i], dash, now);
      if |awarded| > 0 {
        usersUpdated := usersUpdated + 1;
        achievementsAwarded := achievementsAwarded + |awarded|;
      }
      assert users[..i + 1][..i] == users[..i];
      i := i + 1;
    }
    assert users[..i] == users;
  }
}
