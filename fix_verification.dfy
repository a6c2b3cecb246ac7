// The `fix_payment_verification` management command: every user who has a
// successful payment and an active but unverified dashboard is marked
// verified, and the command reports how many it fixed.
module FixVerificationSpec {
  import opened Common
  import opened Subscription
  import opened PaymentLedger

  /** The distinct `user_id`s of the rows with status 'success' (fix_payment_verification.py:11). */
  function PaidUsers(ps: map<TxRef, Payment>): set<int>
  {
    set t | t in ps && ps[t].status == Success :: ps[t].user
  }

  /** A dashboard the command repairs: active but not verified (fix_payment_verification.py:19). */
  predicate Unverified(sub: Snapshot)
  {
    !sub.verified && sub.status == StatusActive
  }

  /** The dashboard after the command has looked at it. */
  function Repaired(sub: Snapshot): (r: Snapshot)
    ensures r.verified == (sub.verified || sub.status == StatusActive)
    ensures r.(verified := sub.verified) == sub
    ensures !Unverified(r)
  {
    if Unverified(sub) then sub.(verified := true) else sub
  }

  /** The ids in `done` that name an existing user; the others raise `DoesNotExist` and are skipped. */
  function Known(users: seq<User>, done: set<int>): set<int>
  {
    set u | u in done && FindById(users, u).Some?
  }

  /** The state once the ids in `done` have been visited: each existing user has a dashboard, repaired. */
  function Visited(s: LedgerState, users: seq<User>, done: set<int>): LedgerState
  {
    var k := Known(users, done);
    s.(subs := map u | u in s.subs.Keys + k :: if u in k then Repaired(SubOr(s.subs, u)) else s.subs[u],
       lists := map u | u in s.lists.Keys + k :: if u in s.lists then s.lists[u] else NoLists)
  }

  /** The ids in `done` whose dashboards the visit repairs: `fixed_count` counts these. */
  function Fixes(s: LedgerState, users: seq<User>, done: set<int>): set<int>
  {
    set u | u in Known(users, done) && Unverified(SubOr(s.subs, u))
  }

  /** Before the loop nothing has been visited. */
  lemma VisitedStart(s: LedgerState, users: seq<User>)
    ensures Visited(s, users, {}) == s && Fixes(s, users, {}) == {}
  {
    assert Known(users, {}) == {};
    assert Visited(s, users, {}).subs == s.subs;
    assert Visited(s, users, {}).lists == s.lists;
  }

  /** Visiting an id that names no user changes nothing. */
  lemma VisitUnknown(s: LedgerState, users: seq<User>, done: set<int>, t: int)
    requires FindById(users, t).None?
    ensures Visited(s, users, done + {t}) == Visited(s, users, done)
    ensures Fixes(s, users, done + {t}) == Fixes(s, users, done)
  {
    assert Known(users, done + {t}) == Known(users, done);
  }

  /** The known ids grow by an existing user's id. */
  lemma KnownAdd(users: seq<User>, done: set<int>, t: int)
    requires FindById(users, t).Some?
    ensures Known(users, done + {t}) == Known(users, done) + {t}
  {
  }

  /** Repairs of the users visited so far, and `t`'s when it needs one. */
  lemma FixesAdd(s: LedgerState, users: seq<User>, done: set<int>, t: int)
    requires FindById(users, t).Some? && t !in done
    ensures Fixes(s, users, done + {t})
         == if Unverified(SubOr(s.subs, t)) then Fixes(s, users, done) + {t} else Fixes(s, users, done)
    ensures t !in Fixes(s, users, done)
  {
    KnownAdd(users, done, t);
  }

  /** `get_or_create` of `t`'s dashboard, then the repair. */
  function Checked(v: LedgerState, t: int): LedgerState
  {
    var w := WithDash(v, t);
    WithSub(w, t, Repaired(w.subs[t]))
  }

  /** One entry of the subscription map after visiting `t` as well. */
  lemma SubsAddAt(s: LedgerState, users: seq<User>, done: set<int>, t: int, u: int)
    requires FindById(users, t).Some? && t !in done
    requires u in Visited(s, users, done + {t}).subs
    ensures var a := Checked(Visited(s, users, done), t).subs;
      u in a && a[u] == Visited(s, users, done + {t}).subs[u]
  {
    KnownAdd(users, done, t);
  }

  /** The subscription map after visiting `t` as well. */
  lemma SubsAdd(s: LedgerState, users: seq<User>, done: set<int>, t: int)
    requires FindById(users, t).Some? && t !in done
    ensures SubOr(Visited(s, users, done).subs, t) == SubOr(s.subs, t)
    ensures Checked(Visited(s, users, done), t).subs == Visited(s, users, done + {t}).subs
  {
    KnownAdd(users, done, t);
    var a := Checked(Visited(s, users, done), t).subs;
    var b := Visited(s, users, done + {t}).subs;
    assert SubOr(Visited(s, users, done).subs, t) == SubOr(s.subs, t);
    forall u | u in a
      ensures u in b
    {
    }
    forall u | u in b
      ensures a[u] == b[u]
    {
      SubsAddAt(s, users, done, t, u);
    }
  }

  /** The list map after visiting `t` as well. */
  lemma ListsAdd(s: LedgerState, users: seq<User>, done: set<int>, t: int)
    requires FindById(users, t).Some? && t !in done
    ensures Checked(Visited(s, users, done), t).lists == Visited(s, users, done + {t}).lists
  {
    KnownAdd(users, done, t);
    var a := Checked(Visited(s, users, done), t).lists;
    var b := Visited(s, users, done + {t}).lists;
    assert a.Keys == b.Keys;
  }

  /** Checking an existing user's id not seen before is visiting it. */
  lemma VisitKnown(s: LedgerState, users: seq<User>, done: set<int>, t: int)
    requires FindById(users, t).Some? && t !in done
    ensures SubOr(Visited(s, users, done).subs, t) == SubOr(s.subs, t)
    ensures Checked(Visited(s, users, done), t) == Visited(s, users, done + {t})
  {
    SubsAdd(s, users, done, t);
    ListsAdd(s, users, done, t);
  }

  /** What the command does to the ledger. */
  function AfterFixVerification(s: LedgerState, users: seq<User>): LedgerState
  {
    Visited(s, users, PaidUsers(s.payments))
  }

  /** Every visited user's dashboard is left repaired. */
  lemma VisitedRepaired(s: LedgerState, users: seq<User>, done: set<int>, u: int)
    requires u in Known(users, done)
    ensures var v := Visited(s, users, done);
      u in v.subs && v.subs[u] == Repaired(SubOr(s.subs, u)) && u in v.lists
  {
  }

  /** A second visit leaves the subscriptions as the first left them. */
  lemma SubsTwice(s: LedgerState, users: seq<User>, done: set<int>)
    ensures Visited(Visited(s, users, done), users, done).subs == Visited(s, users, done).subs
  {
    var once := Visited(s, users, done);
    var twice := Visited(once, users, done);
    forall u | u in Known(users, done)
      ensures u in once.subs && twice.subs[u] == once.subs[u]
    {
      VisitedRepaired(s, users, done, u);
    }
  }

  /** A second visit leaves the lists as the first left them. */
  lemma ListsTwice(s: LedgerState, users: seq<User>, done: set<int>)
    ensures Visited(Visited(s, users, done), users, done).lists == Visited(s, users, done).lists
  {
    var once := Visited(s, users, done);
    var twice := Visited(once, users, done);
    assert twice.lists.Keys == once.lists.Keys;
  }

  /** After a visit, no visited dashboard needs repair. */
  lemma FixesNone(s: LedgerState, users: seq<User>, done: set<int>)
    ensures Fixes(Visited(s, users, done), users, done) == {}
  {
    forall u | u in Known(users, done)
      ensures !Unverified(SubOr(Visited(s, users, done).subs, u))
    {
      VisitedRepaired(s, users, done, u);
    }
  }

  /** Visiting the same ids twice is visiting them once. */
  lemma VisitedTwice(s: LedgerState, users: seq<User>, done: set<int>)
    ensures Visited(Visited(s, users, done), users, done) == Visited(s, users, done)
    ensures Fixes(Visited(s, users, done), users, done) == {}
  {
    SubsTwice(s, users, done);
    ListsTwice(s, users, done);
    FixesNone(s, users, done);
  }

  /** A second run fixes nobody and changes nothing. */
  lemma FixVerificationIdempotent(s: LedgerState, users: seq<User>)
    ensures var once := AfterFixVerification(s, users);
      Fixes(once, users, PaidUsers(once.payments)) == {}
      && AfterFixVerification(once, users) == once
  {
    VisitedTwice(s, users, PaidUsers(s.payments));
  }

  /**
   * After the command, every existing user with a successful payment whose
   * dashboard is active is verified, and nothing but `is_verified` changed.
   */
  lemma PaidActiveAreVerified(s: LedgerState, users: seq<User>, u: int)
    requires u in PaidUsers(s.payments) && FindById(users, u).Some?
    ensures var r := AfterFixVerification(s, users);
      u in r.subs && r.subs[u].(verified := SubOr(s.subs, u).verified) == SubOr(s.subs, u)
      && (r.subs[u].status == StatusActive ==> r.subs[u].verified)
  {
    assert u in Known(users, PaidUsers(s.payments));
  }
}

// The command's loop, run against the ledger.
module FixPaymentVerification {
  import opened Common
  import opened Subscription
  import opened PaymentLedger
  import opened FixVerificationSpec

  /** Part way through the loop: the ids in `done`, a part of `ids`, have been visited. */
  ghost predicate Partway(l: Ledger, s1: LedgerState, users: seq<User>, ids: set<int>, done: set<int>)
    reads l, l.dashboards.Values
  {
    l.Valid() && l.users == users && done <= ids
    && l.State() == Visited(s1, users, done)
  }

  /** `Command.handle`: returns `fixed_count`. */
  method FixVerification(l: Ledger) returns (fixedCount: nat)
    requires l.Valid()
    modifies l, l.dashboards.Values
    ensures l.Valid()
    ensures l.State() == AfterFixVerification(old(l.State()), l.users)
    ensures fixedCount == |Fixes(old(l.State()), l.users, PaidUsers(old(l.payments)))|
    ensures l.users == old(l.users) && l.drafts == old(l.drafts)
  {
    ghost var s1 := l.State();
    var ids := PaidUsers(l.payments);
    var rest := ids;
    fixedCount := 0;
    VisitedStart(s1, l.users);
    assert ids - rest == {};
    while rest != {}
      invariant rest <= ids && Partway(l, s1, old(l.users), ids, ids - rest)
      invariant fixedCount == |Fixes(s1, old(l.users), ids - rest)|
      invariant l.drafts == old(l.drafts)
      invariant forall o | o in l.dashboards.Values :: o in old(l.dashboards.Values) || fresh(o)
      decreases rest
    {
      var t :| t in rest;
      var fixed := Visit(l, s1, old(l.users), ids, rest, t);
      if fixed {
        fixedCount := fixedCount + 1;
      }
      rest := rest - {t};
    }
    assert ids - rest == ids;
  }

  /** One pass of the loop, for the user id `t`. */
  method Visit(l: Ledger, ghost s1: LedgerState, ghost users: seq<User>, ghost ids: set<int>, ghost rest: set<int>,
               t: int) returns (fixed: bool)
    requires rest <= ids && t in rest && Partway(l, s1, users, ids, ids - rest)
    modifies l, l.dashboards.Values
    ensures rest - {t} <= ids && Partway(l, s1, users, ids, ids - (rest - {t}))
    ensures Fixes(s1, users, ids - (rest - {t}))
         == if fixed then Fixes(s1, users, ids - rest) + {t} else Fixes(s1, users, ids - rest)
    ensures t !in Fixes(s1, users, ids - rest)
    ensures l.drafts == old(l.drafts)
    ensures forall o | o in l.dashboards.Values :: o in old(l.dashboards.Values) || fresh(o)
  {
    ghost var done := ids - rest;
    assert ids - (rest - {t}) == done + {t};
    var user := FindById(l.users, t);
    if user.None? {
      VisitUnknown(s1, users, done, t);
      return false;
    }
    FixesAdd(s1, users, done, t);
    VisitKnown(s1, users, done, t);
    fixed := VisitUser(l, t);
  }

  /** The pass for an id that names a user: `get_or_create` of the dashboard, then the repair. */
  method VisitUser(l: Ledger, t: int) returns (fixed: bool)
    requires l.Valid()
    modifies l, l.dashboards.Values
    ensures l.Valid() && l.users == old(l.users) && l.drafts == old(l.drafts)
    ensures l.State() == Checked(old(l.State()), t)
    ensures fixed == Unverified(SubOr(old(l.subs), t))
    ensures forall o | o in l.dashboards.Values :: o in old(l.dashboards.Values) || fresh(o)
  {
    var d := l.GetOrCreateDashboard(t);
    fixed := RepairDashboard(l, t);
  }

  /** The check on one dashboard: verified when active and unverified; `fixed` says whether it was. */
  method RepairDashboard(l: Ledger, t: int) returns (fixed: bool)
    requires l.Valid() && t in l.dashboards
    modifies l, l.dashboards[t]
    ensures l.Valid() && l.users == old(l.users) && l.drafts == old(l.drafts) && l.dashboards == old(l.dashboards)
    ensures fixed == Unverified(old(l.subs[t]))
    ensures l.State() == WithSub(old(l.State()), t, Repaired(old(l.subs[t])))
  {
    var d := l.dashboards[t];
    if !d.isVerified && d.status == StatusActive {
      l.MarkVerified(t);
      fixed := true;
    } else {
      assert l.subs[t := l.subs[t]] == l.subs;
      fixed := false;
    }
  }
}
