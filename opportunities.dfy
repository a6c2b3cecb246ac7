// opportunities: the admin's approve/reject of an opportunity, the
// subscription attribution with its counters, the detail view's view
// tracking and serializer choice, the client IP, and the creator
// application flow of opportunities/admin_views.py.
module Opportunities {
  import opened Common
  import opened Text
  import opened Subscription

  const Draft: string := "draft"
  const Pending: string := "pending"
  const Published: string := "published"
  const Rejected: string := "rejected"
  const Approved: string := "approved"

  /** An `Opportunity`; `creator` is the author's user id. */
  datatype Opportunity = Opportunity(creator: int, title: string, status: string, viewsCount: int, subscribersGained: int)

  /** A `SubscriptionAttribution`, keyed by (user, creator). */
  datatype Attribution = Attribution(opportunity: int, start: int, isActive: bool)

  /** A `CreatorProfile`, keyed by user id. */
  datatype CreatorProfile = CreatorProfile(expertise: seq<string>, activeSubscribers: int, isApprovedCreator: bool)

  /** An `OpportunityView` row, unique per (opportunity, user, ip); anonymous views have no user. */
  datatype ViewRow = ViewRow(opportunity: int, user: Option<int>, ip: string)

  /** The tables a subscription touches. */
  datatype SubState = SubState(
    opportunities: map<int, Opportunity>,
    attributions: map<(int, int), Attribution>,
    profiles: map<int, CreatorProfile>)

  /**
   * The effect of `subscribe_from_opportunity` once its guards pass: the
   * (user, creator) attribution is got-or-created, and only when it is new
   * do the opportunity's `subscribers_gained` and the creator's
   * `active_subscribers` (when the creator has a profile) go up by one.
   */
  function Subscribed(s: SubState, uid: int, oid: int, now: int): SubState
    requires oid in s.opportunities
  {
    var o := s.opportunities[oid];
    var key := (uid, o.creator);
    if key in s.attributions then s
    else
      SubState(
        s.opportunities[oid := o.(subscribersGained := o.subscribersGained + 1)],
        s.attributions[key := Attribution(oid, now, true)],
        if o.creator in s.profiles
        then s.profiles[o.creator := s.profiles[o.creator].(activeSubscribers := s.profiles[o.creator].activeSubscribers + 1)]
        else s.profiles)
  }

  /**
   * A repeated subscription changes nothing, and the counters go up by
   * exactly one precisely when the attribution is new.
   */
  lemma SubscribeRepeat(s: SubState, uid: int, oid: int, now: int, later: int)
    requires oid in s.opportunities
    ensures var once := Subscribed(s, uid, oid, now);
      oid in once.opportunities && Subscribed(once, uid, oid, later) == once
    ensures var once := Subscribed(s, uid, oid, now);
      var isNew := (uid, s.opportunities[oid].creator) !in s.attributions;
      once.opportunities[oid].subscribersGained == s.opportunities[oid].subscribersGained + (if isNew then 1 else 0)
      && once.opportunities[oid].status == s.opportunities[oid].status
      && (forall c :: c in s.profiles ==>
            c in once.profiles
            && once.profiles[c].activeSubscribers
               == s.profiles[c].activeSubscribers + (if isNew && c == s.opportunities[oid].creator then 1 else 0))
  {
  }

  /** `_get_client_ip`: the text before the first comma of X-Forwarded-For (not stripped), else REMOTE_ADDR. */
  function ClientIp(forwardedFor: Option<string>, remoteAddr: Option<string>): Option<string>
  {
    if Truthy(forwardedFor) then Some(Split(forwardedFor.value, ',')[0]) else remoteAddr
  }

  /** The forwarded address is the prefix of the header up to its first comma (all of it when there is none). */
  lemma ClientIpRule(forwardedFor: Option<string>, remoteAddr: Option<string>)
    ensures !Truthy(forwardedFor) ==> ClientIp(forwardedFor, remoteAddr) == remoteAddr
    ensures Truthy(forwardedFor) ==>
      var h := forwardedFor.value;
      var ip := ClientIp(forwardedFor, remoteAddr);
      ip.Some? && ip.value == h[..IndexOf(h, ',')] && ',' !in ip.value
      && (',' !in h ==> ip.value == h)
  {
    if Truthy(forwardedFor) {
      var h := forwardedFor.value;
      var k := IndexOf(h, ',');
      assert forall i :: 0 <= i < k ==> h[..k][i] == h[i];
      if ',' !in h {
        assert k == |h|;
      }
    }
  }

  /** Who asks: an anonymous visitor, or a user with the status of their dashboard if they have one. */
  datatype Viewer = Anonymous | Member(id: int, dashStatus: Option<string>)

  /** The subscription check of the detail view. */
  predicate HasSubscription(v: Viewer)
  {
    v.Member? && v.dashStatus == Some(StatusActive)
  }

  /** The detail reply: which serializer was used, and the two flags added to it. */
  datatype Detail = Detail(full: bool, userHasSubscription: bool, subscriptionRequired: bool)

  /** `OpportunityDetailView.get_serializer_class` and the flags of `retrieve`. */
  function DetailFor(v: Viewer): (d: Detail)
    ensures d.full == d.userHasSubscription && d.subscriptionRequired == !d.userHasSubscription
    ensures d.full <==> v.Member? && v.dashStatus == Some(StatusActive)
  {
    var has := HasSubscription(v);
    Detail(if has then true else false, has, !has)
  }

  /** A creator application setting row of opportunities/models.py. */
  datatype AppSettings = AppSettings(applicationsOpen: bool, requirements: string)

  const DefaultAppSettings: AppSettings := AppSettings(false, "")

  /** An `opportunities.CreatorApplication`. */
  datatype Application = Application(
    user: int,
    motivation: string,
    expertise: seq<string>,
    experience: string,
    sampleContent: string,
    status: string,
    adminNotes: string,
    reviewedAt: Option<int>,
    reviewedBy: Option<int>)

  /**
   * The body of a creator application; a key the request leaves out is
   * None.
   */
  datatype ApplicationPayload = ApplicationPayload(
    motivation: Option<string>,
    expertise: Option<seq<string>>,
    experience: Option<string>,
    sampleContent: Option<string>)

  /** One entry of a serializer's error dict. */
  datatype FieldError = FieldError(field: string, message: string)

  const FieldRequired: string := "This field is required."
  const FieldBlank: string := "This field may not be blank."

  /**
   * The serializer's check of a required text field of a model field
   * without `blank=True`: the value is trimmed of surrounding whitespace,
   * and a missing or blank value is an error.
   */
  function TextFieldErrors(field: string, v: Option<string>): (es: seq<FieldError>)
    ensures |es| <= 1
    ensures es == [] <==> v.Some? && Strip(v.value) != []
    ensures forall k :: 0 <= k < |es| ==> es[k].field == field
  {
    if v.None? then [FieldError(field, FieldRequired)]
    else if Strip(v.value) == [] then [FieldError(field, FieldBlank)]
    else []
  }

  /**
   * `CreatorApplicationCreateSerializer` validation, in field order:
   * `expertise_areas` has a default and is never an error; the three text
   * fields are required and not blank.
   */
  function ApplicationErrors(p: ApplicationPayload): seq<FieldError>
  {
    TextFieldErrors("motivation", p.motivation) + TextFieldErrors("experience", p.experience)
      + TextFieldErrors("sample_content", p.sampleContent)
  }

  /** A present text value that is not blank once trimmed. */
  predicate Filled(v: Option<string>)
  {
    v.Some? && Strip(v.value) != []
  }

  /**
   * The payload is accepted exactly when all three text fields are filled;
   * otherwise there is one error per missing or blank field, each saying
   * which of the two it is.
   */
  lemma ApplicationErrorsRules(p: ApplicationPayload)
    ensures ApplicationErrors(p) == [] <==> Filled(p.motivation) && Filled(p.experience) && Filled(p.sampleContent)
    ensures |ApplicationErrors(p)| <= 3
    ensures forall k :: 0 <= k < |ApplicationErrors(p)| ==>
      ApplicationErrors(p)[k].field in {"motivation", "experience", "sample_content"}
      && ApplicationErrors(p)[k].message in {FieldRequired, FieldBlank}
    ensures !Filled(p.motivation) ==> ApplicationErrors(p)[0].field == "motivation"
  {
    var a, b, c := TextFieldErrors("motivation", p.motivation), TextFieldErrors("experience", p.experience),
      TextFieldErrors("sample_content", p.sampleContent);
    assert ApplicationErrors(p) == a + b + c;
    forall k | 0 <= k < |a + b + c|
      ensures (a + b + c)[k].field in {"motivation", "experience", "sample_content"}
      ensures (a + b + c)[k].message in {FieldRequired, FieldBlank}
    {
      if k < |a| {
        assert (a + b + c)[k] == a[k];
      } else if k < |a| + |b| {
        assert (a + b + c)[k] == b[k - |a|];
      } else {
        assert (a + b + c)[k] == c[k - |a| - |b|];
      }
    }
  }

  /** The error dict as the reply's text: one "field: message" line per error. */
  function ErrorsText(es: seq<FieldError>): string
  {
    if es == [] then ""
    else
      var line := es[0].field + ": " + es[0].message;
      if |es| == 1 then line else line + "\n" + ErrorsText(es[1..])
  }

  /** The application the serializer saves for a valid payload, its text fields trimmed. */
  function NewApplication(uid: int, p: ApplicationPayload): Application
    requires Filled(p.motivation) && Filled(p.experience) && Filled(p.sampleContent)
  {
    Application(uid, Strip(p.motivation.value), if p.expertise.Some? then p.expertise.value else [],
                Strip(p.experience.value), Strip(p.sampleContent.value), Pending, "", None, None)
  }

  /** What `creator_application_status` reports. */
  datatype StatusReport = StatusReport(applicationsOpen: bool, hasApplication: bool, canApply: bool)

  /** Whether `uid` has an application. */
  predicate HasApplied(applications: map<int, Application>, uid: int)
  {
    exists id :: id in applications && applications[id].user == uid
  }

  /**
   * The review of `admin_review_application` on the application and the
   * creator profiles: approve makes the applicant an approved creator
   * (creating the profile with the application's expertise if needed),
   * reject leaves profiles alone; either way notes, time and reviewer are
   * recorded. Any other action is None.
   */
  function Reviewed(a: Application, profiles: map<int, CreatorProfile>, action: string, notes: string, reviewer: int, now: int)
    : Option<(Application, map<int, CreatorProfile>)>
  {
    var stamped := a.(adminNotes := notes, reviewedAt := Some(now), reviewedBy := Some(reviewer));
    if action == "approve" then
      var p := if a.user in profiles then profiles[a.user].(isApprovedCreator := true)
               else CreatorProfile(a.expertise, 0, true);
      Some((stamped.(status := Approved), profiles[a.user := p]))
    else if action == "reject" then Some((stamped.(status := Rejected), profiles))
    else None
  }

  /**
   * After approval the applicant's profile exists and is approved, whether
   * it was created or already there, and its other fields are kept;
   * rejection and approval both record the notes and the reviewer; no other
   * user's profile changes.
   */
  lemma ReviewRules(a: Application, profiles: map<int, CreatorProfile>, action: string, notes: string, reviewer: int, now: int)
    ensures Reviewed(a, profiles, action, notes, reviewer, now).None? <==> action != "approve" && action != "reject"
    ensures var r := Reviewed(a, profiles, action, notes, reviewer, now);
      r.Some? ==> r.value.0.adminNotes == notes && r.value.0.reviewedAt == Some(now) && r.value.0.reviewedBy == Some(reviewer)
                  && r.value.0.user == a.user && r.value.0.motivation == a.motivation
                  && (forall u :: u != a.user ==>
                        (u in r.value.1 <==> u in profiles)
                        && (u in profiles ==> r.value.1[u] == profiles[u]))
    ensures var r := Reviewed(a, profiles, action, notes, reviewer, now);
      action == "approve" ==>
        r.value.0.status == Approved && a.user in r.value.1 && r.value.1[a.user].isApprovedCreator
        && (a.user in profiles ==> r.value.1[a.user] == profiles[a.user].(isApprovedCreator := true))
    ensures var r := Reviewed(a, profiles, action, notes, reviewer, now);
      action == "reject" ==> r.value.0.status == Rejected && r.value.1 == profiles
  {
  }

  /** The opportunities app's tables. */
  class OpportunityBoard {
    var opportunities: map<int, Opportunity>
    var attributions: map<(int, int), Attribution>
    var profiles: map<int, CreatorProfile>
    var views: set<ViewRow>
    var settings: seq<AppSettings>
    var applications: map<int, Application>
    var nextApplication: int

    /** At most one application per user, and application ids below the next one. */
    ghost predicate Valid()
      reads this
    {
      (forall i, j :: i in applications && j in applications && i != j ==> applications[i].user != applications[j].user)
      && (forall i :: i in applications ==> i < nextApplication)
    }

    ghost function Subs(): SubState
      reads this
    {
      SubState(opportunities, attributions, profiles)
    }

    constructor (opportunities: map<int, Opportunity>, profiles: map<int, CreatorProfile>)
      ensures Valid() && this.opportunities == opportunities && this.profiles == profiles
      ensures attributions == map[] && views == {} && settings == [] && applications == map[]
    {
      this.opportunities := opportunities;
      this.profiles := profiles;
      attributions := map[];
      views := {};
      settings := [];
      applications := map[];
      nextApplication := 1;
    }

    /** `admin_approve_opportunity`: approve publishes, reject rejects, anything else is 400 with no save. */
    method ApproveOpportunity(oid: int, action: string) returns (r: Reply)
      modifies this`opportunities
      ensures oid !in old(opportunities) ==> r.code == 404 && opportunities == old(opportunities)
      ensures oid in old(opportunities) && action == "approve" ==>
        r.code == 200 && opportunities == old(opportunities)[oid := old(opportunities)[oid].(status := Published)]
      ensures oid in old(opportunities) && action == "reject" ==>
        r.code == 200 && opportunities == old(opportunities)[oid := old(opportunities)[oid].(status := Rejected)]
      ensures oid in old(opportunities) && action != "approve" && action != "reject" ==>
        r.code == 400 && opportunities == old(opportunities)
    {
      if oid !in opportunities {
        return Reply(404, "Not found.");
      }
      var o := opportunities[oid];
      if action == "approve" {
        o := o.(status := Published);
      } else if action == "reject" {
        o := o.(status := Rejected);
      } else {
        return Reply(400, "Invalid action");
      }
      opportunities := opportunities[oid := o];
      r := Reply(200, "Opportunity " + action + "d successfully");
    }

    /**
     * `subscribe_from_opportunity`: 404 unless the opportunity is published,
     * 400 for a user whose dashboard is active, otherwise the attribution
     * step.
     */
    method Subscribe(uid: int, dashStatus: Option<string>, oid: int, now: int) returns (r: Reply)
      modifies this`opportunities, this`attributions, this`profiles
      ensures !(oid in old(opportunities) && old(opportunities)[oid].status == Published) ==>
        r.code == 404 && Subs() == old(Subs())
      ensures oid in old(opportunities) && old(opportunities)[oid].status == Published && dashStatus == Some(StatusActive) ==>
        r.code == 400 && Subs() == old(Subs())
      ensures oid in old(opportunities) && old(opportunities)[oid].status == Published && dashStatus != Some(StatusActive) ==>
        r.code == 200 && Subs() == Subscribed(old(Subs()), uid, oid, now)
    {
      if !(oid in opportunities && opportunities[oid].status == Published) {
        return Reply(404, "Not found.");
      }
      if dashStatus == Some(StatusActive) {
        return Reply(400, "User already has active subscription");
      }
      var o := opportunities[oid];
      var key := (uid, o.creator);
      if key !in attributions {
        attributions := attributions[key := Attribution(oid, now, true)];
        opportunities := opportunities[oid := o.(subscribersGained := o.subscribersGained + 1)];
        if o.creator in profiles {
          var p := profiles[o.creator];
          profiles := profiles[o.creator := p.(activeSubscribers := p.activeSubscribers + 1)];
        }
      }
      r := Reply(200, "Subscription attribution created");
    }

    /**
     * `OpportunityDetailView.retrieve`: 404 unless published; otherwise the
     * view is got-or-created, `views_count` goes up by exactly one and the
     * reply carries the serializer choice.
     */
    method Retrieve(oid: int, viewer: Viewer, ip: string) returns (r: Result<Detail, Reply>)
      modifies this`opportunities, this`views
      ensures !(oid in old(opportunities) && old(opportunities)[oid].status == Published) ==>
        r == Err(Reply(404, "Not found.")) && opportunities == old(opportunities) && views == old(views)
      ensures oid in old(opportunities) && old(opportunities)[oid].status == Published ==>
        r == Ok(DetailFor(viewer))
        && opportunities == old(opportunities)[oid := old(opportunities)[oid].(viewsCount := old(opportunities)[oid].viewsCount + 1)]
        && views == old(views) + {ViewRow(oid, if viewer.Member? then Some(viewer.id) else None, ip)}
    {
      if !(oid in opportunities && opportunities[oid].status == Published) {
        return Err(Reply(404, "Not found."));
      }
      var row := ViewRow(oid, if viewer.Member? then Some(viewer.id) else None, ip);
      if row !in views {
        views := views + {row};
      }
      var o := opportunities[oid];
      opportunities := opportunities[oid := o.(viewsCount := o.viewsCount + 1)];
      r := Ok(DetailFor(viewer));
    }

    /** `CreatorApplicationSettings.objects.first()`, creating a default row when there is none. */
    method FirstSettings() returns (s: AppSettings)
      modifies this`settings
      ensures |settings| >= 1 && s == settings[0]
      ensures old(settings) == [] ==> settings == [DefaultAppSettings]
      ensures old(settings) != [] ==> settings == old(settings)
    {
      if settings == [] {
        settings := [DefaultAppSettings];
      }
      s := settings[0];
    }

    /** `creator_application_status`: `can_apply` iff applications are open and the user has none. */
    method ApplicationStatus(uid: int) returns (report: StatusReport)
      modifies this`settings
      ensures |settings| >= 1 && (old(settings) != [] ==> settings == old(settings))
      ensures report.applicationsOpen == settings[0].applicationsOpen
      ensures report.hasApplication == HasApplied(applications, uid)
      ensures report.canApply <==> settings[0].applicationsOpen && !HasApplied(applications, uid)
    {
      var s := FirstSettings();
      var has := exists id | id in applications :: applications[id].user == uid;
      report := StatusReport(s.applicationsOpen, has, s.applicationsOpen && !has);
    }

    /**
     * `CreatorApplicationCreateView.create`: 400 when there are no settings
     * or they are closed, 400 when the user already applied, then the
     * serializer's 400 for a missing or blank text field; otherwise a
     * pending application is stored.
     */
    method CreateApplication(uid: int, p: ApplicationPayload) returns (r: Reply)
      requires Valid()
      modifies this`applications, this`nextApplication
      ensures Valid()
      ensures (settings == [] || !settings[0].applicationsOpen) ==>
        r == Reply(400, "Creator applications are currently closed") && applications == old(applications)
      ensures settings != [] && settings[0].applicationsOpen && HasApplied(old(applications), uid) ==>
        r == Reply(400, "You have already submitted an application") && applications == old(applications)
      ensures (settings != [] && settings[0].applicationsOpen && !HasApplied(old(applications), uid)
               && ApplicationErrors(p) != []) ==>
        r == Reply(400, ErrorsText(ApplicationErrors(p))) && applications == old(applications)
      ensures (settings != [] && settings[0].applicationsOpen && !HasApplied(old(applications), uid)
               && ApplicationErrors(p) == []) ==>
        r.code == 201 && HasApplied(applications, uid)
        && Filled(p.motivation) && Filled(p.experience) && Filled(p.sampleContent)
        && applications == old(applications)[old(nextApplication) := NewApplication(uid, p)]
    {
      if settings == [] || !settings[0].applicationsOpen {
        return Reply(400, "Creator applications are currently closed");
      }
      if HasApplied(applications, uid) {
        return Reply(400, "You have already submitted an application");
      }
      var errors := ApplicationErrors(p);
      if errors != [] {
        return Reply(400, ErrorsText(errors));
      }
      ApplicationErrorsRules(p);
      Store(NewApplication(uid, p));
      r := Reply(201, "Created");
    }

    /** The serializer's save: the application joins under the next id. */
    method Store(a: Application)
      requires Valid() && !HasApplied(applications, a.user)
      modifies this`applications, this`nextApplication
      ensures Valid() && HasApplied(applications, a.user)
      ensures applications == old(applications)[old(nextApplication) := a]
    {
      applications := applications[nextApplication := a];
      assert applications[nextApplication].user == a.user;
      nextApplication := nextApplication + 1;
    }

    /** `admin_review_application`: 404 without the application, 400 for an unknown action, else `Reviewed`. */
    method Review(appId: int, action: string, notes: string, reviewer: int, now: int) returns (r: Reply)
      requires Valid()
      modifies this`applications, this`profiles
      ensures Valid()
      ensures appId !in old(applications) ==>
        r.code == 404 && applications == old(applications) && profiles == old(profiles)
      ensures appId in old(applications) ==>
        var o := Reviewed(old(applications)[appId], old(profiles), action, notes, reviewer, now);
        (o.None? ==> r == Reply(400, "Invalid action") && applications == old(applications) && profiles == old(profiles))
        && (o.Some? ==> r.code == 200 && applications == old(applications)[appId := o.value.0] && profiles == o.value.1)
    {
      if appId !in applications {
        return Reply(404, "Not found.");
      }
      var a := applications[appId];
      if action == "approve" {
        a := a.(status := Approved);
        if a.user in profiles {
          profiles := profiles[a.user := profiles[a.user].(isApprovedCreator := true)];
        } else {
          profiles := profiles[a.user := CreatorProfile(a.expertise, 0, true)];
        }
      } else if action == "reject" {
        a := a.(status := Rejected);
      } else {
        return Reply(400, "Invalid action");
      }
      a := a.(adminNotes := notes, reviewedAt := Some(now), reviewedBy := Some(reviewer));
      applications := applications[appId := a];
      r := Reply(200, "Application " + action + "d successfully");
    }
  }
}
