/**
 * The community back end of `community/views.py`: join requests and their
 * moderation by the community's tutor, removal and exit of participants, the
 * community and join-request listings, and the soft close of a live class.
 *
 * The database is a `Store` object whose fields are the tables the views
 * touch. Each API handler is a method that checks the same guards in the same
 * order as the view, returns the HTTP status and message, and updates the
 * store. Outgoing e-mail (Celery tasks) is not modelled; the methods defined
 * in `models.py`, outside this model (`add_participant`, `exit_participant`),
 * are a `Fallible` outcome supplied by the caller.
 */
module Community {
  import opened Wrappers
  import opened Collections

  type UserId = int

  const Ok := 200
  const BadRequest := 400
  const Forbidden := 403
  const NotFound := 404

  /** The requesting user; `role` is `None` when the user has no `role` attribute. */
  datatype Account = Account(id: UserId, role: Option<string>)

  /** A community: `tutor` is the user id of its owning tutor. */
  datatype CommunityRecord = CommunityRecord(id: nat, slug: string, name: string, tutor: UserId, participants: set<UserId>)

  datatype Status = Pending | Approved | Rejected

  datatype JoinRequest = JoinRequest(pk: nat, community: string, user: UserId, status: Status, createdAt: int)

  /** `kind` holds the `notification_type` field. */
  datatype Notification = Notification(recipient: UserId, community: string, message: string, kind: string, link: string)

  /** `tutor` is the user id of the tutor who created the class. */
  datatype LiveClass = LiveClass(id: nat, tutor: UserId, title: string, topic: string, jitsiLink: string, createdAt: int, isActive: bool)

  datatype Response = Response(status: int, body: string)

  /** The outcome of a model method whose code is not part of this model. */
  datatype Fallible = Succeeds | RaisesValueError(message: string)

  /**
   * The verdict of `serializer.is_valid()` on the request body: a body that is
   * not a JSON object is rejected with the serializer's error report.
   */
  datatype Validation = BodyAccepted | BodyRejected(errors: string)

  /** The tutor who owns the community: the guard of every moderation endpoint. */
  predicate IsOwner(c: CommunityRecord, user: Account)
  {
    user.role == Some("tutor") && c.tutor == user.id
  }

  /** `Community.objects.get(slug=slug)`. */
  function FindCommunity(cs: seq<CommunityRecord>, slug: string): (r: Option<nat>)
    ensures r.Some? ==> r.value < |cs| && cs[r.value].slug == slug
    ensures r.None? <==> forall i :: 0 <= i < |cs| ==> cs[i].slug != slug
  {
    IndexOf(cs, (c: CommunityRecord) => c.slug == slug)
  }

  /** How a handler names a join request of a community: by its user, or by its primary key. */
  datatype RequestKey = ByUser(user: UserId) | ByPk(pk: nat)

  predicate HasKey(jr: JoinRequest, slug: string, key: RequestKey)
  {
    jr.community == slug &&
    match key
    case ByUser(user) => jr.user == user
    case ByPk(pk) => jr.pk == pk
  }

  /**
   * The join request with that key in the community `slug`: `get_or_create`
   * looks one up by user first, `get_object_or_404(JoinRequest, pk=pk,
   * community=community)` by key.
   */
  function FindRequest(rs: seq<JoinRequest>, slug: string, key: RequestKey): (r: Option<nat>)
    ensures r.Some? ==> r.value < |rs| && HasKey(rs[r.value], slug, key)
    ensures r.None? <==> forall i :: 0 <= i < |rs| ==> !HasKey(rs[i], slug, key)
  {
    IndexOf(rs, (jr: JoinRequest) => HasKey(jr, slug, key))
  }

  /** `get_object()` of the live-class viewset, which looks only among active classes. */
  function FindActiveClass(ls: seq<LiveClass>, id: nat): (r: Option<nat>)
    ensures r.Some? ==> r.value < |ls| && ls[r.value].id == id && ls[r.value].isActive
    ensures r.None? <==> forall i :: 0 <= i < |ls| ==> !(ls[i].id == id && ls[i].isActive)
  {
    IndexOf(ls, (c: LiveClass) => c.id == id && c.isActive)
  }

  /** The database constraints the handlers rely on: unique slugs, one request per (community, user), unique keys. */
  ghost predicate ValidStore(cs: seq<CommunityRecord>, rs: seq<JoinRequest>, ls: seq<LiveClass>, nextPk: nat)
  {
    && (forall i, j :: 0 <= i < j < |cs| ==> cs[i].slug != cs[j].slug)
    && (forall i, j :: 0 <= i < j < |rs| ==> rs[i].community != rs[j].community || rs[i].user != rs[j].user)
    && (forall i, j :: 0 <= i < j < |rs| ==> rs[i].pk != rs[j].pk)
    && (forall i :: 0 <= i < |rs| ==> rs[i].pk < nextPk)
    && (forall i, j :: 0 <= i < j < |ls| ==> ls[i].id != ls[j].id)
  }

  /** A new request with a fresh key for a (community, user) pair that has none keeps the store valid. */
  lemma ValidAfterNewRequest(cs: seq<CommunityRecord>, rs: seq<JoinRequest>, ls: seq<LiveClass>, nextPk: nat, jr: JoinRequest)
    requires ValidStore(cs, rs, ls, nextPk)
    requires jr.pk == nextPk
    requires forall i :: 0 <= i < |rs| ==> !(rs[i].community == jr.community && rs[i].user == jr.user)
    ensures ValidStore(cs, rs + [jr], ls, nextPk + 1)
  {
    var rs' := rs + [jr];
    forall i, j | 0 <= i < j < |rs'|
      ensures rs'[i].community != rs'[j].community || rs'[i].user != rs'[j].user
      ensures rs'[i].pk != rs'[j].pk
    {
      assert rs'[i] == rs[i];
      if j < |rs| {
        assert rs'[j] == rs[j];
      }
    }
  }

  /** Changing the status of one request keeps the store valid. */
  lemma ValidAfterStatus(cs: seq<CommunityRecord>, rs: seq<JoinRequest>, ls: seq<LiveClass>, nextPk: nat, k: nat, st: Status)
    requires ValidStore(cs, rs, ls, nextPk) && k < |rs|
    ensures ValidStore(cs, rs[k := rs[k].(status := st)], ls, nextPk)
  {
    var rs' := rs[k := rs[k].(status := st)];
    assert forall i :: 0 <= i < |rs| ==> rs'[i].community == rs[i].community && rs'[i].user == rs[i].user && rs'[i].pk == rs[i].pk;
  }

  /** Changing the participants of one community keeps the store valid. */
  lemma ValidAfterParticipants(cs: seq<CommunityRecord>, rs: seq<JoinRequest>, ls: seq<LiveClass>, nextPk: nat, k: nat, p: set<UserId>)
    requires ValidStore(cs, rs, ls, nextPk) && k < |cs|
    ensures ValidStore(cs[k := cs[k].(participants := p)], rs, ls, nextPk)
  {
    var cs' := cs[k := cs[k].(participants := p)];
    assert forall i :: 0 <= i < |cs| ==> cs'[i].slug == cs[i].slug;
  }

  /** Closing one live class keeps the store valid. */
  lemma ValidAfterClose(cs: seq<CommunityRecord>, rs: seq<JoinRequest>, ls: seq<LiveClass>, nextPk: nat, k: nat)
    requires ValidStore(cs, rs, ls, nextPk) && k < |ls|
    ensures ValidStore(cs, rs, ls[k := ls[k].(isActive := false)], nextPk)
  {
    var ls' := ls[k := ls[k].(isActive := false)];
    assert forall i :: 0 <= i < |ls| ==> ls'[i].id == ls[i].id;
  }

  /** With unique slugs, the lookup finds the one community that carries the slug. */
  lemma FindCommunityAt(cs: seq<CommunityRecord>, slug: string, k: nat)
    requires forall i, j :: 0 <= i < j < |cs| ==> cs[i].slug != cs[j].slug
    requires k < |cs| && cs[k].slug == slug
    ensures FindCommunity(cs, slug) == Some(k)
  {
  }

  /** With one request per (community, user), the lookup finds the one request of that pair. */
  lemma FindRequestAt(rs: seq<JoinRequest>, slug: string, user: UserId, k: nat)
    requires forall i, j :: 0 <= i < j < |rs| ==> rs[i].community != rs[j].community || rs[i].user != rs[j].user
    requires k < |rs| && rs[k].community == slug && rs[k].user == user
    ensures FindRequest(rs, slug, ByUser(user)) == Some(k)
  {
  }

  /** With unique keys, the lookup by key finds the one request that carries it. */
  lemma FindRequestByPkAt(rs: seq<JoinRequest>, slug: string, pk: nat, k: nat)
    requires forall i, j :: 0 <= i < j < |rs| ==> rs[i].pk != rs[j].pk
    requires k < |rs| && rs[k].community == slug && rs[k].pk == pk
    ensures FindRequest(rs, slug, ByPk(pk)) == Some(k)
  {
  }

  // ---------------------------------------------------------------------------
  // Read-only querysets

  function CommunityId(c: CommunityRecord): int { c.id }
  function RequestCreatedAt(jr: JoinRequest): int { jr.createdAt }
  function ClassCreatedAt(c: LiveClass): int { c.createdAt }

  /** A tutor is shown only the communities it owns; any other viewer is shown every community. */
  predicate VisibleTo(c: CommunityRecord, viewer: Option<Account>)
  {
    viewer.Some? && viewer.value.role == Some("tutor") ==> c.tutor == viewer.value.id
  }

  /** `ListCommunity.get_queryset`: a tutor sees the communities it owns, everyone else sees all; newest id first. */
  function VisibleCommunities(cs: seq<CommunityRecord>, viewer: Option<Account>): (r: seq<CommunityRecord>)
    ensures SortedDesc(r, CommunityId)
    ensures forall c :: c in r <==>
      c in cs && (viewer.Some? && viewer.value.role == Some("tutor") ==> c.tutor == viewer.value.id)
    ensures forall c :: multiset(r)[c] == if VisibleTo(c, viewer) then multiset(cs)[c] else 0
  {
    var shown := if viewer.Some? && viewer.value.role == Some("tutor")
      then Filter(cs, (c: CommunityRecord) => c.tutor == viewer.value.id)
      else cs;
    var r := SortDesc(shown, CommunityId);
    assert forall c :: c in r <==> c in shown by {
      forall c ensures c in r <==> c in shown {
        SortDescMembers(shown, CommunityId, c);
      }
    }
    assert forall c :: c in shown <==>
      c in cs && (viewer.Some? && viewer.value.role == Some("tutor") ==> c.tutor == viewer.value.id) by {
      forall c ensures c in shown <==>
        c in cs && (viewer.Some? && viewer.value.role == Some("tutor") ==> c.tutor == viewer.value.id) {
        if viewer.Some? && viewer.value.role == Some("tutor") {
          FilterMembers(cs, (c: CommunityRecord) => c.tutor == viewer.value.id, c);
        }
      }
    }
    assert forall c :: multiset(r)[c] == if VisibleTo(c, viewer) then multiset(cs)[c] else 0 by {
      forall c ensures multiset(r)[c] == if VisibleTo(c, viewer) then multiset(cs)[c] else 0 {
        if viewer.Some? && viewer.value.role == Some("tutor") {
          FilterCount(cs, (c: CommunityRecord) => c.tutor == viewer.value.id, c);
        }
      }
    }
    r
  }

  /** `JoinRequestListAPIView.get_queryset`: unknown slug is 404 (`None`); only the owning tutor sees the requests, newest first. */
  function JoinRequestList(cs: seq<CommunityRecord>, rs: seq<JoinRequest>, slug: string, viewer: Option<Account>)
    : (r: Option<seq<JoinRequest>>)
    ensures r.None? <==> FindCommunity(cs, slug).None?
    ensures r.Some? && !(viewer.Some? && IsOwner(cs[FindCommunity(cs, slug).value], viewer.value)) ==> r.value == []
    ensures r.Some? ==> SortedDesc(r.value, RequestCreatedAt)
    ensures r.Some? && viewer.Some? && IsOwner(cs[FindCommunity(cs, slug).value], viewer.value) ==>
      forall jr :: jr in r.value <==> jr in rs && jr.community == slug
    ensures r.Some? && viewer.Some? && IsOwner(cs[FindCommunity(cs, slug).value], viewer.value) ==>
      forall jr :: multiset(r.value)[jr] == if jr.community == slug then multiset(rs)[jr] else 0
  {
    match FindCommunity(cs, slug)
    case None => None
    case Some(i) =>
      if !(viewer.Some? && IsOwner(cs[i], viewer.value)) then Some([])
      else
        var mine := Filter(rs, (jr: JoinRequest) => jr.community == slug);
        var sorted := SortDesc(mine, RequestCreatedAt);
        assert forall jr :: jr in sorted <==> jr in rs && jr.community == slug by {
          forall jr ensures jr in sorted <==> jr in rs && jr.community == slug {
            SortDescMembers(mine, RequestCreatedAt, jr);
            FilterMembers(rs, (jr: JoinRequest) => jr.community == slug, jr);
          }
        }
        assert forall jr :: multiset(sorted)[jr] == if jr.community == slug then multiset(rs)[jr] else 0 by {
          forall jr ensures multiset(sorted)[jr] == if jr.community == slug then multiset(rs)[jr] else 0 {
            FilterCount(rs, (jr: JoinRequest) => jr.community == slug, jr);
          }
        }
        Some(sorted)
  }

  /** `LiveClassViewSet.get_queryset`: the active classes, newest first. */
  function ActiveLiveClasses(ls: seq<LiveClass>): (r: seq<LiveClass>)
    ensures SortedDesc(r, ClassCreatedAt)
    ensures forall c :: c in r <==> c in ls && c.isActive
  {
    var active := Filter(ls, (c: LiveClass) => c.isActive);
    var r := SortDesc(active, ClassCreatedAt);
    assert forall c :: c in r <==> c in ls && c.isActive by {
      forall c ensures c in r <==> c in ls && c.isActive {
        SortDescMembers(active, ClassCreatedAt, c);
        FilterMembers(ls, (c: LiveClass) => c.isActive, c);
      }
    }
    r
  }

  /** The active listing holds every copy of an active class and no copy of a closed one. */
  lemma ActiveLiveClassesCount(ls: seq<LiveClass>, c: LiveClass)
    ensures multiset(ActiveLiveClasses(ls))[c] == if c.isActive then multiset(ls)[c] else 0
  {
    FilterCount(ls, (c: LiveClass) => c.isActive, c);
  }

  /** Closing one class keeps every record, removes that class from the active list and leaves the other active classes listed. */
  lemma CloseRemovesFromActiveList(ls: seq<LiveClass>, k: nat)
    requires k < |ls|
    requires forall i, j :: 0 <= i < j < |ls| ==> ls[i].id != ls[j].id
    ensures |ls[k := ls[k].(isActive := false)]| == |ls|
    ensures forall c :: c in ActiveLiveClasses(ls[k := ls[k].(isActive := false)]) ==> c.id != ls[k].id
    ensures forall c :: c in ActiveLiveClasses(ls) && c.id != ls[k].id ==> c in ActiveLiveClasses(ls[k := ls[k].(isActive := false)])
  {
    var ls' := ls[k := ls[k].(isActive := false)];
    forall c | c in ls' && c.isActive
      ensures c.id != ls[k].id
    {
      var i :| 0 <= i < |ls'| && ls'[i] == c;
      assert i != k;
      assert ls[i] == c;
    }
    forall c | c in ls && c.isActive && c.id != ls[k].id
      ensures c in ls'
    {
      var i :| 0 <= i < |ls| && ls[i] == c;
      assert ls'[i] == c;
    }
  }

  /** Which permission class guards each viewset action. */
  datatype Permission = TutorOnly | AllowAny

  /** `LiveClassViewSet.get_permissions`. */
  function PermissionFor(action: string): Permission
  {
    if action in ["create", "destroy", "update", "partial_update"] then TutorOnly else AllowAny
  }

  /** Whether a caller passes a permission class; `isTutor` is the verdict of `IsTutor.has_permission`. */
  predicate Permits(p: Permission, isTutor: bool)
  {
    p == AllowAny || isTutor
  }

  /** A tutor passes the check of every action; anyone else passes exactly the actions that only read. */
  lemma PermissionsByAction(action: string, isTutor: bool)
    ensures isTutor ==> Permits(PermissionFor(action), isTutor)
    ensures Permits(PermissionFor(action), false)
      <==> action != "create" && action != "destroy" && action != "update" && action != "partial_update"
  {
  }

  // ---------------------------------------------------------------------------
  // Response texts

  const CommunityNotFound := "Community not found"
  const AlreadyMember := "Already a member; you can view the community."
  const AlreadyPending := "Join request already pending."
  const AlreadyApproved := "You are already approved for this community."
  const Resubmitted := "Join request re-submitted."
  const Submitted := "Join request submitted. Please wait for tutor approval."
  const Joined := "Successfully joined the community"
  const NotAuthorized := "Not authorized"
  /** The body of a 404 raised by `get_object_or_404`; its exact text belongs to the framework. */
  const NoMatch := "Not found."
  const ApprovedBody := "User approved and added to community."
  const RejectedBody := "Join request rejected."
  const InvalidAction := "Invalid action"
  const UserIdRequired := "user_id is required"
  const UserNotInCommunity := "User not in community"
  const UserRemoved := "User removed from community."
  const NotAMember := "You are not a member of this community"
  const Exited := "Successfully exited from community"
  const PermissionDenied := "You do not have permission to perform this action."
  const OnlyCreator := "Only the tutor who created this class can delete it."
  const ClassClosed := "live class closed"

  function CommunityLink(slug: string): string { "/community/" + slug }

  function ApprovedNotice(c: CommunityRecord, user: UserId): Notification
  {
    Notification(user, c.slug, "Your request to join " + c.name + " was approved.", "message", CommunityLink(c.slug))
  }

  function RejectedNotice(c: CommunityRecord, user: UserId): Notification
  {
    Notification(user, c.slug, "Your request to join " + c.name + " was rejected.", "message", CommunityLink(c.slug))
  }

  function RemovedNotice(c: CommunityRecord, user: UserId): Notification
  {
    Notification(user, c.slug, "You have been removed from " + c.name + ".", "message", CommunityLink(c.slug))
  }

  /** The same community with a different participant set. */
  function WithParticipants(c: CommunityRecord, p: set<UserId>): CommunityRecord
  {
    c.(participants := p)
  }

  // ---------------------------------------------------------------------------
  // The store and the handlers that change it

  class Store {
    var communities: seq<CommunityRecord>
    var requests: seq<JoinRequest>
    var notifications: seq<Notification>
    var liveClasses: seq<LiveClass>
    /** The primary key the next join request receives. */
    var nextPk: nat

    ghost predicate Valid()
      reads this
    {
      ValidStore(communities, requests, liveClasses, nextPk)
    }

    constructor (cs: seq<CommunityRecord>, rs: seq<JoinRequest>, ns: seq<Notification>, ls: seq<LiveClass>, nextPk: nat)
      requires ValidStore(cs, rs, ls, nextPk)
      ensures Valid()
      ensures communities == cs && requests == rs && notifications == ns && liveClasses == ls && this.nextPk == nextPk
    {
      communities, requests, notifications, liveClasses := cs, rs, ns, ls;
      this.nextPk := nextPk;
    }

    /**
     * `JoinCommunityAPIView.post`. A participant gets 400. A student files a
     * pending request, or re-files a rejected one; an existing pending or
     * approved request is left alone. Anyone else joins directly, unless the
     * serializer rejects the body (400 with its errors) or `add_participant`
     * raises `ValueError` (400).
     */
    method Join(slug: string, user: Account, now: int, validation: Validation, add: Fallible) returns (resp: Response)
      requires Valid()
      modifies this
      ensures Valid()
      ensures notifications == old(notifications) && liveClasses == old(liveClasses)
      ensures FindCommunity(old(communities), slug).None? ==> resp == Response(NotFound, CommunityNotFound) && unchanged(this)
      ensures FindCommunity(old(communities), slug).Some? ==>
        var i := FindCommunity(old(communities), slug).value;
        var c := old(communities)[i];
        var existing := FindRequest(old(requests), slug, ByUser(user.id));
        if user.id in c.participants then
          resp == Response(BadRequest, AlreadyMember) && unchanged(this)
        else if user.role == Some("student") then
          communities == old(communities) &&
          (existing.None? ==>
            resp == Response(Ok, Submitted) &&
            requests == old(requests) + [JoinRequest(old(nextPk), slug, user.id, Pending, now)] &&
            nextPk == old(nextPk) + 1) &&
          (existing.Some? ==>
            var jr := old(requests)[existing.value];
            nextPk == old(nextPk) &&
            (jr.status == Pending ==> resp == Response(Ok, AlreadyPending) && requests == old(requests)) &&
            (jr.status == Approved ==> resp == Response(Ok, AlreadyApproved) && requests == old(requests)) &&
            (jr.status == Rejected ==>
              resp == Response(Ok, Resubmitted) &&
              requests == old(requests)[existing.value := jr.(status := Pending)]))
        else if validation.BodyRejected? then
          resp == Response(BadRequest, validation.errors) && unchanged(this)
        else match add
          case Succeeds =>
            resp == Response(Ok, Joined) && requests == old(requests) && nextPk == old(nextPk) &&
            communities == old(communities)[i := WithParticipants(c, c.participants + {user.id})]
          case RaisesValueError(msg) =>
            resp == Response(BadRequest, msg) && unchanged(this)
    {
      var found := FindCommunity(communities, slug);
      if found.None? {
        return Response(NotFound, CommunityNotFound);
      }
      var i := found.value;
      var c := communities[i];
      if user.id in c.participants {
        return Response(BadRequest, AlreadyMember);
      }
      if user.role == Some("student") {
        var existing := FindRequest(requests, slug, ByUser(user.id));
        if existing.Some? {
          var jr := requests[existing.value];
          if jr.status == Pending {
            return Response(Ok, AlreadyPending);
          } else if jr.status == Approved {
            return Response(Ok, AlreadyApproved);
          }
          ValidAfterStatus(communities, requests, liveClasses, nextPk, existing.value, Pending);
          requests := requests[existing.value := jr.(status := Pending)];
          return Response(Ok, Resubmitted);
        }
        ValidAfterNewRequest(communities, requests, liveClasses, nextPk, JoinRequest(nextPk, slug, user.id, Pending, now));
        requests := requests + [JoinRequest(nextPk, slug, user.id, Pending, now)];
        nextPk := nextPk + 1;
        return Response(Ok, Submitted);
      }
      if validation.BodyRejected? {
        return Response(BadRequest, validation.errors);
      }
      match add {
        case Succeeds =>
          ValidAfterParticipants(communities, requests, liveClasses, nextPk, i, c.participants + {user.id});
          communities := communities[i := WithParticipants(c, c.participants + {user.id})];
          resp := Response(Ok, Joined);
        case RaisesValueError(msg) =>
          resp := Response(BadRequest, msg);
      }
    }

    /**
     * `JoinRequestApproveAPIView.post`. Only the owning tutor may act (403).
     * `approve` marks the request approved, adds its user to the participants
     * and notifies the user; `reject` marks it rejected and notifies the user,
     * leaving the participants alone; any other action is 400.
     */
    method Respond(slug: string, pk: nat, user: Account, action: Option<string>) returns (resp: Response)
      requires Valid()
      modifies this
      ensures Valid()
      ensures liveClasses == old(liveClasses) && nextPk == old(nextPk)
      ensures FindCommunity(old(communities), slug).None? ==> resp.status == NotFound && unchanged(this)
      ensures FindCommunity(old(communities), slug).Some? ==>
        var i := FindCommunity(old(communities), slug).value;
        var c := old(communities)[i];
        var found := FindRequest(old(requests), slug, ByPk(pk));
        if !IsOwner(c, user) then
          resp == Response(Forbidden, NotAuthorized) && unchanged(this)
        else if found.None? then
          resp.status == NotFound && unchanged(this)
        else
          var jr := old(requests)[found.value];
          if action == Some("approve") then
            resp == Response(Ok, ApprovedBody) &&
            requests == old(requests)[found.value := jr.(status := Approved)] &&
            communities == old(communities)[i := WithParticipants(c, c.participants + {jr.user})] &&
            notifications == old(notifications) + [ApprovedNotice(c, jr.user)]
          else if action == Some("reject") then
            resp == Response(Ok, RejectedBody) &&
            requests == old(requests)[found.value := jr.(status := Rejected)] &&
            communities == old(communities) &&
            notifications == old(notifications) + [RejectedNotice(c, jr.user)]
          else
            resp == Response(BadRequest, InvalidAction) && unchanged(this)
    {
      var fc := FindCommunity(communities, slug);
      if fc.None? {
        return Response(NotFound, NoMatch);
      }
      var i := fc.value;
      var c := communities[i];
      if !IsOwner(c, user) {
        return Response(Forbidden, NotAuthorized);
      }
      var found := FindRequest(requests, slug, ByPk(pk));
      if found.None? {
        return Response(NotFound, NoMatch);
      }
      var jr := requests[found.value];
      if action == Some("approve") {
        ValidAfterStatus(communities, requests, liveClasses, nextPk, found.value, Approved);
        ValidAfterParticipants(communities, requests[found.value := jr.(status := Approved)], liveClasses, nextPk, i, c.participants + {jr.user});
        requests := requests[found.value := jr.(status := Approved)];
        communities := communities[i := WithParticipants(c, c.participants + {jr.user})];
        notifications := notifications + [ApprovedNotice(c, jr.user)];
        resp := Response(Ok, ApprovedBody);
      } else if action == Some("reject") {
        ValidAfterStatus(communities, requests, liveClasses, nextPk, found.value, Rejected);
        requests := requests[found.value := jr.(status := Rejected)];
        notifications := notifications + [RejectedNotice(c, jr.user)];
        resp := Response(Ok, RejectedBody);
      } else {
        resp := Response(BadRequest, InvalidAction);
      }
    }

    /**
     * `RemoveParticipantAPIView.post`. Only the owning tutor may remove (403);
     * a missing or falsy `user_id` is 400, as is a user who is not a
     * participant; otherwise exactly that user leaves and is notified.
     */
    method RemoveParticipant(slug: string, user: Account, userIdParam: Option<int>) returns (resp: Response)
      requires Valid()
      modifies this
      ensures Valid()
      ensures requests == old(requests) && liveClasses == old(liveClasses) && nextPk == old(nextPk)
      ensures FindCommunity(old(communities), slug).None? ==> resp.status == NotFound && unchanged(this)
      ensures FindCommunity(old(communities), slug).Some? ==>
        var i := FindCommunity(old(communities), slug).value;
        var c := old(communities)[i];
        if !IsOwner(c, user) then
          resp == Response(Forbidden, NotAuthorized) && unchanged(this)
        else if userIdParam.None? || userIdParam.value == 0 then
          resp == Response(BadRequest, UserIdRequired) && unchanged(this)
        else if userIdParam.value !in c.participants then
          resp == Response(BadRequest, UserNotInCommunity) && unchanged(this)
        else
          resp == Response(Ok, UserRemoved) &&
          communities == old(communities)[i := WithParticipants(c, c.participants - {userIdParam.value})] &&
          notifications == old(notifications) + [RemovedNotice(c, userIdParam.value)]
    {
      var fc := FindCommunity(communities, slug);
      if fc.None? {
        return Response(NotFound, NoMatch);
      }
      var i := fc.value;
      var c := communities[i];
      if !IsOwner(c, user) {
        return Response(Forbidden, NotAuthorized);
      }
      if userIdParam.None? || userIdParam.value == 0 {
        return Response(BadRequest, UserIdRequired);
      }
      var target := userIdParam.value;
      if target !in c.participants {
        return Response(BadRequest, UserNotInCommunity);
      }
      ValidAfterParticipants(communities, requests, liveClasses, nextPk, i, c.participants - {target});
      communities := communities[i := WithParticipants(c, c.participants - {target})];
      notifications := notifications + [RemovedNotice(c, target)];
      resp := Response(Ok, UserRemoved);
    }

    /** `exit_community`: a non-member gets 400; a member leaves unless `exit_participant` raises `ValueError` (400). */
    method Exit(slug: string, user: Account, exit: Fallible) returns (resp: Response)
      requires Valid()
      modifies this
      ensures Valid()
      ensures requests == old(requests) && notifications == old(notifications)
      ensures liveClasses == old(liveClasses) && nextPk == old(nextPk)
      ensures FindCommunity(old(communities), slug).None? ==> resp.status == NotFound && unchanged(this)
      ensures FindCommunity(old(communities), slug).Some? ==>
        var i := FindCommunity(old(communities), slug).value;
        var c := old(communities)[i];
        if user.id !in c.participants then
          resp == Response(BadRequest, NotAMember) && unchanged(this)
        else match exit
          case Succeeds =>
            resp == Response(Ok, Exited) &&
            communities == old(communities)[i := WithParticipants(c, c.participants - {user.id})]
          case RaisesValueError(msg) =>
            resp == Response(BadRequest, msg) && unchanged(this)
    {
      var fc := FindCommunity(communities, slug);
      if fc.None? {
        return Response(NotFound, NoMatch);
      }
      var i := fc.value;
      var c := communities[i];
      if user.id !in c.participants {
        return Response(BadRequest, NotAMember);
      }
      match exit {
        case Succeeds =>
          ValidAfterParticipants(communities, requests, liveClasses, nextPk, i, c.participants - {user.id});
          communities := communities[i := WithParticipants(c, c.participants - {user.id})];
          resp := Response(Ok, Exited);
        case RaisesValueError(msg) =>
          resp := Response(BadRequest, msg);
      }
    }

    /**
     * `LiveClassViewSet.destroy`, which runs once the permission check has
     * passed: the lookup among active classes (404), then the creator check
     * (403). The creator's request marks the class inactive and keeps the
     * record, which then no longer appears in the active list.
     */
    method CloseActiveClass(id: nat, user: Account) returns (resp: Response)
      requires Valid()
      modifies this
      ensures Valid()
      ensures communities == old(communities) && requests == old(requests)
      ensures notifications == old(notifications) && nextPk == old(nextPk)
      ensures var k := FindActiveClass(old(liveClasses), id);
        if k.None? then
          resp.status == NotFound && unchanged(this)
        else if old(liveClasses)[k.value].tutor != user.id then
          resp == Response(Forbidden, OnlyCreator) && unchanged(this)
        else
          resp == Response(Ok, ClassClosed) &&
          liveClasses == old(liveClasses)[k.value := old(liveClasses)[k.value].(isActive := false)]
      ensures resp.status == Ok ==> forall c :: c in ActiveLiveClasses(liveClasses) ==> c.id != id
    {
      var k := FindActiveClass(liveClasses, id);
      if k.None? {
        return Response(NotFound, NoMatch);
      }
      var obj := liveClasses[k.value];
      if obj.tutor != user.id {
        return Response(Forbidden, OnlyCreator);
      }
      CloseRemovesFromActiveList(liveClasses, k.value);
      ValidAfterClose(communities, requests, liveClasses, nextPk, k.value);
      liveClasses := liveClasses[k.value := obj.(isActive := false)];
      resp := Response(Ok, ClassClosed);
    }

    /**
     * A DELETE request to the live-class viewset: the `IsTutor` check that
     * `get_permissions` selects for `destroy` comes first (403), then `destroy`.
     */
    method Destroy(id: nat, user: Account, isTutor: bool) returns (resp: Response)
      requires Valid()
      modifies this
      ensures Valid()
      ensures communities == old(communities) && requests == old(requests)
      ensures notifications == old(notifications) && nextPk == old(nextPk)
      ensures !Permits(PermissionFor("destroy"), isTutor) ==> resp == Response(Forbidden, PermissionDenied) && unchanged(this)
      ensures !isTutor ==> resp == Response(Forbidden, PermissionDenied) && unchanged(this)
      ensures Permits(PermissionFor("destroy"), isTutor) ==>
        var k := FindActiveClass(old(liveClasses), id);
        if k.None? then
          resp.status == NotFound && unchanged(this)
        else if old(liveClasses)[k.value].tutor != user.id then
          resp == Response(Forbidden, OnlyCreator) && unchanged(this)
        else
          resp == Response(Ok, ClassClosed) &&
          liveClasses == old(liveClasses)[k.value := old(liveClasses)[k.value].(isActive := false)]
      ensures resp.status == Ok ==> forall c :: c in ActiveLiveClasses(liveClasses) ==> c.id != id
    {
      if !Permits(PermissionFor("destroy"), isTutor) {
        return Response(Forbidden, PermissionDenied);
      }
      resp := CloseActiveClass(id, user);
    }
  }

  /**
   * An approved student whom the tutor removes cannot come back by joining
   * again: removal leaves the join request approved, and a join that finds an
   * approved request answers "already approved" without adding the student.
   */
  method RejoinAfterRemoval(cs: seq<CommunityRecord>, rs: seq<JoinRequest>, ls: seq<LiveClass>, nextPk: nat,
                            slug: string, tutor: Account, student: Account, now: int, v: Validation, add: Fallible)
      returns (filed: Response, approved: Response, removed: Response, rejoin: Response, participants: set<UserId>)
    requires ValidStore(cs, rs, ls, nextPk)
    requires FindCommunity(cs, slug).Some? && IsOwner(cs[FindCommunity(cs, slug).value], tutor)
    requires student.role == Some("student") && student.id != 0
    requires student.id !in cs[FindCommunity(cs, slug).value].participants
    requires FindRequest(rs, slug, ByUser(student.id)).None?
    ensures filed == Response(Ok, Submitted) && approved == Response(Ok, ApprovedBody)
    ensures removed == Response(Ok, UserRemoved)
    ensures rejoin == Response(Ok, AlreadyApproved) && student.id !in participants
  {
    var i := FindCommunity(cs, slug).value;
    var st := new Store(cs, rs, [], ls, nextPk);
    filed := st.Join(slug, student, now, v, add);
    var pending := JoinRequest(nextPk, slug, student.id, Pending, now);
    assert st.requests == rs + [pending] && st.communities == cs;
    FindRequestByPkAt(st.requests, slug, nextPk, |rs|);
    approved := st.Respond(slug, nextPk, tutor, Some("approve"));
    FindCommunityAt(st.communities, slug, i);
    removed := st.RemoveParticipant(slug, tutor, Some(student.id));
    FindCommunityAt(st.communities, slug, i);
    FindRequestAt(st.requests, slug, student.id, |rs|);
    rejoin := st.Join(slug, student, now, v, add);
    participants := st.communities[i].participants;
  }
}
