/**
 * The participants tab of a community page (`ParticipantsTab.jsx`): the tutor's
 * join-request panel with its status filter and show/hide toggle, the
 * approve/reject controls, and confirm-gated removal of participants.
 *
 * Rendering is a function from the component state to the controls it shows.
 * The event handlers are methods of a `Panel` object holding the React state;
 * each HTTP call, page reload and `alert` is appended to an effect log, and the
 * outcome of each call is a parameter.
 */
module ParticipantsTab {
  import opened Wrappers
  import opened Fetch
  import opened Collections

  /** One join request as the list endpoint serializes it. */
  datatype RequestView = RequestView(id: int, userName: string, status: string, createdAt: string)

  datatype ParticipantView = ParticipantView(id: int, username: string)

  /** The filter keeps a request when the filter is `all` or names its status. */
  predicate Keeps(filter: string, r: RequestView)
  {
    filter == "all" || r.status == filter
  }

  /** `filteredRequests`. */
  function FilteredRequests(requests: seq<RequestView>, filter: string): (r: seq<RequestView>)
    ensures filter == "all" ==> r == requests
    ensures filter != "all" ==> forall x :: x in r <==> x in requests && x.status == filter
    ensures IsSubsequence(r, requests)
    ensures forall x :: multiset(r)[x] == if Keeps(filter, x) then multiset(requests)[x] else 0
  {
    var keep := (x: RequestView) => Keeps(filter, x);
    var r := Filter(requests, keep);
    assert filter == "all" ==> r == requests by {
      if filter == "all" {
        FilterKeepsAll(requests, keep);
      }
    }
    assert forall x :: x in r <==> x in requests && Keeps(filter, x) by {
      forall x ensures x in r <==> x in requests && Keeps(filter, x) {
        FilterMembers(requests, keep, x);
      }
    }
    assert forall x :: multiset(r)[x] == if Keeps(filter, x) then multiset(requests)[x] else 0 by {
      forall x ensures multiset(r)[x] == if Keeps(filter, x) then multiset(requests)[x] else 0 {
        FilterCount(requests, keep, x);
      }
    }
    r
  }

  /** The controls at the end of a request row: buttons for a pending request, its status text otherwise. */
  datatype RowControls = ApproveReject(pk: int) | StatusText(status: string)

  function RowFor(r: RequestView): (c: RowControls)
    ensures c.ApproveReject? <==> r.status == "pending"
    ensures c.ApproveReject? ==> c.pk == r.id
    ensures c.StatusText? ==> c.status == r.status
  {
    if r.status == "pending" then ApproveReject(r.id) else StatusText(r.status)
  }

  /**
   * What the tab shows: whether the toggle and filter toolbar is there, the
   * request rows when the panel is open, and the user ids that carry a
   * Remove button.
   */
  datatype View = View(toolbar: bool, requestPanel: Option<seq<RowControls>>, removeButtons: seq<int>)

  function RowsFor(rs: seq<RequestView>): (rows: seq<RowControls>)
    ensures |rows| == |rs|
    ensures forall i :: 0 <= i < |rs| ==> rows[i] == RowFor(rs[i])
  {
    if rs == [] then [] else [RowFor(rs[0])] + RowsFor(rs[1..])
  }

  function ParticipantIds(ps: seq<ParticipantView>): (ids: seq<int>)
    ensures |ids| == |ps|
    ensures forall i :: 0 <= i < |ps| ==> ids[i] == ps[i].id
  {
    if ps == [] then [] else [ps[0].id] + ParticipantIds(ps[1..])
  }

  /** The rendered tab: every control that acts is gated on `role === "tutor"`. */
  function Render(role: Option<string>, showRequests: bool, requests: seq<RequestView>, filter: string,
                  participants: seq<ParticipantView>): (v: View)
    ensures v.toolbar <==> role == Some("tutor")
    ensures v.requestPanel.Some? <==> showRequests && role == Some("tutor")
    ensures v.requestPanel.Some? ==>
      var shown := FilteredRequests(requests, filter);
      |v.requestPanel.value| == |shown| &&
      forall i :: 0 <= i < |shown| ==> v.requestPanel.value[i] == RowFor(shown[i])
    ensures role == Some("tutor") ==>
      |v.removeButtons| == |participants| &&
      forall i :: 0 <= i < |participants| ==> v.removeButtons[i] == participants[i].id
    ensures role != Some("tutor") ==> v.removeButtons == []
  {
    var tutor := role == Some("tutor");
    View(tutor,
         if showRequests && tutor then Some(RowsFor(FilteredRequests(requests, filter))) else None,
         if tutor then ParticipantIds(participants) else [])
  }

  /** Under the `approved` or `rejected` filter the open panel shows only that status and no buttons. */
  lemma SettledFilterHasNoButtons(requests: seq<RequestView>, filter: string, participants: seq<ParticipantView>)
    requires filter != "all" && filter != "pending"
    ensures var v := Render(Some("tutor"), true, requests, filter, participants);
      v.requestPanel.Some? &&
      forall i :: 0 <= i < |v.requestPanel.value| ==> v.requestPanel.value[i] == StatusText(filter)
  {
    var shown := FilteredRequests(requests, filter);
    forall i | 0 <= i < |shown|
      ensures shown[i].status == filter
    {
      assert shown[i] in shown;
    }
  }

  /** Every Approve/Reject pair on screen belongs to a pending request the tab fetched. */
  lemma ButtonsOnlyForPending(requests: seq<RequestView>, filter: string, participants: seq<ParticipantView>, i: nat)
    requires var v := Render(Some("tutor"), true, requests, filter, participants);
      v.requestPanel.Some? && i < |v.requestPanel.value| && v.requestPanel.value[i].ApproveReject?
    ensures exists r :: (r in requests && r.status == "pending" &&
      r.id == Render(Some("tutor"), true, requests, filter, participants).requestPanel.value[i].pk)
  {
    var shown := FilteredRequests(requests, filter);
    assert shown[i] in shown;
  }

  // ---------------------------------------------------------------------------
  // Event handlers

  datatype Effect =
    | FetchJoinRequests(slug: string)
    | RespondJoinRequest(slug: string, pk: int, action: string)
    | RemoveParticipant(slug: string, userId: int)
    | ReloadPage
    | Alert(message: string)

  const OperationFailed := "Operation failed"
  const RemoveFailed := "Failed to remove participant"

  class Panel {
    const slug: string
    var showRequests: bool
    var requests: seq<RequestView>
    var filter: string
    /** The calls, reloads and alerts the tab has issued, oldest first. */
    var effects: seq<Effect>

    /** The initial state: panel hidden, no requests, filter `pending`. */
    constructor (slug: string)
      ensures this.slug == slug
      ensures !showRequests && requests == [] && filter == "pending" && effects == []
    {
      this.slug := slug;
      showRequests, requests, filter, effects := false, [], "pending", [];
    }

    /** `loadRequests`. */
    method LoadRequests(outcome: FetchOutcome<RequestView>)
      modifies this
      ensures requests == AfterLoad(old(requests), outcome)
      ensures effects == old(effects) + [FetchJoinRequests(slug)]
      ensures showRequests == old(showRequests) && filter == old(filter)
    {
      effects := effects + [FetchJoinRequests(slug)];
      match outcome {
        case FetchFailed =>
        case Fetched(data) =>
          requests := if data.Some? then data.value else [];
      }
    }

    /** The toolbar button: flip `showRequests`; the effect then loads when the panel is now open. */
    method Toggle(outcome: FetchOutcome<RequestView>)
      modifies this
      ensures showRequests == !old(showRequests) && filter == old(filter)
      ensures showRequests ==>
        requests == AfterLoad(old(requests), outcome) && effects == old(effects) + [FetchJoinRequests(slug)]
      ensures !showRequests ==> requests == old(requests) && effects == old(effects)
    {
      showRequests := !showRequests;
      if showRequests {
        LoadRequests(outcome);
      }
    }

    /** The filter select: the effect reruns only when the value changed, and loads only while the panel is open. */
    method SetFilter(f: string, outcome: FetchOutcome<RequestView>)
      modifies this
      ensures filter == f && showRequests == old(showRequests)
      ensures f != old(filter) && showRequests ==>
        requests == AfterLoad(old(requests), outcome) && effects == old(effects) + [FetchJoinRequests(slug)]
      ensures f == old(filter) || !showRequests ==> requests == old(requests) && effects == old(effects)
    {
      if f != filter {
        filter := f;
        if showRequests {
          LoadRequests(outcome);
        }
      }
    }

    /**
     * `handleRespond`: on success reload the requests and then the page; on
     * failure alert. A failed reload of the requests is caught inside
     * `loadRequests`, so the page reload still follows.
     */
    method HandleRespond(pk: int, action: string, respondOk: bool, reload: FetchOutcome<RequestView>)
      modifies this
      ensures showRequests == old(showRequests) && filter == old(filter)
      ensures respondOk ==>
        requests == AfterLoad(old(requests), reload) &&
        effects == old(effects) + [RespondJoinRequest(slug, pk, action), FetchJoinRequests(slug), ReloadPage]
      ensures !respondOk ==>
        requests == old(requests) &&
        effects == old(effects) + [RespondJoinRequest(slug, pk, action), Alert(OperationFailed)]
    {
      effects := effects + [RespondJoinRequest(slug, pk, action)];
      if respondOk {
        LoadRequests(reload);
        effects := effects + [ReloadPage];
      } else {
        effects := effects + [Alert(OperationFailed)];
      }
    }

    /** `handleRemove`: nothing happens when the confirmation is declined. */
    method HandleRemove(userId: int, confirmed: bool, removeOk: bool)
      modifies this
      ensures showRequests == old(showRequests) && filter == old(filter) && requests == old(requests)
      ensures !confirmed ==> effects == old(effects)
      ensures confirmed && removeOk ==> effects == old(effects) + [RemoveParticipant(slug, userId), ReloadPage]
      ensures confirmed && !removeOk ==>
        effects == old(effects) + [RemoveParticipant(slug, userId), Alert(RemoveFailed)]
    {
      if !confirmed {
        return;
      }
      effects := effects + [RemoveParticipant(slug, userId)];
      if removeOk {
        effects := effects + [ReloadPage];
      } else {
        effects := effects + [Alert(RemoveFailed)];
      }
    }
  }
}
