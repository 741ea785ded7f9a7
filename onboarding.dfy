/**
 * The guided tour: it starts when the completion flag is not stored, walks its steps on
 * the tour library's events, and stores the flag once the tour is finished or skipped.
 */
module Onboarding {
  import opened Wrappers
  import opened Js
  import opened Storage

  const TourCompletedKey := "synks_tour_completed"

  /** The elements the user tour points at, in order. */
  const UserTargets: seq<string> :=
    [".user-dashboard-header", ".dashboard-logo", ".search-bar", ".product-card", ".refresh-btn", ".logout-btn"]

  /** The elements the admin tour points at, in order. */
  const AdminTargets: seq<string> :=
    [".admin-dashboard-header", ".admin-table", ".search-input", ".btn-new-user", ".action-btns", ".refresh-btn"]

  /** `isAdmin ? adminSteps : userSteps`. */
  function Steps(isAdmin: JsValue): (r: seq<string>)
    ensures |r| == 6
    ensures r == AdminTargets <==> Truthy(isAdmin)
    ensures r == UserTargets <==> !Truthy(isAdmin)
  {
    assert AdminTargets[0] != UserTargets[0];
    if Truthy(isAdmin) then AdminTargets else UserTargets
  }

  /** The library's event types, actions and statuses the callback looks at. */
  datatype EventType = StepAfter | TargetNotFound | OtherEvent
  datatype Action = Prev | OtherAction
  datatype TourStatus = Finished | Skipped | Running | OtherStatus

  datatype TourEvent = TourEvent(action: Action, index: int, status: TourStatus, eventType: EventType)

  predicate StepEvent(e: TourEvent) {
    e.eventType == StepAfter || e.eventType == TargetNotFound
  }

  predicate Ended(e: TourEvent) {
    e.status == Finished || e.status == Skipped
  }

  class Tour {
    const isAdmin: JsValue
    var run: bool
    var stepIndex: int

    constructor (isAdmin: JsValue)
      ensures this.isAdmin == isAdmin && !run && stepIndex == 0
    {
      this.isAdmin := isAdmin;
      run := false;
      stepIndex := 0;
    }

    /** The mount effect: the tour is scheduled iff no non-empty completion flag is stored.
        Returns whether it was. */
    method Start(ls: LocalStorage) returns (scheduled: bool)
      modifies this
      ensures scheduled <==> !(TourCompletedKey in ls.items && ls.items[TourCompletedKey] != "")
      ensures scheduled ==> run
      ensures !scheduled ==> run == old(run)
      ensures stepIndex == old(stepIndex)
    {
      var hasCompletedTour := ls.GetItem(TourCompletedKey);
      scheduled := hasCompletedTour.None? || hasCompletedTour.value == "";
      if scheduled {
        run := true;
      }
    }

    /** `handleJoyrideCallback`: a step event moves one step back for PREV, else one forward,
        with no bound; otherwise a finished or skipped tour stops, stores the flag and
        reports completion when a handler is given.  Returns whether it was reported. */
    method HandleCallback(ls: LocalStorage, e: TourEvent, hasOnComplete: bool) returns (completed: bool)
      modifies this, ls
      ensures StepEvent(e) ==> stepIndex == e.index + (if e.action == Prev then -1 else 1)
      ensures StepEvent(e) ==> run == old(run) && ls.items == old(ls.items) && !completed
      ensures !StepEvent(e) && Ended(e) ==> !run && ls.items == old(ls.items)[TourCompletedKey := "true"]
      ensures !StepEvent(e) && Ended(e) ==> completed == hasOnComplete && stepIndex == old(stepIndex)
      ensures !StepEvent(e) && !Ended(e) ==> run == old(run) && stepIndex == old(stepIndex) && ls.items == old(ls.items)
      ensures !StepEvent(e) && !Ended(e) ==> !completed
    {
      completed := false;
      if StepEvent(e) {
        stepIndex := e.index + (if e.action == Prev then -1 else 1);
      } else if Ended(e) {
        run := false;
        ls.SetItem(TourCompletedKey, Str("true"));
        completed := hasOnComplete;
      }
    }
  }

  /** Once a tour has ended, mounting it again never schedules it. */
  lemma EndedTourStaysOff(items: map<string, string>)
    ensures var after := items[TourCompletedKey := "true"]; TourCompletedKey in after && after[TourCompletedKey] != ""
  {
  }
}
