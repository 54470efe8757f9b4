/** The serialized event writer: many tasks call it, one queue appends for them. */
module EventWriter {
  import opened Wrappers
  import opened CampaignEvents

  datatype Request = Request(kind: EventKind, taskId: Option<Id>)

  /** What the writer has stored, and whether an append has failed for good. */
  datatype Journal = Journal(events: seq<CampaignEvent>, broken: bool)

  function EventFor(campaignId: Id, request: Request, revision: nat): CampaignEvent {
    CampaignEvent(campaignId, revision, request.kind, request.taskId)
  }

  /** One emission: a failed append breaks the queue, and a broken queue appends nothing more. */
  function Emitted(campaignId: Id, j: Journal, request: Request, accepts: bool): Journal {
    if j.broken then j
    else if !accepts then Journal(j.events, true)
    else Journal(j.events + [EventFor(campaignId, request, |j.events| + 1)], false)
  }

  class EventWriter {
    const campaignId: Id
    var revision: nat
    /** Calls whose turn has not come. */
    var queue: seq<Request>
    /** The promise chain has rejected: later callbacks never run. */
    var rejected: bool
    /** The store's journal. */
    var stored: seq<CampaignEvent>
    /** Every call so far, in call order, and what the store held before the first one. */
    ghost var calls: seq<Request>
    ghost var initial: seq<CampaignEvent>

    /** The journal is what it was at the start plus the first calls, in call order and numbered without gap or repeat;
        it lacks only the calls still queued, unless an append failed. */
    ghost predicate Valid()
      reads this
    {
      && initial <= stored
      && |stored| - |initial| <= |calls|
      && (forall i :: |initial| <= i < |stored| ==> stored[i] == EventFor(campaignId, calls[i - |initial|], i + 1))
      && (!rejected ==> revision == |stored| && queue == calls[|stored| - |initial|..])
    }

    function View(): Journal
      reads this
    {
      Journal(stored, rejected)
    }

    constructor (campaignId: Id, stored: seq<CampaignEvent>)
      ensures Valid()
      ensures this.campaignId == campaignId && calls == [] && queue == [] && initial == stored
      ensures View() == Journal(stored, false)
    {
      this.campaignId := campaignId;
      this.revision := |stored|;
      this.stored, this.initial := stored, stored;
      this.queue, this.calls, this.rejected := [], [], false;
    }

    /** A call only joins the queue. */
    method Call(request: Request)
      requires Valid()
      modifies this
      ensures Valid() && View() == old(View()) && initial == old(initial)
      ensures calls == old(calls) + [request] && queue == old(queue) + [request]
    {
      queue := queue + [request];
      calls := calls + [request];
    }

    /** The head of the queue gets its turn; `accepts` is the store's answer. */
    method Turn(accepts: bool) returns (ok: bool)
      requires Valid() && queue != []
      modifies this
      ensures Valid() && initial == old(initial) && calls == old(calls)
      ensures queue == old(queue)[1..]
      ensures View() == Emitted(campaignId, old(View()), old(queue)[0], accepts)
      ensures ok <==> !View().broken
    {
      var request := queue[0];
      queue := queue[1..];
      if rejected {
        return false;
      }
      assert request == calls[|stored| - |initial|];
      revision := revision + 1;
      var event := EventFor(campaignId, request, revision);
      if !accepts || event.revision != |stored| + 1 {
        rejected := true;
        return false;
      }
      stored := stored + [event];
      return true;
    }

    /** One awaited emission. */
    method Emit(kind: EventKind, taskId: Option<Id>, accepts: bool) returns (ok: bool)
      requires Valid() && queue == []
      modifies this
      ensures Valid() && queue == [] && initial == old(initial)
      ensures calls == old(calls) + [Request(kind, taskId)]
      ensures View() == Emitted(campaignId, old(View()), Request(kind, taskId), accepts)
      ensures ok <==> !View().broken
    {
      Call(Request(kind, taskId));
      ok := Turn(accepts);
    }
  }

  predicate WellFormed(request: Request) {
    IsTaskEvent(request.kind) <==> request.taskId.Some?
  }

  /** A journal the projection accepts, as a journal of the given campaign. */
  ghost predicate AcceptedFor(campaignId: Id, events: seq<CampaignEvent>) {
    forall i :: 0 <= i < |events| ==> EventFits(events[i], campaignId, i)
  }

  lemma AcceptedForIsAccepted(campaignId: Id, events: seq<CampaignEvent>)
    requires AcceptedFor(campaignId, events)
    ensures Accepted(events)
  {
    if events != [] {
      assert EventFits(events[0], campaignId, 0);
    }
  }

  /** Emissions that name a task exactly for task events, and plan the campaign only at the start, keep it so. */
  lemma EmittedAccepted(campaignId: Id, j: Journal, request: Request, accepts: bool)
    requires AcceptedFor(campaignId, j.events) && WellFormed(request)
    requires request.kind.CampaignPlanned? ==> j.events == []
    ensures AcceptedFor(campaignId, Emitted(campaignId, j, request, accepts).events)
  {
  }

}
