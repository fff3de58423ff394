/** The stateful part of the live page (frontend/src/pages/Index.tsx): the
    component state `emails`, `loading` and `actionLoading`, changed step by
    step by the load, the realtime handlers and the four action handlers. */
module IndexPage {
  import opened Optional
  import opened EmailFeed

  /** The `actionLoading` value of the fetch action, which has no row id. */
  const FetchMarker: int := -1

  /** The four actions; each handler sets the marker, awaits one remote call
      and clears the marker. */
  datatype Action = FetchLatest | GenerateDraft(id: int) | MarkResolved(id: int) | SendReply(id: int)

  /** How the awaited call ended; the handlers clear the marker either way. */
  datatype Outcome = Succeeded | Failed

  datatype BusyEvent = Started(action: Action) | Finished(action: Action, outcome: Outcome)

  /** The marker an action sets: -1 for the fetch, otherwise the row id. */
  function MarkerOf(a: Action): (m: int)
    ensures a.FetchLatest? ==> m == FetchMarker
    ensures !a.FetchLatest? ==> m == a.id
  {
    match a
    case FetchLatest => FetchMarker
    case GenerateDraft(id) => id
    case MarkResolved(id) => id
    case SendReply(id) => id
  }

  /** `setActionLoading(marker)` at a start, `setActionLoading(null)` at a finish. */
  function NextMarker(m: Option<int>, e: BusyEvent): (r: Option<int>)
    ensures e.Started? ==> r == Some(MarkerOf(e.action))
    ensures e.Finished? ==> r == None
  {
    match e
    case Started(a) => Some(MarkerOf(a))
    case Finished(_, _) => None
  }

  /** The marker after a sequence of start and finish events, oldest first. */
  function RunMarker(m: Option<int>, events: seq<BusyEvent>): Option<int>
    decreases |events|
  {
    if events == [] then m else RunMarker(NextMarker(m, events[0]), events[1..])
  }

  /** The marker is a single scalar: it reflects only the most recent event,
      whatever came before. */
  lemma {:induction false} MarkerFollowsLastEvent(m: Option<int>, events: seq<BusyEvent>)
    ensures RunMarker(m, events) == if events == [] then m else NextMarker(m, events[|events| - 1])
    decreases |events|
  {
    if |events| > 1 {
      MarkerFollowsLastEvent(NextMarker(m, events[0]), events[1..]);
      assert events[1..][|events[1..]| - 1] == events[|events| - 1];
    }
  }

  /** A finish, successful or failed, always leaves the marker clear: no
      failure can leave a control disabled. */
  lemma FinishClearsMarker(m: Option<int>, events: seq<BusyEvent>, a: Action, o: Outcome)
    ensures RunMarker(m, events + [Finished(a, o)]) == None
  {
    MarkerFollowsLastEvent(m, events + [Finished(a, o)]);
  }

  /** `disabled={actionLoading === -1}` on the fetch button: disabled exactly
      while the marker is the one the fetch action sets. */
  function FetchDisabled(m: Option<int>): (d: bool)
    ensures d <==> m == Some(MarkerOf(FetchLatest))
  {
    m == Some(FetchMarker)
  }

  /** `disabled={actionLoading === email.id}` on a row's three buttons:
      disabled exactly while the marker is the one any of the row's own
      three actions sets. */
  function RowDisabled(m: Option<int>, id: int): (d: bool)
    ensures d <==> m == Some(MarkerOf(GenerateDraft(id)))
    ensures d <==> m == Some(MarkerOf(MarkResolved(id)))
    ensures d <==> m == Some(MarkerOf(SendReply(id)))
  {
    m == Some(id)
  }

  /** Right after an action starts, its own control is disabled. The fetch
      button is disabled by the fetch, and by a row action only when that
      row's id equals the sentinel -1. */
  lemma StartDisablesOwnControl(m: Option<int>, a: Action, id: int)
    ensures FetchDisabled(NextMarker(m, Started(a))) <==> (a.FetchLatest? || a.id == FetchMarker)
    ensures !a.FetchLatest? ==> (RowDisabled(NextMarker(m, Started(a)), id) <==> id == a.id)
  {
  }

  /** Starting a second action re-enables the control of the first while the
      first is still in flight, and the first one to finish clears the marker
      of the other. */
  lemma SecondActionOverridesFirst(m: Option<int>, a: Action, b: Action, o: Outcome)
    requires MarkerOf(a) != MarkerOf(b)
    ensures RunMarker(m, [Started(a), Started(b)]) == Some(MarkerOf(b))
    ensures !RowDisabled(RunMarker(m, [Started(a), Started(b)]), MarkerOf(a))
    ensures RunMarker(m, [Started(a), Started(b), Finished(a, o)]) == None
  {
    MarkerFollowsLastEvent(m, [Started(a), Started(b)]);
    MarkerFollowsLastEvent(m, [Started(a), Started(b), Finished(a, o)]);
  }

  /** The result of the initial read of the `emails` table. */
  datatype ReadResult = ReadOk(data: Option<seq<RawRow>>) | ReadError(message: string)

  /** The live page component with its three pieces of state. */
  class Page {
    var emails: seq<EmailRow>
    var loading: bool
    var actionLoading: Option<int>

    /** `useState([])`, `useState(true)`, `useState(null)`. */
    constructor ()
      ensures emails == [] && loading && actionLoading == None
    {
      emails := [];
      loading := true;
      actionLoading := None;
    }

    /** `setLoading(true)` before the read is awaited. */
    method BeginLoad()
      modifies this
      ensures loading
      ensures emails == old(emails) && actionLoading == old(actionLoading)
    {
      loading := true;
    }

    /** The end of the initial read: on success the list becomes the fetched
        rows, normalised and in the order the query returned them; on an error
        the list is left as it is. Loading ends in both cases. */
    method CompleteLoad(result: ReadResult)
      modifies this
      ensures !loading
      ensures result.ReadOk? ==> emails == LoadedRows(result.data)
      ensures result.ReadError? ==> emails == old(emails)
      ensures actionLoading == old(actionLoading)
    {
      if result.ReadOk? {
        emails := LoadedRows(result.data);
      }
      loading := false;
    }

    /** The realtime INSERT handler. */
    method OnInsert(row: RawRow)
      modifies this
      ensures emails == ApplyInsert(old(emails), row)
      ensures |emails| == |old(emails)| + 1 && SortedByPriority(emails)
      ensures loading == old(loading) && actionLoading == old(actionLoading)
    {
      emails := ApplyInsert(emails, row);
    }

    /** The realtime UPDATE handler. */
    method OnUpdate(row: RawRow)
      modifies this
      ensures emails == ApplyUpdate(old(emails), row)
      ensures |emails| == |old(emails)| && SortedByPriority(emails)
      ensures loading == old(loading) && actionLoading == old(actionLoading)
    {
      emails := ApplyUpdate(emails, row);
    }

    /** The first half of a handler: `setActionLoading(-1)` or
        `setActionLoading(id)` before the remote call is awaited. The page
        offers the control only once loading is over, only while it is not
        disabled, and a row's buttons only for a row in the list. */
    method StartAction(a: Action)
      requires !loading
      requires a.FetchLatest? ==> !FetchDisabled(actionLoading)
      requires !a.FetchLatest? ==> !RowDisabled(actionLoading, a.id)
      requires !a.FetchLatest? ==> exists i :: 0 <= i < |emails| && emails[i].id == a.id
      modifies this
      ensures actionLoading == Some(MarkerOf(a))
      ensures actionLoading == NextMarker(old(actionLoading), Started(a))
      ensures emails == old(emails) && loading == old(loading)
    {
      actionLoading := Some(MarkerOf(a));
    }

    /** The second half of a handler: `setActionLoading(null)` once the call
        returned or failed, whatever the marker then holds. */
    method FinishAction(a: Action, outcome: Outcome)
      modifies this
      ensures actionLoading == None
      ensures actionLoading == NextMarker(old(actionLoading), Finished(a, outcome))
      ensures emails == old(emails) && loading == old(loading)
    {
      actionLoading := None;
    }
  }
}
