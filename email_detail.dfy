/** The EmailDetail component (frontend/src/components/EmailDetail.tsx): the
    header badges and the two pieces of local state behind the editable AI
    response, `aiResponse` and `isEditing`, with their event handlers. */
module EmailDetail {
  import opened Mail

  /** The header badges: URGENT for an urgent email, then the sentiment badge. */
  function HeaderBadges(email: Email): (b: seq<string>)
    ensures "URGENT" in b <==> email.priority == Urgent
    ensures |b| >= 1 && b[|b| - 1] == SentimentName(email.sentiment)
  {
    (if email.priority == Urgent then ["URGENT"] else []) + [SentimentName(email.sentiment)]
  }

  /** The local state of the editor, with the `email` prop it is rendered
      with. The prop can change while the state lives on: the component has no
      `key`, and `useState` reads its argument only on mount. */
  datatype EditorState = EditorState(email: Email, aiResponse: string, isEditing: bool)

  /** The events: the Edit button, a change in the text area, Save Changes,
      Cancel, and a new `email` prop (another row selected in the list). */
  datatype EditEvent = EditClicked | Changed(value: string) | SaveClicked | CancelClicked | PropChanged(next: Email)

  /** `useState(email.aiResponse)` and `useState(false)` on mount. */
  function Initial(email: Email): (s: EditorState)
    ensures s.email == email && s.aiResponse == email.aiResponse && !s.isEditing
  {
    EditorState(email, email.aiResponse, false)
  }

  /** The effect of one event. */
  function Step(s: EditorState, ev: EditEvent): (r: EditorState)
    ensures ev.EditClicked? ==> r.isEditing == !s.isEditing
    ensures ev.Changed? ==> r.aiResponse == ev.value && r.isEditing == s.isEditing
    ensures ev.SaveClicked? ==> !r.isEditing
    ensures ev.CancelClicked? ==> r == Initial(s.email)
    ensures ev.PropChanged? ==> r.email == ev.next && r.isEditing == s.isEditing
    ensures !ev.PropChanged? ==> r.email == s.email
    ensures !ev.Changed? && !ev.CancelClicked? ==> r.aiResponse == s.aiResponse
  {
    match ev
    case EditClicked => s.(isEditing := !s.isEditing)
    case Changed(v) => s.(aiResponse := v)
    case SaveClicked => s.(isEditing := false)
    case CancelClicked => EditorState(s.email, s.email.aiResponse, false)
    case PropChanged(e) => s.(email := e)
  }

  /** The state after a sequence of events, oldest first. */
  function Run(s: EditorState, evs: seq<EditEvent>): EditorState
    decreases |evs|
  {
    if evs == [] then s else Run(Step(s, evs[0]), evs[1..])
  }

  lemma {:induction false} RunAppend(s: EditorState, evs: seq<EditEvent>, ev: EditEvent)
    ensures Run(s, evs + [ev]) == Step(Run(s, evs), ev)
    decreases |evs|
  {
    if evs != [] {
      assert (evs + [ev])[1..] == evs[1..] + [ev];
      RunAppend(Step(s, evs[0]), evs[1..], ev);
    }
  }

  /** Cancel discards every edit: whatever happened before, the editor is in
      the state a fresh mount with the current prop would have. */
  lemma CancelRestoresInitial(s: EditorState, evs: seq<EditEvent>)
    ensures Run(s, evs + [CancelClicked]) == Initial(Run(s, evs).email)
  {
    RunAppend(s, evs, CancelClicked);
  }

  /** Without a change event and without a new prop, the text stays the
      email's own response. */
  lemma {:induction false} TextChangesOnlyOnChange(s: EditorState, evs: seq<EditEvent>)
    requires s.aiResponse == s.email.aiResponse
    requires forall i :: 0 <= i < |evs| ==> !evs[i].Changed? && !evs[i].PropChanged?
    ensures Run(s, evs).email == s.email
    ensures Run(s, evs).aiResponse == s.email.aiResponse
    decreases |evs|
  {
    if evs != [] {
      TextChangesOnlyOnChange(Step(s, evs[0]), evs[1..]);
    }
  }

  /** Selecting another email keeps the text and the mode: the previous
      email's response is shown under the new email until a Cancel. */
  lemma {:induction false} SelectionKeepsStaleText(s: EditorState, next: Email, evs: seq<EditEvent>)
    requires forall i :: 0 <= i < |evs| ==> evs[i].EditClicked?
    ensures Run(s, [PropChanged(next)] + evs).email == next
    ensures Run(s, [PropChanged(next)] + evs).aiResponse == s.aiResponse
    ensures Run(s, [PropChanged(next)] + evs + [CancelClicked]) == Initial(next)
  {
    assert ([PropChanged(next)] + evs)[1..] == evs;
    EditTogglesOnly(s.(email := next), evs);
    CancelRestoresInitial(s, [PropChanged(next)] + evs);
  }

  /** An edit session — a change, then Edit clicks, then Save — keeps the last
      value typed and leaves edit mode. */
  lemma {:induction false} SaveKeepsLastChange(s: EditorState, v: string, later: seq<EditEvent>)
    requires forall i :: 0 <= i < |later| ==> later[i].EditClicked?
    ensures Run(s, [Changed(v)] + later + [SaveClicked]) == EditorState(s.email, v, false)
  {
    var evs := [Changed(v)] + later;
    RunAppend(s, evs, SaveClicked);
    assert evs[1..] == later;
    EditTogglesOnly(s.(aiResponse := v), later);
  }

  /** Edit clicks only flip the mode and never touch the text or the prop. */
  lemma {:induction false} EditTogglesOnly(s: EditorState, evs: seq<EditEvent>)
    requires forall i :: 0 <= i < |evs| ==> evs[i].EditClicked?
    ensures Run(s, evs).aiResponse == s.aiResponse && Run(s, evs).email == s.email
    ensures Run(s, evs).isEditing == (if |evs| % 2 == 0 then s.isEditing else !s.isEditing)
    decreases |evs|
  {
    if evs != [] {
      EditTogglesOnly(Step(s, evs[0]), evs[1..]);
    }
  }

  /** The component instance: the `email` prop and the two state variables. */
  class DraftEditor {
    var email: Email
    var aiResponse: string
    var isEditing: bool

    function State(): EditorState
      reads this
    {
      EditorState(email, aiResponse, isEditing)
    }

    /** Mounting with a prop. */
    constructor (email: Email)
      ensures this.email == email
      ensures aiResponse == email.aiResponse && !isEditing
      ensures State() == Initial(email)
    {
      this.email := email;
      aiResponse := email.aiResponse;
      isEditing := false;
    }

    /** A re-render with another `email` prop: the state is kept as it is. */
    method SelectEmail(next: Email)
      modifies this
      ensures email == next && aiResponse == old(aiResponse) && isEditing == old(isEditing)
      ensures State() == Step(old(State()), PropChanged(next))
    {
      email := next;
    }

    /** `setIsEditing(!isEditing)` */
    method EditClick()
      modifies this
      ensures isEditing == !old(isEditing) && aiResponse == old(aiResponse) && email == old(email)
      ensures State() == Step(old(State()), EditClicked)
    {
      isEditing := !isEditing;
    }

    /** `setAiResponse(e.target.value)`; the text area is rendered only in
        edit mode. */
    method Change(value: string)
      requires isEditing
      modifies this
      ensures aiResponse == value && isEditing && email == old(email)
      ensures State() == Step(old(State()), Changed(value))
    {
      aiResponse := value;
    }

    /** `setIsEditing(false)`: the edited text stays. The button is rendered
        only in edit mode. */
    method Save()
      requires isEditing
      modifies this
      ensures !isEditing && aiResponse == old(aiResponse) && email == old(email)
      ensures State() == Step(old(State()), SaveClicked)
    {
      isEditing := false;
    }

    /** `setAiResponse(email.aiResponse); setIsEditing(false)`, with the
        current prop. The button is rendered only in edit mode. */
    method Cancel()
      requires isEditing
      modifies this
      ensures !isEditing && aiResponse == email.aiResponse && email == old(email)
      ensures State() == Step(old(State()), CancelClicked)
    {
      aiResponse := email.aiResponse;
      isEditing := false;
    }
  }
}
