/** The request state machine shared by every presenter control
    (Controls/PresenterControlBase.cs). A request arriving while the control is
    Ready is loaded at once; one arriving while Loading cancels the load in
    flight and replaces it; one arriving while Presenting waits in a single
    pending slot, and a newer one ends the older one without a value. The
    observable handed back to each caller is a channel whose final status is
    recorded. The asynchronous completions are events: the load succeeding or
    failing, the subclass's presentation finishing or failing. */
module PresenterControls {
  import opened Types
  import OptionsExtensions

  datatype State = Ready | Loading | Presenting

  /** A request: its input, its options, and the channel on which its caller
      observes the outcome. */
  datatype Request = Request(input: Input, options: Options?, channel: nat)

  /** What a caller's observable has done so far. */
  datatype ChannelStatus = Open | Delivered(view: View?) | EndedEmpty | Failed(error: Exception)

  /** The asynchronous happenings the control reacts to, and the calls made on it. */
  datatype Event =
    | PresentCalled(input: Input, options: Options?)
    | LoadSucceededEvent(view: View?)
    | LoadFailedEvent(error: Exception)
    | PresentationDoneEvent
    | PresentationFailedEvent(error: Exception)

  /** The abstract state of a control: its state, the request whose load or
      presentation is in flight, the view loaded for it, the pending request and
      the status of every channel handed out so far (channel k is the k-th call
      of Present). */
  datatype Control = Control(state: State, current: Option<Request>, loaded: View?,
                             pending: Option<Request>, channels: seq<ChannelStatus>)
  {
    /** The request, if any, refers to a channel still open. */
    predicate Tracked(r: Option<Request>)
    {
      r.Some? ==> r.value.channel < |channels| && channels[r.value.channel] == Open
    }

    /** The invariant the control keeps: a pending request exists only while
        presenting, a load is always for a request, and every channel still open
        belongs to the request in flight or to the pending one, so no caller is
        left waiting on a request the control has forgotten. */
    predicate Inv()
    {
      && (pending.Some? ==> state == Presenting)
      && (state == Ready ==> current.None?)
      && (state == Loading ==> current.Some?)
      && Tracked(current) && Tracked(pending)
      && (current.Some? && pending.Some? ==> current.value.channel != pending.value.channel)
      && forall k :: 0 <= k < |channels| && channels[k] == Open ==>
           (current.Some? && current.value.channel == k) || (pending.Some? && pending.value.channel == k)
    }

    /** Channels are never removed, and a channel that has ended keeps its status. */
    predicate ExtendedBy(next: Control)
    {
      |channels| <= |next.channels| &&
      forall k :: 0 <= k < |channels| && channels[k] != Open ==> next.channels[k] == channels[k]
    }

    /** PresentNow: the request's load starts. */
    function Begin(r: Request): (next: Control)
      ensures next.state == Loading && next.current == Some(r)
      ensures next.pending == pending && next.channels == channels
    {
      Control(Loading, Some(r), null, pending, channels)
    }

    /** The request in flight ends with the given status. */
    function Settle(status: ChannelStatus): (next: Control)
      requires current.Some? && Tracked(current)
      ensures next.current.None? && next.state == state && next.pending == pending
      ensures |next.channels| == |channels|
      ensures next.channels[current.value.channel] == status
      ensures forall k :: 0 <= k < |channels| && k != current.value.channel ==> next.channels[k] == channels[k]
    {
      this.(current := None, channels := channels[current.value.channel := status])
    }

    /** CompleteRequest: back to Ready, then the pending request, if any, is
        started and the slot emptied. */
    function CompleteRequest(): (next: Control)
      ensures pending.None? ==> next.state == Ready && next.current == current && next.pending.None?
      ensures pending.Some? ==> next.state == Loading && next.current == pending && next.pending.None?
      ensures next.channels == channels
    {
      if pending.Some? then this.(state := Ready).Begin(pending.value).(pending := None)
      else this.(state := Ready)
    }

    /** CancelLoading: back to Ready and the load in flight is cancelled; its
        chain then ends without a value, which runs CompleteRequest. */
    function CancelLoading(): (next: Control)
      requires state == Loading && current.Some? && Tracked(current)
      ensures next.current.None? || next.current == pending
      ensures next.channels == channels[current.value.channel := EndedEmpty]
    {
      this.(state := Ready).Settle(EndedEmpty).CompleteRequest()
    }

    /** PresentLater: the previous pending request ends without a value and the
        new one takes the slot. */
    function PresentLater(r: Request): (next: Control)
      requires Tracked(pending)
      ensures next.pending == Some(r) && next.state == state && next.current == current
      ensures |next.channels| == |channels|
      ensures pending.Some? ==> next.channels[pending.value.channel] == EndedEmpty
      ensures forall k :: 0 <= k < |channels| && (pending.None? || k != pending.value.channel) ==>
                next.channels[k] == channels[k]
    {
      var channels' := if pending.Some? then channels[pending.value.channel := EndedEmpty] else channels;
      this.(channels := channels', pending := Some(r))
    }

    /** Present: a new channel is handed out; the request is loaded at once when
        Ready, replaces the cancelled load when Loading, and waits in the pending
        slot when Presenting. */
    function Present(input: Input, options: Options?): (next: Control)
      requires Inv()
      ensures next.Inv() && ExtendedBy(next)
      ensures |next.channels| == |channels| + 1 && next.channels[|channels|] == Open
      ensures state == Ready ==>
        next.state == Loading && next.current == Some(Request(input, options, |channels|)) &&
        next.pending.None? && next.channels == channels + [Open]
      ensures state == Loading ==>
        next.state == Loading && next.current == Some(Request(input, options, |channels|)) &&
        next.pending.None? && next.channels == channels[current.value.channel := EndedEmpty] + [Open]
      ensures state == Presenting ==>
        next.state == Presenting && next.current == current && next.loaded == loaded &&
        next.pending == Some(Request(input, options, |channels|)) &&
        next.channels == (if pending.Some? then channels[pending.value.channel := EndedEmpty] else channels) + [Open]
    {
      var r := Request(input, options, |channels|);
      match state
      case Ready => PresentWhenReady(r)
      case Loading => PresentWhenLoading(r)
      case Presenting => PresentWhenPresenting(r)
    }

    /** Present while Ready, on the new channel `r.channel`. */
    function PresentWhenReady(r: Request): (next: Control)
      requires Inv() && state == Ready && r.channel == |channels|
      ensures next.Inv() && ExtendedBy(next)
      ensures next.state == Loading && next.current == Some(r) && next.pending.None? &&
        next.channels == channels + [Open]
    {
      this.(channels := channels + [Open]).Begin(r)
    }

    /** Present while Loading, on the new channel `r.channel`. */
    function PresentWhenLoading(r: Request): (next: Control)
      requires Inv() && state == Loading && r.channel == |channels|
      ensures next.Inv() && ExtendedBy(next)
      ensures next.state == Loading && next.current == Some(r) && next.pending.None? &&
        next.channels == channels[current.value.channel := EndedEmpty] + [Open]
    {
      var opened' := this.(channels := channels + [Open]);
      assert opened'.channels[current.value.channel := EndedEmpty] == channels[current.value.channel := EndedEmpty] + [Open];
      opened'.CancelLoading().Begin(r)
    }

    /** Present while Presenting, on the new channel `r.channel`. */
    function PresentWhenPresenting(r: Request): (next: Control)
      requires Inv() && state == Presenting && r.channel == |channels|
      ensures next.Inv() && ExtendedBy(next)
      ensures next.state == Presenting && next.current == current && next.loaded == loaded &&
        next.pending == Some(r) &&
        next.channels == (if pending.Some? then channels[pending.value.channel := EndedEmpty] else channels) + [Open]
    {
      var opened' := this.(channels := channels + [Open]);
      assert pending.Some? ==>
        opened'.channels[pending.value.channel := EndedEmpty] == channels[pending.value.channel := EndedEmpty] + [Open];
      opened'.PresentLater(r)
    }

    /** The load delivered a view: the control is presenting it. */
    function LoadSucceeded(view: View?): (next: Control)
      requires Inv() && state == Loading
      ensures next.Inv() && ExtendedBy(next)
      ensures next.state == Presenting && next.loaded == view
      ensures next.current == current && next.pending == pending && next.channels == channels
    {
      this.(state := Presenting, loaded := view)
    }

    /** The load failed: the request's channel fails and the control is Ready. */
    function LoadFailed(e: Exception): (next: Control)
      requires Inv() && state == Loading
      ensures next.Inv() && ExtendedBy(next)
      ensures next.state == Ready && next.current.None? && next.pending.None?
      ensures next.channels == channels[current.value.channel := Failed(e)]
    {
      this.(state := Ready).Settle(Failed(e))
    }

    /** The presentation finished: the loaded view is delivered, the control is
        Ready, and a pending request is started. */
    function PresentationDone(): (next: Control)
      requires Inv() && state == Presenting && current.Some?
      ensures next.Inv() && ExtendedBy(next)
      ensures next.channels == channels[current.value.channel := Delivered(loaded)]
      ensures pending.None? ==> next.state == Ready && next.current.None?
      ensures pending.Some? ==> next.state == Loading && next.current == pending && next.pending.None?
    {
      this.Settle(Delivered(loaded)).CompleteRequest()
    }

    /** The presentation failed: the request's channel fails, but the control
        stays Presenting (only load errors restore Ready), so a pending request is
        never started. */
    function PresentationFailed(e: Exception): (next: Control)
      requires Inv() && state == Presenting && current.Some?
      ensures next.Inv() && ExtendedBy(next)
      ensures next.state == Presenting && next.current.None? && next.pending == pending
      ensures next.channels == channels[current.value.channel := Failed(e)]
    {
      this.Settle(Failed(e))
    }

    /** Whether the event can happen in this state. */
    predicate Enabled(ev: Event)
    {
      match ev
      case PresentCalled(_, _) => true
      case LoadSucceededEvent(_) => state == Loading
      case LoadFailedEvent(_) => state == Loading
      case PresentationDoneEvent => state == Presenting && current.Some?
      case PresentationFailedEvent(_) => state == Presenting && current.Some?
    }

    function Step(ev: Event): (next: Control)
      requires Inv()
      ensures next.Inv() && ExtendedBy(next)
    {
      if !Enabled(ev) then this
      else match ev
        case PresentCalled(input, options) => Present(input, options)
        case LoadSucceededEvent(view) => LoadSucceeded(view)
        case LoadFailedEvent(e) => LoadFailed(e)
        case PresentationDoneEvent => PresentationDone()
        case PresentationFailedEvent(e) => PresentationFailed(e)
    }

    /** The state after a sequence of events, disabled ones being ignored. */
    function Run(evs: seq<Event>): (next: Control)
      requires Inv()
      ensures next.Inv()
      decreases |evs|
    {
      if evs == [] then this else Step(evs[0]).Run(evs[1..])
    }
  }

  /** A newly constructed control. */
  const Initial := Control(Ready, None, null, None, [])

  lemma InitialIsValid()
    ensures Initial.Inv() && Initial.state == Ready && Initial.channels == []
  {
  }

  /** Once a caller's observable has ended, whatever happens next never changes
      its outcome, and no channel disappears. */
  lemma {:induction false} EndedChannelsStayEnded(c: Control, evs: seq<Event>, k: nat)
    requires c.Inv() && k < |c.channels| && c.channels[k] != Open
    ensures k < |c.Run(evs).channels| && c.Run(evs).channels[k] == c.channels[k]
    decreases |evs|
  {
    if evs != [] {
      var next := c.Step(evs[0]);
      assert next.channels[k] == c.channels[k];
      EndedChannelsStayEnded(next, evs[1..], k);
    }
  }

  /** Two requests made during a presentation: the first ends without a value
      when the second arrives, and when the presentation finishes the view is
      delivered and only the second request is loaded. */
  lemma LastPendingRequestWins(c: Control, i1: Input, o1: Options?, i2: Input, o2: Options?)
    requires c.Inv() && c.state == Presenting && c.current.Some?
    ensures var n := |c.channels|;
            var d := c.Present(i1, o1).Present(i2, o2).PresentationDone();
            && d.state == Loading && d.current == Some(Request(i2, o2, n + 1)) && d.pending.None?
            && d.channels[n] == EndedEmpty && d.channels[n + 1] == Open
            && d.channels[c.current.value.channel] == Delivered(c.loaded)
  {
    var n := |c.channels|;
    var c1 := c.Present(i1, o1);
    var c2 := c1.Present(i2, o2);
    assert c2.channels[n] == EndedEmpty;
    assert c2.channels[c.current.value.channel] == Open;
  }

  /** The control object: the abstract state above held in fields, plus the
      cancellation token of the load in flight and the options the loader was
      given (the caller's options extended with the control's variants). */
  class PresenterControl {
    const variants: seq<string>
    var state: State
    var current: Option<Request>
    var loaded: View?
    var pending: Option<Request>
    var channels: seq<ChannelStatus>
    var token: CancellationToken?
    var loadOptions: Options?

    function Snapshot(): Control
      reads this
    {
      Control(state, current, loaded, pending, channels)
    }

    /** The abstract invariant, and the load in flight has not been cancelled. */
    predicate Valid()
      reads this, token
    {
      Snapshot().Inv() && (state == Loading ==> token != null && !token.isCancellationRequested)
    }

    function PendingOptions(): set<object?>
      reads this
    {
      if pending.Some? then {pending.value.options} else {}
    }

    constructor (vs: seq<string>)
      ensures Valid() && Snapshot() == Initial && variants == vs
    {
      variants := vs;
      state, current, loaded, pending, channels := Ready, None, null, None, [];
      token, loadOptions := null, null;
    }

    method Present(input: Input, options: Options?) returns (channel: nat)
      requires Valid()
      modifies this, token, options
      ensures Valid()
      ensures Snapshot() == old(Snapshot()).Present(input, options)
      ensures channel == old(|channels|)
      ensures old(state) == Loading ==> old(token).isCancellationRequested
      ensures old(state) != Presenting ==>
        fresh(token) && !token.isCancellationRequested &&
        (loadOptions != null ==>
           OptionsExtensions.GetVariants(loadOptions) == old(OptionsExtensions.GetVariants(options)) + variants)
      ensures old(state) != Presenting ==> OptionsExtensions.Extended(options, loadOptions, variants)
      ensures old(state) == Presenting ==>
        token == old(token) && loadOptions == old(loadOptions) && (options != null ==> unchanged(options))
    {
      channel := |channels|;
      channels := channels + [Open];
      var r := Request(input, options, channel);
      if state == Ready {
        PresentNow(r);
      } else if state == Loading {
        CancelLoading();
        PresentNow(r);
      } else {
        PresentLater(r);
      }
    }

    method PresentNow(r: Request)
      modifies this, r.options
      ensures Snapshot() == old(Snapshot()).Begin(r)
      ensures fresh(token) && !token.isCancellationRequested
      ensures loadOptions != null ==>
        OptionsExtensions.GetVariants(loadOptions) == old(OptionsExtensions.GetVariants(r.options)) + variants
      ensures variants == [] ==> loadOptions == r.options
      ensures OptionsExtensions.Extended(r.options, loadOptions, variants)
    {
      state := Loading;
      current, loaded := Some(r), null;
      // LoadView: a fresh token, and the options extended with the variants.
      token := new CancellationToken();
      loadOptions := OptionsExtensions.WithExtraVariants(r.options, variants);
    }

    method PresentLater(r: Request)
      requires Snapshot().Tracked(pending)
      modifies this
      ensures Snapshot() == old(Snapshot()).PresentLater(r)
      ensures token == old(token) && loadOptions == old(loadOptions)
    {
      if pending.Some? {
        channels := channels[pending.value.channel := EndedEmpty];
      }
      pending := Some(r);
    }

    method CancelLoading()
      requires state == Loading && current.Some? && Snapshot().Tracked(current)
      requires pending.None? && token != null
      modifies this, token
      ensures Snapshot() == old(Snapshot()).CancelLoading()
      ensures token == old(token) && token.isCancellationRequested
    {
      state := Ready;
      token.isCancellationRequested := true;
      // TakeUntil ends the cancelled chain without a value; its completion
      // handler is CompleteRequest.
      channels := channels[current.value.channel := EndedEmpty];
      current := None;
      CompleteRequest();
    }

    method CompleteRequest()
      modifies this, PendingOptions()
      ensures Snapshot() == old(Snapshot()).CompleteRequest()
      ensures old(pending).None? ==> token == old(token) && loadOptions == old(loadOptions)
      ensures old(pending).Some? ==> fresh(token) && !token.isCancellationRequested
      ensures old(pending).Some? ==> OptionsExtensions.Extended(old(pending).value.options, loadOptions, variants)
    {
      state := Ready;
      if pending.Some? {
        PresentNow(pending.value);
        pending := None;
      }
    }

    method LoadSucceeded(view: View?)
      requires Valid() && state == Loading
      modifies this
      ensures Valid()
      ensures Snapshot() == old(Snapshot()).LoadSucceeded(view)
    {
      // OnViewReady is a hook subclasses override; here it does nothing.
      state := Presenting;
      loaded := view;
    }

    method LoadFailed(e: Exception)
      requires Valid() && state == Loading
      modifies this
      ensures Valid()
      ensures Snapshot() == old(Snapshot()).LoadFailed(e)
    {
      state := Ready;
      channels := channels[current.value.channel := Failed(e)];
      current := None;
    }

    method PresentationDone()
      requires Valid() && state == Presenting && current.Some?
      modifies this, PendingOptions()
      ensures Valid()
      ensures Snapshot() == old(Snapshot()).PresentationDone()
      ensures old(pending).None? ==> token == old(token) && loadOptions == old(loadOptions)
      ensures old(pending).Some? ==> fresh(token) && !token.isCancellationRequested
      ensures old(pending).Some? ==> OptionsExtensions.Extended(old(pending).value.options, loadOptions, variants)
    {
      channels := channels[current.value.channel := Delivered(loaded)];
      current := None;
      CompleteRequest();
    }

    method PresentationFailed(e: Exception)
      requires Valid() && state == Presenting && current.Some?
      modifies this
      ensures Valid()
      ensures Snapshot() == old(Snapshot()).PresentationFailed(e)
    {
      channels := channels[current.value.channel := Failed(e)];
      current := None;
    }
  }
}
