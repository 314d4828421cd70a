/** Ending a span: what is posted, and what the debug session is charged for it. */
module SpanEnd {
  import opened DebugSession
  import opened Options
  import opened SpanStart

  datatype Posted = Posted(spanID: string, parentSpanID: string, argsJSON: Bytes, returned: Option<Bytes>)

  function Size(value: Option<Bytes>): nat {
    if value.Some? then |value.value| else 0
  }

  class Recorder {
    const tracker: Tracker
    var posted: seq<Posted>

    constructor (tracker: Tracker)
      ensures this.tracker == tracker && posted == []
    {
      this.tracker, posted := tracker, [];
    }

    /** A no-op span, and one whose rule's post-call conditions fail, leave no trace.  Any other is
        posted, with its return value only if that is captured within a positive limit, and then
        charged to the active session by the size of what was recorded. */
    method End(s: Span, value: Option<Bytes>, postCallHolds: bool)
      modifies this`posted, tracker, tracker.active
      ensures s.noop || (s.hasPostCall && !postCallHolds) ==>
                posted == old(posted) && tracker.View() == old(tracker.View()) && tracker.fired == old(tracker.fired)
      ensures !s.noop && (s.hasPostCall ==> postCallHolds) ==>
                var returned := if s.settings.captureReturn && s.settings.retLimit > 0 then value else None;
                && posted == old(posted) + [Posted(s.spanID, s.parentSpanID, s.argsJSON, returned)]
                && tracker.View() == Recorded(old(tracker.View()), |s.argsJSON| + Size(returned)).0
                && tracker.fired == old(tracker.Fired(Recorded(tracker.View(), |s.argsJSON| + Size(returned)).1))
      ensures SpanStart.End(s, value, postCallHolds).Dropped? <==> posted == old(posted)
    {
      if s.noop {
        return;
      }
      var returned: Option<Bytes> := None;
      if s.settings.captureReturn && s.settings.retLimit > 0 && value.Some? {
        returned := value;
      }
      if s.hasPostCall && !postCallHolds {
        return;
      }
      posted := posted + [Posted(s.spanID, s.parentSpanID, s.argsJSON, returned)];
      if tracker.active != null {
        var bytes := |s.argsJSON|;
        if returned.Some? {
          bytes := bytes + |returned.value|;
        }
        tracker.RecordSpanEmitted(bytes);
      }
    }
  }
}
