/** The admin page listing wallet top-up requests: the approve and reject handlers,
    the per-request `processing` flags and the status badges. */
module TopupRequestsPage {
  import opened Wrappers
  import opened JsText
  import opened JsValue
  import TopupApi

  const NotAdminMessage := "You must be logged in as admin"
  const ReasonRequiredMessage := "Rejection reason is required"

  /** The arguments of one `processTopupRequest` call. */
  datatype ProcessCall = ProcessCall(requestId: Value, action: string, adminId: Value,
                                     adminNotes: Value, rejectionReason: Value)

  /** What a handler does before any request: nothing (the prompt was cancelled), an
      alert, or the call. */
  datatype Start = Cancelled | Alert(message: string) | Call(call: ProcessCall)

  /** `handleApprove` up to the call. `notes` is the prompt's answer, `None` when it
      was cancelled; empty notes are sent as `null`. */
  function StartApprove(request: Payload, notes: Option<string>, user: Value): (s: Start)
    ensures s == Cancelled <==> notes.None?
    ensures s == Alert(NotAdminMessage) <==> notes.Some? && Nullish(user)
    ensures s.Call? ==>
              s.call == ProcessCall(Field(request, "request_id"), "approve", OptGet(user, "id"),
                                    if notes.value == "" then Null else Str(notes.value), Null)
  {
    match notes
    case None => Cancelled
    case Some(n) =>
      if Nullish(user) then Alert(NotAdminMessage)
      else Call(ProcessCall(Field(request, "request_id"), "approve", OptGet(user, "id"),
                            if n == "" then Null else Str(n), Null))
  }

  /** `handleReject` up to the call. `reason` is the prompt's answer, `None` when it was
      cancelled; a missing or blank reason stops the handler, and the reason is sent as
      typed, untrimmed. */
  function StartReject(request: Payload, reason: Option<string>, user: Value): (s: Start)
    ensures s != Cancelled
    ensures s == Alert(ReasonRequiredMessage) <==>
              reason.None? || forall i :: 0 <= i < |reason.value| ==> IsWhitespace(reason.value[i])
    ensures s.Call? ==>
              !Nullish(user) && reason.Some? && Trim(reason.value) != ""
              && s.call == ProcessCall(Field(request, "request_id"), "reject", OptGet(user, "id"),
                                       Null, Str(reason.value))
  {
    match reason
    case None => Alert(ReasonRequiredMessage)
    case Some(r) =>
      TrimEmptyIffBlank(r);
      if r == "" || Trim(r) == "" then Alert(ReasonRequiredMessage)
      else if Nullish(user) then Alert(NotAdminMessage)
      else Call(ProcessCall(Field(request, "request_id"), "reject", OptGet(user, "id"), Null, Str(r)))
  }

  /** The body `handleApprove` sends, if it sends one: the action and, only when the
      admin typed some, the notes; never a rejection reason. */
  method ApproveBody(request: Payload, notes: Option<string>, user: Value) returns (body: Option<Payload>)
    ensures body.Some? <==> notes.Some? && !Nullish(user)
    ensures body.Some? ==>
              && body.value.Keys == {"request_id", "action", "admin_id"} + (if notes.value != "" then {"admin_notes"} else {})
              && body.value["action"] == Str("approve") && body.value["request_id"] == Field(request, "request_id")
              && (notes.value != "" ==> body.value["admin_notes"] == Str(notes.value))
  {
    var start := StartApprove(request, notes, user);
    if !start.Call? {
      return None;
    }
    var c := start.call;
    var r := TopupApi.ProcessTopupRequestBody(c.requestId, c.action, c.adminId, c.adminNotes, c.rejectionReason);
    return Some(r.value);
  }

  /** The body `handleReject` sends, if it sends one: the action and the reason as
      typed; never admin notes. */
  method RejectBody(request: Payload, reason: Option<string>, user: Value) returns (body: Option<Payload>)
    ensures body.Some? <==> reason.Some? && Trim(reason.value) != "" && !Nullish(user)
    ensures body.Some? ==>
              && body.value.Keys == {"request_id", "action", "admin_id", "rejection_reason"}
              && body.value["action"] == Str("reject") && body.value["request_id"] == Field(request, "request_id")
              && body.value["rejection_reason"] == Str(reason.value)
  {
    var start := StartReject(request, reason, user);
    if !start.Call? {
      if reason.Some? {
        TrimEmptyIffBlank(reason.value);
      }
      return None;
    }
    var c := start.call;
    var r := TopupApi.ProcessTopupRequestBody(c.requestId, c.action, c.adminId, c.adminNotes, c.rejectionReason);
    return Some(r.value);
  }

  /** Started calls are always for one of the two actions, with the other action's
      field null. */
  lemma StartedCallsAreWellFormed(request: Payload, answer: Option<string>, user: Value)
    ensures StartApprove(request, answer, user).Call? ==>
              StartApprove(request, answer, user).call.action == "approve"
              && StartApprove(request, answer, user).call.rejectionReason == Null
    ensures StartReject(request, answer, user).Call? ==>
              StartReject(request, answer, user).call.action == "reject"
              && StartReject(request, answer, user).call.adminNotes == Null
              && Truthy(StartReject(request, answer, user).call.rejectionReason)
  {
  }

  /** The actions offered for a request: approve and reject only while it is pending. */
  function Actions(status: Value): (actions: seq<string>)
    ensures actions != [] <==> status == Str("pending")
    ensures actions != [] ==> actions == ["approve", "reject"]
  {
    if status == Str("pending") then ["approve", "reject"] else []
  }

  /** The badge class for a request status. */
  function BadgeClass(status: Value): (c: string)
    ensures status == Str("approved") ==> c == "bg-green-100 text-green-800"
    ensures status == Str("pending") ==> c == "bg-yellow-100 text-yellow-800"
    ensures status == Str("rejected") ==> c == "bg-red-100 text-red-800"
    ensures status != Str("approved") && status != Str("pending") && status != Str("rejected") ==>
              c == "bg-gray-100 text-gray-800"
  {
    if status == Str("approved") then "bg-green-100 text-green-800"
    else if status == Str("pending") then "bg-yellow-100 text-yellow-800"
    else if status == Str("rejected") then "bg-red-100 text-red-800"
    else "bg-gray-100 text-gray-800"
  }

  /** Different known statuses get different badges, and an unknown one the grey one. */
  lemma BadgesDistinct(a: Value, b: Value)
    requires a == Str("approved") || a == Str("pending") || a == Str("rejected")
    requires a != b
    ensures BadgeClass(a) != BadgeClass(b)
  {
  }

  // ---------------------------------------------------------------------------------
  // The `processing` flags. The object is keyed by `String(request_id)`; a missing key
  // reads as `undefined`.

  type Flags = map<string, Value>

  function Flag(p: Flags, key: string): Value
  {
    if key in p then p[key] else Undefined
  }

  /** The key a request's flag is stored under. */
  function FlagKey(request: Payload): string
  {
    ToJsString(Field(request, "request_id"))
  }

  /** One handler's effect on the flags: `Begin` when the call starts, `End` when it
      settles. */
  datatype Event = Begin(key: string, action: string) | End(key: string)

  /** Replays events with each `End` written as `{ ...current, [key]: null }`, the
      update the handlers mean. */
  function Replay(p: Flags, events: seq<Event>): Flags
    decreases |events|
  {
    if events == [] then p
    else
      var q := Replay(p, events[..|events| - 1]);
      match events[|events| - 1]
      case Begin(k, a) => q[k := Str(a)]
      case End(k) => q[k := Null]
  }

  /** The last event about `key`, if any. */
  function LastEventFor(events: seq<Event>, key: string): (e: Option<Event>)
    ensures e.Some? ==> e.value.key == key
    ensures e.Some? ==> exists i :: 0 <= i < |events| && events[i] == e.value
                                    && forall j :: i < j < |events| ==> events[j].key != key
    ensures e.None? <==> forall i :: 0 <= i < |events| ==> events[i].key != key
    decreases |events|
  {
    if events == [] then None
    else if events[|events| - 1].key == key then Some(events[|events| - 1])
    else
      var e := LastEventFor(events[..|events| - 1], key);
      assert forall i :: 0 <= i < |events| - 1 ==> events[..|events| - 1][i] == events[i];
      e
  }

  /** With the intended update, however calls interleave, a request's flag shows the
      action of its latest start until that call settles, and `null` after. */
  lemma {:induction false} FlagFollowsLastEvent(p: Flags, events: seq<Event>, key: string)
    ensures Flag(Replay(p, events), key) ==
              match LastEventFor(events, key)
              case None => Flag(p, key)
              case Some(Begin(_, a)) => Str(a)
              case Some(End(_)) => Null
    decreases |events|
  {
    if events != [] {
      FlagFollowsLastEvent(p, events[..|events| - 1], key);
    }
  }

  /** The flags as the handlers write them at the end: `{ ...processing, [key]: null }`
      with `processing` the object captured when the handler started. */
  function SettleAsWritten(captured: Flags, key: string): Flags
  {
    captured[key := Null]
  }

  /** Two overlapping calls, for requests 1 and 2: when the first settles it wipes the
      second's flag while that call is still in flight, and when the second settles it
      puts back the first's flag for a call that is over. */
  lemma StaleFlagsWhenCallsOverlap()
    ensures var p0: Flags := map[];
            var p1 := p0["1" := Str("approve")];
            var p2 := p1["2" := Str("approve")];
            var p3 := SettleAsWritten(p0, "1");
            var p4 := SettleAsWritten(p1, "2");
            && Flag(p2, "2") == Str("approve") && Flag(p3, "2") == Undefined
            && Flag(p4, "1") == Str("approve")
            && Flag(Replay(p0, [Begin("1", "approve"), Begin("2", "approve"), End("1"), End("2")]), "1") == Null
  {
    var events := [Begin("1", "approve"), Begin("2", "approve"), End("1"), End("2")];
    FlagFollowsLastEvent(map[], events, "1");
    assert events[..3] == [Begin("1", "approve"), Begin("2", "approve"), End("1")];
  }

  /** The page's flags. */
  class Page {
    var processing: Flags

    constructor()
      ensures processing == map[]
    {
      processing := map[];
    }

    /** A handler's start: when it makes a call, the request's flag becomes the action.
        `captured` is the flags object the handler's closure holds. */
    method Begin(request: Payload, start: Start) returns (captured: Flags)
      modifies this
      ensures captured == old(processing)
      ensures start.Call? ==> processing == old(processing)[FlagKey(request) := Str(start.call.action)]
      ensures !start.Call? ==> processing == old(processing)
    {
      captured := processing;
      if start.Call? {
        processing := processing[FlagKey(request) := Str(start.call.action)];
      }
    }

    /** A handler's `finally` as written: it spreads the captured flags. */
    method SettleWithCaptured(request: Payload, captured: Flags)
      modifies this
      ensures processing == SettleAsWritten(captured, FlagKey(request))
    {
      processing := captured[FlagKey(request) := Null];
    }

    /** A handler's `finally` as intended: it clears this request's flag in the current
        flags, leaving every other flag as it is. */
    method Settle(request: Payload)
      modifies this
      ensures Flag(processing, FlagKey(request)) == Null
      ensures forall k :: k != FlagKey(request) ==> Flag(processing, k) == Flag(old(processing), k)
    {
      processing := processing[FlagKey(request) := Null];
    }
  }
}
