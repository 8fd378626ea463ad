/** The telemetry endpoints under `/api/metrics`: an active-users gauge that a
    visit raises and a leave lowers, and a feedback counter partitioned by the
    labels (feedback, sentiment). Each handler is a pure transition from the
    telemetry state to a new state and the JSON reply. */
module MetricsRoute {
  import opened Text
  import opened Request

  /** Label values of one feedback-counter cell: (feedback, sentiment). */
  type FeedbackKey = (string, string)

  /** The gauge is unbounded in both directions; counter cells are created
      lazily, so an absent key reads as zero. */
  datatype Telemetry = Telemetry(activeUsers: int, feedback: map<FeedbackKey, nat>)

  /** The body of every reply of these endpoints: `{"status": status}`. */
  datatype StatusReply = StatusReply(status: string)

  const Success := "success"
  const FeedbackRecorded := "feedback recorded"
  const UnknownSentiment := "unknown"

  /** Current value of a counter cell. */
  function Count(m: map<FeedbackKey, nat>, k: FeedbackKey): nat {
    if k in m then m[k] else 0
  }

  /** `counter.labels(k).inc()`: creates the cell if absent, then adds one. */
  function Inc(m: map<FeedbackKey, nat>, k: FeedbackKey): (m': map<FeedbackKey, nat>)
    ensures Count(m', k) == Count(m, k) + 1
    ensures forall j :: j != k ==> Count(m', j) == Count(m, j)
    ensures m'.Keys == m.Keys + {k}
  {
    m[k := Count(m, k) + 1]
  }

  /** POST /user_visit. */
  function UserVisit(s: Telemetry): (r: (Telemetry, StatusReply))
    ensures r.0.activeUsers == s.activeUsers + 1
    ensures r.0.feedback == s.feedback
    ensures r.1 == StatusReply(Success)
  {
    (s.(activeUsers := s.activeUsers + 1), StatusReply(Success))
  }

  /** POST /user_leave. There is no floor: a leave at zero goes to -1. */
  function UserLeave(s: Telemetry): (r: (Telemetry, StatusReply))
    ensures r.0.activeUsers == s.activeUsers - 1
    ensures s.activeUsers <= 0 ==> r.0.activeUsers < 0
    ensures r.0.feedback == s.feedback
    ensures r.1 == StatusReply(Success)
  {
    (s.(activeUsers := s.activeUsers - 1), StatusReply(Success))
  }

  /** The guard of `record_feedback`: both fields present and non-empty. */
  predicate FeedbackAccepted(data: Body) {
    Truthy(Get(data, "feedback")) && Truthy(Get(data, "sentiment"))
  }

  /** The cell an accepted feedback body increments. */
  function FeedbackCell(data: Body): FeedbackKey
    requires FeedbackAccepted(data)
  {
    (data["feedback"], Lower(data["sentiment"]))
  }

  /** POST /feedback. The sentiment label falls back to "unknown" when the
      sentiment is falsy, but the guard has already required it truthy. */
  function RecordFeedback(s: Telemetry, data: Body): (r: (Telemetry, StatusReply))
    ensures r.1 == StatusReply(FeedbackRecorded)
    ensures r.0.activeUsers == s.activeUsers
    ensures FeedbackAccepted(data) ==>
              && Count(r.0.feedback, FeedbackCell(data)) == Count(s.feedback, FeedbackCell(data)) + 1
              && (forall k :: k != FeedbackCell(data) ==> Count(r.0.feedback, k) == Count(s.feedback, k))
              && r.0.feedback.Keys == s.feedback.Keys + {FeedbackCell(data)}
    ensures !FeedbackAccepted(data) ==> r.0.feedback == s.feedback
  {
    var feedback := Get(data, "feedback");
    var sentiment := Get(data, "sentiment");
    if Truthy(feedback) && Truthy(sentiment) then
      var sentimentLabel := if Truthy(sentiment) then Lower(sentiment.value) else UnknownSentiment;
      (s.(feedback := Inc(s.feedback, (feedback.value, sentimentLabel))), StatusReply(FeedbackRecorded))
    else
      (s, StatusReply(FeedbackRecorded))
  }

  /** Sentiments differing only in letter case land in the same cell: the
      two bodies give the same state and reply. */
  lemma SentimentCaseInsensitive(s: Telemetry, d1: Body, d2: Body)
    requires Get(d1, "feedback") == Get(d2, "feedback")
    requires "sentiment" in d1 <==> "sentiment" in d2
    requires "sentiment" in d1 ==> SameIgnoringCase(d1["sentiment"], d2["sentiment"])
    ensures RecordFeedback(s, d1) == RecordFeedback(s, d2)
  {
    if "sentiment" in d1 {
      LowerEqualIffSameIgnoringCase(d1["sentiment"], d2["sentiment"]);
    }
  }

  /** The "unknown" fallback never fires: an "unknown" cell grows only when
      the submitted sentiment itself lowers to "unknown". */
  lemma UnknownFallbackUnreachable(s: Telemetry, data: Body, f: string)
    requires Count(RecordFeedback(s, data).0.feedback, (f, UnknownSentiment))
             != Count(s.feedback, (f, UnknownSentiment))
    ensures "sentiment" in data && data["sentiment"] != ""
    ensures Lower(data["sentiment"]) == UnknownSentiment
  {
  }

  /** A visit followed by a leave restores the state exactly. */
  lemma VisitThenLeave(s: Telemetry)
    ensures UserLeave(UserVisit(s).0).0 == s
  {
  }

  /** A leave followed by a visit restores the state exactly. */
  lemma LeaveThenVisit(s: Telemetry)
    ensures UserVisit(UserLeave(s).0).0 == s
  {
  }

  // ---------------------------------------------------------------------
  // Sequences of requests

  datatype Event = Visit | Leave | Feedback(data: Body)

  function Step(s: Telemetry, e: Event): Telemetry {
    match e
    case Visit => UserVisit(s).0
    case Leave => UserLeave(s).0
    case Feedback(data) => RecordFeedback(s, data).0
  }

  /** The state after handling `events` in order, starting from `s`. */
  function Run(s: Telemetry, events: seq<Event>): Telemetry
    decreases |events|
  {
    if |events| == 0 then s else Run(Step(s, events[0]), events[1..])
  }

  function Visits(events: seq<Event>): nat {
    if |events| == 0 then 0 else (if events[0].Visit? then 1 else 0) + Visits(events[1..])
  }

  function Leaves(events: seq<Event>): nat {
    if |events| == 0 then 0 else (if events[0].Leave? then 1 else 0) + Leaves(events[1..])
  }

  /** An event that the feedback endpoint counts in cell `k`. */
  predicate CountsIn(e: Event, k: FeedbackKey) {
    e.Feedback? && FeedbackAccepted(e.data) && FeedbackCell(e.data) == k
  }

  function Hits(events: seq<Event>, k: FeedbackKey): nat {
    if |events| == 0 then 0 else (if CountsIn(events[0], k) then 1 else 0) + Hits(events[1..], k)
  }

  /** The gauge equals its start value plus visits minus leaves. */
  lemma {:induction false} RunGauge(s: Telemetry, events: seq<Event>)
    ensures Run(s, events).activeUsers == s.activeUsers + Visits(events) - Leaves(events)
    decreases |events|
  {
    if |events| > 0 {
      RunGauge(Step(s, events[0]), events[1..]);
    }
  }

  /** Each counter cell grows by exactly the number of accepted feedback
      bodies that name it. */
  lemma {:induction false} RunCounter(s: Telemetry, events: seq<Event>, k: FeedbackKey)
    ensures Count(Run(s, events).feedback, k) == Count(s.feedback, k) + Hits(events, k)
    decreases |events|
  {
    if |events| > 0 {
      RunCounter(Step(s, events[0]), events[1..], k);
    }
  }

  /** Counters never decrease, whatever the requests. */
  lemma CounterMonotone(s: Telemetry, events: seq<Event>, k: FeedbackKey)
    ensures Count(s.feedback, k) <= Count(Run(s, events).feedback, k)
  {
    RunCounter(s, events, k);
  }
}
