/**
  The `/api/stream_gpt` endpoint: validate and normalise the request body,
  then either reject it at once or answer with the event stream that the
  bridge produces.
 */
module Handler {
  import opened Wrappers
  import opened Request
  import opened Bridge
  import BridgeProperties

  /** The endpoint's reply. */
  datatype Reply =
    | Rejected(rejection: Rejection)
      // `jsonify({'error': …}), 400`, before any upstream call
    | EventStream(sent: Payload, trace: seq<Action>)
      // a `text/event-stream` response: what was sent upstream, and the
      // events the client received interleaved with the inserts into the
      // store
  {
    /** The requests made to the upstream side. */
    function UpstreamCalls(): seq<Payload> {
      if EventStream? then [sent] else []
    }

    /** The events the client received. */
    function Events(): seq<Event> {
      if EventStream? then EventsOf(trace) else []
    }

    /** The records inserted into the store. */
    function Inserted(): seq<Record> {
      if EventStream? then StoredOf(trace) else []
    }
  }

  /** `stream_gpt`: `up` is what the upstream side does with the payload it
      is sent and `insertOk` whether the store accepts the insert. A body
      without a truthy prompt is rejected with status 400, with no upstream
      call and no insert; any other body is streamed with the normalised
      model, and the stream is exactly what the bridge specification says. */
  method StreamGpt(body: RequestBody, up: Upstream, insertOk: bool) returns (reply: Reply)
    ensures reply.Rejected? <==> !Truthy(body.text)
    ensures reply.Rejected? ==>
      reply.rejection == Rejection(400, "No prompt provided") &&
      reply.UpstreamCalls() == [] && reply.Inserted() == []
    ensures reply.EventStream? ==>
      var req := GenerationRequest(body.text, NormaliseModel(body.model));
      reply.UpstreamCalls() == [Payload(req.model, body.text, true)] &&
      reply.sent.model in SupportedModels &&
      reply.trace == StreamTrace(req, up, insertOk) &&
      Outcome(reply.Events(), reply.Inserted()) == StreamOutcome(req, up, insertOk)
  {
    var parsed := ParseRequest(body, Route.StreamGpt);
    if parsed.Err? {
      return Rejected(parsed.error);
    }
    var req := parsed.value;
    var trace := Generate(req, up, insertOk);
    BridgeProperties.TraceProjectsToOutcome(req, up, insertOk);
    reply := EventStream(StreamPayload(req), trace);
  }
}
