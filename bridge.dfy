/**
  The streaming bridge of `/api/stream_gpt`: the generator that posts the
  request upstream with `stream: true`, reads the newline-delimited JSON body
  line by line, re-emits every non-empty `response` fragment as a
  server-sent `content` event while accumulating it, and on the first line
  whose `done` is truthy inserts `{prompt, accumulated response, model}` into
  the store and emits the `[DONE]` sentinel. After the loop it emits `[DONE]`
  once more; an exception outside the per-line handler becomes one `error`
  event instead.

  The network and the store are abstract inputs: the upstream exchange is an
  `Upstream` value and the store's answer to the insert is `insertOk`.
 */
module Bridge {
  import opened Wrappers
  import opened Request

  /** One line handed out by `iter_lines`, as the per-line handler sees it. */
  datatype Line =
    | Blank      // an empty line, skipped by `if line:`
    | Malformed  // the handler raised: not UTF-8, not JSON, not an object,
                 // or a truthy `response` that is not a string on a line that is not done
    | Chunk(done: bool, response: string)
                 // a JSON object: the truthiness of `done` and its `response`
                 // (a missing or falsy `response` reads as "")

  /** How the upstream side ends. */
  datatype BodyEnd =
    | Exhausted              // `iter_lines` ends normally
    | ReadFailed(reason: string)   // `iter_lines` raises when asked for the next line

  /** The upstream exchange. */
  datatype Upstream =
    | Refused(reason: string)           // `requests.post` or `raise_for_status` raised
    | Body(lines: seq<Line>, end: BodyEnd)

  /** What the upstream side is sent: `{model, prompt, stream}`. */
  datatype Payload = Payload(model: string, prompt: JsonValue, stream: bool)

  /** One server-sent event frame: `data: {"content": …}`, `data: [DONE]` or
      `data: {"error": …}`. */
  datatype Event = Content(text: string) | DoneSentinel | Error(message: string)

  /** A document given to `insert_one`, without its timestamp. */
  datatype Record = Record(textInput: JsonValue, gptResponse: string, model: string)

  /** One observable step of the generator: yielding an event to the client
      or inserting a record into the store. */
  datatype Action = Yield(event: Event) | Store(record: Record)

  /** The events and the inserted records of a run, each in order. */
  datatype Outcome = Outcome(events: seq<Event>, inserted: seq<Record>)

  function StreamPayload(req: GenerationRequest): Payload {
    Payload(req.model, req.prompt, true)
  }

  predicate IsDone(l: Line) {
    l.Chunk? && l.done
  }

  /** A line that the loop passes over without any effect. */
  predicate Inert(l: Line) {
    l.Blank? || l.Malformed? || (l.Chunk? && !l.done && l.response == "")
  }

  /** A line whose `response` is emitted and accumulated: not a done line,
      and a non-empty `response`. */
  predicate IsContentLine(l: Line) {
    l.Chunk? && !l.done && l.response != ""
  }

  /** The events the first `n` lines yield when none of them is a done
      line: one `content` event per content line, in order. Each is a
      `content` event with non-empty text, and there is at most one per line. */
  function Emitted(lines: seq<Line>, n: nat): (es: seq<Event>)
    requires n <= |lines|
    ensures |es| <= n
    ensures forall k :: 0 <= k < |es| ==> es[k].Content? && es[k].text != ""
  {
    if n == 0 then []
    else Emitted(lines, n - 1) + (if IsContentLine(lines[n - 1]) then [Content(lines[n - 1].response)] else [])
  }

  /** The value `complete_response` has after the first `n` lines when none
      of them is a done line. */
  function Accumulated(lines: seq<Line>, n: nat): string
    requires n <= |lines|
  {
    if n == 0 then ""
    else Accumulated(lines, n - 1) + (if IsContentLine(lines[n - 1]) then lines[n - 1].response else "")
  }

  /** The concatenation, in order, of the texts of the `content` events. */
  function ContentText(es: seq<Event>): string {
    if es == [] then ""
    else ContentText(es[..|es| - 1]) + (if es[|es| - 1].Content? then es[|es| - 1].text else "")
  }

  /** The position of the first line whose `done` is truthy, if any. */
  function FirstDone(lines: seq<Line>): (r: Option<nat>)
    ensures r.Some? ==> r.value < |lines| && IsDone(lines[r.value])
    ensures forall j :: 0 <= j < |lines| && (r.None? || j < r.value) ==> !IsDone(lines[j])
  {
    if lines == [] then None
    else if IsDone(lines[0]) then Some(0)
    else match FirstDone(lines[1..])
      case None => None
      case Some(k) => Some(k + 1)
  }

  /** Yielding the given events, one after the other. */
  function Yields(es: seq<Event>): (t: seq<Action>)
    ensures |t| == |es|
    ensures forall k :: 0 <= k < |es| ==> t[k] == Yield(es[k])
  {
    seq(|es|, k requires 0 <= k < |es| => Yield(es[k]))
  }

  /** The events a run yields, in order. */
  function EventsOf(t: seq<Action>): seq<Event> {
    if t == [] then []
    else (if t[0].Yield? then [t[0].event] else []) + EventsOf(t[1..])
  }

  /** The records a run inserts, in order. */
  function StoredOf(t: seq<Action>): seq<Record> {
    if t == [] then []
    else (if t[0].Store? then [t[0].record] else []) + StoredOf(t[1..])
  }

  /** Everything the generator does, in order, case by case: a refused
      request yields one error; on the done path the content of the lines
      before the first done line is followed, when the store accepts it, by
      the insert of one record holding the accumulated response, and then by
      two sentinels; a body without a done line yields its content and then
      one sentinel, or one error if reading it failed. */
  function StreamTrace(req: GenerationRequest, up: Upstream, insertOk: bool): seq<Action> {
    match up
    case Refused(reason) => [Yield(Error(reason))]
    case Body(lines, end) =>
      match FirstDone(lines)
      case Some(d) =>
        Yields(Emitted(lines, d))
        + (if insertOk then [Store(Record(req.prompt, Accumulated(lines, d), req.model))] else [])
        + [Yield(DoneSentinel), Yield(DoneSentinel)]
      case None =>
        Yields(Emitted(lines, |lines|) + (if end.Exhausted? then [DoneSentinel] else [Error(end.reason)]))
  }

  /** What the client receives and what the store keeps, without their
      interleaving: the events and the records of `StreamTrace`, as
      `BridgeProperties.TraceProjectsToOutcome` shows. */
  function StreamOutcome(req: GenerationRequest, up: Upstream, insertOk: bool): Outcome {
    match up
    case Refused(reason) => Outcome([Error(reason)], [])
    case Body(lines, end) =>
      match FirstDone(lines)
      case Some(d) =>
        Outcome(Emitted(lines, d) + [DoneSentinel, DoneSentinel],
                if insertOk then [Record(req.prompt, Accumulated(lines, d), req.model)] else [])
      case None =>
        Outcome(Emitted(lines, |lines|) + (if end.Exhausted? then [DoneSentinel] else [Error(end.reason)]), [])
  }

  lemma FirstDoneIs(lines: seq<Line>, d: nat)
    requires d < |lines| && IsDone(lines[d])
    requires forall j :: 0 <= j < d ==> !IsDone(lines[j])
    ensures FirstDone(lines) == Some(d)
  {
  }

  lemma FirstDoneNone(lines: seq<Line>)
    requires forall j :: 0 <= j < |lines| ==> !IsDone(lines[j])
    ensures FirstDone(lines) == None
  {
  }

  /** The generator `generate()`: `up` is what the upstream side does with
      `StreamPayload(req)`, `insertOk` whether `insert_one` succeeds. The
      result is the run's actions in the order they happen. */
  method Generate(req: GenerationRequest, up: Upstream, insertOk: bool) returns (trace: seq<Action>)
    ensures trace == StreamTrace(req, up, insertOk)
  {
    trace := [];
    var completeResponse := "";
    if up.Refused? {
      // the post or `raise_for_status` raised before any line was read
      trace := trace + [Yield(Error(up.reason))];
      return;
    }
    var lines := up.lines;
    var i := 0;
    while true
      invariant 0 <= i <= |lines|
      invariant forall j :: 0 <= j < i ==> !IsDone(lines[j])
      invariant trace == Yields(Emitted(lines, i))
      invariant completeResponse == Accumulated(lines, i)
      decreases |lines| - i
    {
      // ask `iter_lines` for the next line
      if i == |lines| {
        FirstDoneNone(lines);
        if up.end.ReadFailed? {
          trace := trace + [Yield(Error(up.end.reason))];
          assert trace == Yields(Emitted(lines, i) + [Error(up.end.reason)]);
          return;
        }
        break;
      }
      match lines[i] {
        case Blank =>
          // skipped by `if line:`
          assert Emitted(lines, i + 1) == Emitted(lines, i);
        case Malformed =>
          // logged by the per-line handler; the loop goes on
          assert Emitted(lines, i + 1) == Emitted(lines, i);
        case Chunk(done, response) =>
          if done {
            FirstDoneIs(lines, i);
            // the insert runs before the sentinel is yielded; a failed
            // insert is logged and swallowed
            if insertOk {
              trace := trace + [Store(Record(req.prompt, completeResponse, req.model))];
            }
            trace := trace + [Yield(DoneSentinel)];
            break;
          }
          if response != "" {
            completeResponse := completeResponse + response;
            trace := trace + [Yield(Content(response))];
            assert trace == Yields(Emitted(lines, i) + [Content(response)]);
          } else {
            assert Emitted(lines, i + 1) == Emitted(lines, i);
          }
      }
      i := i + 1;
    }
    trace := trace + [Yield(DoneSentinel)];
    assert i == |lines| ==> trace == Yields(Emitted(lines, i) + [DoneSentinel]);
  }
}
