/**
  Properties of the streaming bridge, stated about `Bridge.StreamTrace`,
  which `Bridge.Generate` is proved to compute, and its projection
  `Bridge.StreamOutcome`: what is persisted, how often,
  which lines matter, and where the sentinels and the error go.
 */
module BridgeProperties {
  import opened Wrappers
  import opened Request
  import opened Bridge

  // ---------------------------------------------------------------------
  // Helpers about the specification functions

  lemma {:induction false} ContentTextAppend(a: seq<Event>, b: seq<Event>)
    ensures ContentText(a + b) == ContentText(a) + ContentText(b)
  {
    if b == [] {
      assert a + b == a;
    } else {
      assert (a + b)[..|a + b| - 1] == a + b[..|b| - 1];
      ContentTextAppend(a, b[..|b| - 1]);
    }
  }

  /** `complete_response` is always the concatenation of what was emitted. */
  lemma {:induction false} AccumulatedIsEmittedText(lines: seq<Line>, n: nat)
    requires n <= |lines|
    ensures Accumulated(lines, n) == ContentText(Emitted(lines, n))
  {
    if n > 0 {
      AccumulatedIsEmittedText(lines, n - 1);
      var l := lines[n - 1];
      var step := if IsContentLine(l) then [Content(l.response)] else [];
      ContentTextAppend(Emitted(lines, n - 1), step);
      if IsContentLine(l) {
        assert ContentText(step) == ContentText([]) + l.response;
      } else {
        assert ContentText(step) == "";
      }
    }
  }

  /** Two line sequences that agree on their first `n` lines have emitted
      and accumulated the same after `n` lines. */
  lemma {:induction false} SamePrefixSameProgress(a: seq<Line>, b: seq<Line>, n: nat)
    requires n <= |a| && n <= |b|
    requires forall j :: 0 <= j < n ==> a[j] == b[j]
    ensures Emitted(a, n) == Emitted(b, n)
    ensures Accumulated(a, n) == Accumulated(b, n)
  {
    if n > 0 {
      SamePrefixSameProgress(a, b, n - 1);
    }
  }

  /** The events of a trace are those of its parts, in order. */
  lemma {:induction false} EventsOfAppend(a: seq<Action>, b: seq<Action>)
    ensures EventsOf(a + b) == EventsOf(a) + EventsOf(b)
  {
    if a == [] {
      assert a + b == b;
    } else {
      var head := if a[0].Yield? then [a[0].event] else [];
      assert (a + b)[0] == a[0];
      assert (a + b)[1..] == a[1..] + b;
      EventsOfAppend(a[1..], b);
      assert EventsOf(a + b) == head + EventsOf(a[1..] + b);
      assert EventsOf(a) == head + EventsOf(a[1..]);
    }
  }

  /** The records of a trace are those of its parts, in order. */
  lemma {:induction false} StoredOfAppend(a: seq<Action>, b: seq<Action>)
    ensures StoredOf(a + b) == StoredOf(a) + StoredOf(b)
  {
    if a == [] {
      assert a + b == b;
    } else {
      var head := if a[0].Store? then [a[0].record] else [];
      assert (a + b)[0] == a[0];
      assert (a + b)[1..] == a[1..] + b;
      StoredOfAppend(a[1..], b);
      assert StoredOf(a + b) == head + StoredOf(a[1..] + b);
      assert StoredOf(a) == head + StoredOf(a[1..]);
    }
  }

  lemma {:induction false} ProjectYields(es: seq<Event>)
    ensures EventsOf(Yields(es)) == es
    ensures StoredOf(Yields(es)) == []
  {
    if es != [] {
      var t := Yields(es);
      assert t[0] == Yield(es[0]);
      assert t[1..] == Yields(es[1..]);
      ProjectYields(es[1..]);
      assert EventsOf(t) == [es[0]] + EventsOf(Yields(es[1..]));
      assert StoredOf(t) == StoredOf(Yields(es[1..]));
    }
  }

  /** A refused connection: the trace is the one error event. */
  lemma RefusedProjects(req: GenerationRequest, reason: string, insertOk: bool)
    ensures EventsOf(StreamTrace(req, Refused(reason), insertOk)) == [Error(reason)]
    ensures StoredOf(StreamTrace(req, Refused(reason), insertOk)) == []
  {
    assert StreamTrace(req, Refused(reason), insertOk) == Yields([Error(reason)]);
    ProjectYields([Error(reason)]);
  }

  /** The trace of the done path, as content, the optional insert and the
      two sentinels. */
  lemma DoneTraceParts(req: GenerationRequest, lines: seq<Line>, end: BodyEnd, insertOk: bool, d: nat)
    requires FirstDone(lines) == Some(d)
    ensures StreamTrace(req, Body(lines, end), insertOk)
         == Yields(Emitted(lines, d)) + DoneStore(req, lines, insertOk, d) + Yields([DoneSentinel, DoneSentinel])
  {
    assert Yields([DoneSentinel, DoneSentinel]) == [Yield(DoneSentinel), Yield(DoneSentinel)];
  }

  /** The insert step of the done path, when the store accepts it. */
  function DoneStore(req: GenerationRequest, lines: seq<Line>, insertOk: bool, d: nat): seq<Action>
    requires d <= |lines|
  {
    if insertOk then [Store(Record(req.prompt, Accumulated(lines, d), req.model))] else []
  }

  /** On the done path the client sees the content, then `[DONE]` twice. */
  lemma DoneEventsProject(req: GenerationRequest, lines: seq<Line>, end: BodyEnd, insertOk: bool, d: nat)
    requires FirstDone(lines) == Some(d)
    ensures EventsOf(StreamTrace(req, Body(lines, end), insertOk))
         == Emitted(lines, d) + [DoneSentinel, DoneSentinel]
  {
    var content := Yields(Emitted(lines, d));
    var store := DoneStore(req, lines, insertOk, d);
    DoneTraceParts(req, lines, end, insertOk, d);
    ProjectYields(Emitted(lines, d));
    ProjectYields([DoneSentinel, DoneSentinel]);
    EventsOfAppend(content, store);
    EventsOfAppend(content + store, Yields([DoneSentinel, DoneSentinel]));
    assert EventsOf(store) == [] by {
      if insertOk { assert store[1..] == []; }
    }
  }

  /** On the done path the store keeps one record when the insert succeeds. */
  lemma DoneStoredProject(req: GenerationRequest, lines: seq<Line>, end: BodyEnd, insertOk: bool, d: nat)
    requires FirstDone(lines) == Some(d)
    ensures StoredOf(StreamTrace(req, Body(lines, end), insertOk))
         == if insertOk then [Record(req.prompt, Accumulated(lines, d), req.model)] else []
  {
    var content := Yields(Emitted(lines, d));
    var store := DoneStore(req, lines, insertOk, d);
    DoneTraceParts(req, lines, end, insertOk, d);
    ProjectYields(Emitted(lines, d));
    ProjectYields([DoneSentinel, DoneSentinel]);
    StoredOfAppend(content, store);
    StoredOfAppend(content + store, Yields([DoneSentinel, DoneSentinel]));
    assert StoredOf(store) == (if insertOk then [Record(req.prompt, Accumulated(lines, d), req.model)] else []) by {
      if insertOk { assert store[1..] == []; }
    }
  }

  /** Without a done line the trace is the events alone. */
  lemma NoDoneProjects(req: GenerationRequest, lines: seq<Line>, end: BodyEnd, insertOk: bool)
    requires FirstDone(lines) == None
    ensures EventsOf(StreamTrace(req, Body(lines, end), insertOk))
         == Emitted(lines, |lines|) + (if end.Exhausted? then [DoneSentinel] else [Error(end.reason)])
    ensures StoredOf(StreamTrace(req, Body(lines, end), insertOk)) == []
  {
    var es := Emitted(lines, |lines|) + (if end.Exhausted? then [DoneSentinel] else [Error(end.reason)]);
    NoDoneTrace(req, lines, end, insertOk);
    ProjectYields(es);
  }

  /** The trace of a body without a done line. */
  lemma NoDoneTrace(req: GenerationRequest, lines: seq<Line>, end: BodyEnd, insertOk: bool)
    requires FirstDone(lines) == None
    ensures StreamTrace(req, Body(lines, end), insertOk)
         == Yields(Emitted(lines, |lines|) + (if end.Exhausted? then [DoneSentinel] else [Error(end.reason)]))
  {
  }

  /** The trace, with the inserts dropped, is what the client receives, and
      with the events dropped, is what the store keeps. */
  lemma TraceProjectsToOutcome(req: GenerationRequest, up: Upstream, insertOk: bool)
    ensures EventsOf(StreamTrace(req, up, insertOk)) == StreamOutcome(req, up, insertOk).events
    ensures StoredOf(StreamTrace(req, up, insertOk)) == StreamOutcome(req, up, insertOk).inserted
  {
    match up
    case Refused(reason) =>
      RefusedProjects(req, reason, insertOk);
    case Body(lines, end) =>
      match FirstDone(lines)
      case Some(d) =>
        DoneEventsProject(req, lines, end, insertOk, d);
        DoneStoredProject(req, lines, end, insertOk, d);
      case None =>
        NoDoneProjects(req, lines, end, insertOk);
  }

  // ---------------------------------------------------------------------
  // Persistence

  /** On the done path the stored `gpt_response` is the in-order
      concatenation of the content emitted before the done line; the record
      carries the request's prompt and model. */
  lemma StoredResponseIsEmittedContent(req: GenerationRequest, up: Upstream, insertOk: bool)
    ensures var o := StreamOutcome(req, up, insertOk);
      o.inserted != [] ==> o.inserted == [Record(req.prompt, ContentText(o.events), req.model)]
  {
    if up.Body? && FirstDone(up.lines).Some? && insertOk {
      var d := FirstDone(up.lines).value;
      var es := Emitted(up.lines, d);
      AccumulatedIsEmittedText(up.lines, d);
      ContentTextAppend(es, [DoneSentinel, DoneSentinel]);
      assert ContentText([DoneSentinel, DoneSentinel]) == "" by {
        assert [DoneSentinel, DoneSentinel][..1] == [DoneSentinel];
        assert [DoneSentinel][..0] == [];
      }
      var o := StreamOutcome(req, up, insertOk);
      assert o.events == es + [DoneSentinel, DoneSentinel];
      assert o.inserted == [Record(req.prompt, Accumulated(up.lines, d), req.model)];
      assert ContentText(o.events) == Accumulated(up.lines, d);
    }
  }

  /** At most one record is inserted, and one is inserted exactly when the
      body reaches a line whose `done` is truthy and the store accepts it: a
      refused request, a body without a done line or a failed insert
      persist nothing. */
  lemma AtMostOneInsert(req: GenerationRequest, up: Upstream, insertOk: bool)
    ensures |StreamOutcome(req, up, insertOk).inserted| <= 1
    ensures StreamOutcome(req, up, insertOk).inserted != []
        <==> up.Body? && FirstDone(up.lines).Some? && insertOk
  {
  }

  /** The insert happens before the client is told the stream is done: a
      store step comes after all the content, and is immediately followed by
      the first `[DONE]`. */
  lemma InsertPrecedesFirstDone(req: GenerationRequest, up: Upstream, insertOk: bool)
    ensures var t := StreamTrace(req, up, insertOk);
      forall k :: 0 <= k < |t| && t[k].Store? ==>
        k + 1 < |t| && t[k + 1] == Yield(DoneSentinel) &&
        forall j :: 0 <= j < k ==> t[j].Yield? && t[j].event.Content?
  {
    var t := StreamTrace(req, up, insertOk);
    if up.Body? && FirstDone(up.lines).Some? {
      var d := FirstDone(up.lines).value;
      var es := Emitted(up.lines, d);
      var store := DoneStore(req, up.lines, insertOk, d);
      DoneTraceParts(req, up.lines, up.end, insertOk, d);
      forall k | 0 <= k < |es| ensures t[k] == Yield(es[k]) {
      }
      forall k | |es| + |store| <= k < |t| ensures t[k] == Yield(DoneSentinel) {
      }
    } else {
      forall k | 0 <= k < |t| ensures t[k].Yield? {
      }
    }
  }

  /** A failed insert is swallowed: the events are those of a successful
      insert, so the client still gets its sentinels and no error. */
  lemma InsertFailureSwallowed(req: GenerationRequest, up: Upstream)
    ensures StreamOutcome(req, up, false).events == StreamOutcome(req, up, true).events
    ensures StreamOutcome(req, up, false).inserted == []
  {
  }

  // ---------------------------------------------------------------------
  // Which lines matter

  /** Nothing after the first done line is read: neither the lines that
      follow it nor how the body would have ended. The `response` on the done
      line itself is neither emitted nor accumulated. */
  lemma LinesAfterDoneIgnored(req: GenerationRequest, pre: seq<Line>, response: string,
                              rest: seq<Line>, end: BodyEnd, insertOk: bool)
    requires forall j :: 0 <= j < |pre| ==> !IsDone(pre[j])
    ensures StreamTrace(req, Body(pre + [Chunk(true, response)] + rest, end), insertOk)
         == StreamTrace(req, Body(pre + [Chunk(true, "")], Exhausted), insertOk)
  {
    var long := pre + [Chunk(true, response)] + rest;
    var short := pre + [Chunk(true, "")];
    FirstDoneIs(long, |pre|);
    FirstDoneIs(short, |pre|);
    SamePrefixSameProgress(long, short, |pre|);
    DoneTraceParts(req, long, end, insertOk, |pre|);
    DoneTraceParts(req, short, Exhausted, insertOk, |pre|);
  }

  /** An empty line, a line that fails to parse, or a line with an empty or
      absent `response` has no effect at all: the outcome is that of the
      same body without it, so the loop carries on with the next line. */
  lemma InertLineHasNoEffect(req: GenerationRequest, a: seq<Line>, l: Line, b: seq<Line>,
                             end: BodyEnd, insertOk: bool)
    requires Inert(l)
    ensures StreamTrace(req, Body(a + [l] + b, end), insertOk)
         == StreamTrace(req, Body(a + b, end), insertOk)
  {
    var s := a + [l] + b;
    var t := a + b;
    InertShiftsFirstDone(a, l, b);
    match FirstDone(t)
    case None =>
      InertShift(a, l, b, |t|);
      NoDoneTrace(req, s, end, insertOk);
      NoDoneTrace(req, t, end, insertOk);
    case Some(k) =>
      var ks := if k < |a| then k else k + 1;
      if k < |a| {
        SamePrefixSameProgress(s, t, k);
      } else {
        InertShift(a, l, b, k);
      }
      DoneTraceParts(req, s, end, insertOk, ks);
      DoneTraceParts(req, t, end, insertOk, k);
  }

  /** An inert line moves the first done line of what follows it one place on. */
  lemma InertShiftsFirstDone(a: seq<Line>, l: Line, b: seq<Line>)
    requires Inert(l)
    ensures FirstDone(a + b).None? ==> FirstDone(a + [l] + b).None?
    ensures FirstDone(a + b).Some? && FirstDone(a + b).value < |a| ==> FirstDone(a + [l] + b) == FirstDone(a + b)
    ensures FirstDone(a + b).Some? && FirstDone(a + b).value >= |a| ==> FirstDone(a + [l] + b) == Some(FirstDone(a + b).value + 1)
  {
    var s := a + [l] + b;
    var t := a + b;
    match FirstDone(t)
    case None =>
      forall j | 0 <= j < |s| ensures !IsDone(s[j]) {
        if j < |a| { assert s[j] == t[j]; } else if j > |a| { assert s[j] == t[j - 1]; }
      }
      FirstDoneNone(s);
    case Some(k) =>
      if k < |a| {
        forall j | 0 <= j < k ensures !IsDone(s[j]) {
          assert s[j] == t[j];
        }
        assert s[k] == t[k];
        FirstDoneIs(s, k);
      } else {
        forall j | 0 <= j < k + 1 ensures !IsDone(s[j]) {
          if j < |a| { assert s[j] == t[j]; } else if j > |a| { assert s[j] == t[j - 1]; }
        }
        assert s[k + 1] == t[k];
        FirstDoneIs(s, k + 1);
      }
  }

  /** Past the inert line, the body with it is one line behind the body
      without it. */
  lemma {:induction false} InertShift(a: seq<Line>, l: Line, b: seq<Line>, k: nat)
    requires Inert(l) && |a| <= k <= |a| + |b|
    ensures Emitted(a + [l] + b, k + 1) == Emitted(a + b, k)
    ensures Accumulated(a + [l] + b, k + 1) == Accumulated(a + b, k)
  {
    var s := a + [l] + b;
    var t := a + b;
    if k == |a| {
      SamePrefixSameProgress(s, t, k);
      assert s[k] == l;
    } else {
      InertShift(a, l, b, k - 1);
      assert s[k] == t[k - 1];
    }
  }

  // ---------------------------------------------------------------------
  // Sentinels and errors

  /** The done path: content, then exactly two `[DONE]` events, and no error. */
  lemma DonePathEndsWithTwoSentinels(req: GenerationRequest, up: Upstream, insertOk: bool)
    requires up.Body? && FirstDone(up.lines).Some?
    ensures var e := StreamOutcome(req, up, insertOk).events;
      |e| >= 2 && e[|e| - 2] == DoneSentinel && e[|e| - 1] == DoneSentinel &&
      forall k :: 0 <= k < |e| - 2 ==> e[k].Content?
  {
  }

  /** A body that ends normally without a done line: content, then exactly
      one `[DONE]`, and no error. */
  lemma CleanEndOneSentinel(req: GenerationRequest, up: Upstream, insertOk: bool)
    requires up.Body? && FirstDone(up.lines).None? && up.end.Exhausted?
    ensures var e := StreamOutcome(req, up, insertOk).events;
      |e| >= 1 && e[|e| - 1] == DoneSentinel &&
      forall k :: 0 <= k < |e| - 1 ==> e[k].Content?
  {
  }

  /** A failure outside the per-line handler: exactly one error event, after
      all the content already emitted, with no `[DONE]`, and nothing stored. */
  lemma FailureYieldsOneError(req: GenerationRequest, up: Upstream, insertOk: bool)
    requires up.Refused? || (FirstDone(up.lines).None? && up.end.ReadFailed?)
    ensures var o := StreamOutcome(req, up, insertOk);
      |o.events| >= 1 && o.inserted == [] &&
      o.events[|o.events| - 1] == Error(if up.Refused? then up.reason else up.end.reason) &&
      o.events[..|o.events| - 1] == (if up.Refused? then [] else Emitted(up.lines, |up.lines|)) &&
      forall k :: 0 <= k < |o.events| - 1 ==> o.events[k].Content?
  {
  }

  /** An example exchange: prompt "hello" on llama3, upstream lines
      `{"response":"Hi","done":false}` and `{"response":"","done":true}`. */
  lemma HelloExchange()
    ensures StreamTrace(GenerationRequest(Str("hello"), "llama3"),
                        Body([Chunk(false, "Hi"), Chunk(true, "")], Exhausted), true)
         == [Yield(Content("Hi")), Store(Record(Str("hello"), "Hi", "llama3")),
             Yield(DoneSentinel), Yield(DoneSentinel)]
  {
    var lines := [Chunk(false, "Hi"), Chunk(true, "")];
    FirstDoneIs(lines, 1);
    assert Emitted(lines, 1) == [Content("Hi")];
    assert Accumulated(lines, 1) == "Hi";
    assert Yields([Content("Hi")]) == [Yield(Content("Hi"))];
  }
}
