/** Which frames a client gets for its messages, over every interleaving of polls
    and expiry between the two frames of one message. */
module WebSocketFrames {
  import opened Values
  import opened WebSocket
  import opened WebSocketSafety
  import JsonAccess

  // ----- what a request is answered with -----

  /** The frames that come from no live query. */
  function Plain(out: seq<Frame>): seq<Frame> {
    if out == [] then []
    else
      var init := Plain(out[..|out| - 1]);
      var f := out[|out| - 1];
      if NotLive(f) then init + [f] else init
  }

  lemma {:induction false} PlainAppend(out: seq<Frame>, f: Frame)
    ensures Plain(out + [f]) == if NotLive(f) then Plain(out) + [f] else Plain(out)
  {
    assert (out + [f])[..|out|] == out;
  }

  /** Polls, expiries and ignored messages, which can fall between two sends. */
  predicate Interleaved(events: seq<Event>) {
    forall i :: 0 <= i < |events| ==> events[i].Poll? || events[i].Expire? || events[i].Ignored?
  }

  lemma {:induction false} PollQuiet(s: State, p: nat, response: Value, delivered: bool)
    requires p < |s.pollers|
    ensures
      var t := Polled(s, p, response, delivered);
      t.pending == s.pending && t.serving == s.serving && Plain(t.out) == Plain(s.out)
  {
    PlainAppend(s.out, Data(Some(p), s.pollers[p].id, response));
  }

  lemma {:induction false} StepQuiet(env: Surroundings, s: State, e: Event)
    requires e.Poll? || e.Expire? || e.Ignored?
    ensures
      var t := Next(env, s, e);
      t.pending == s.pending && t.serving == s.serving && Plain(t.out) == Plain(s.out)
  {
    if e.Poll? && e.poller < |s.pollers| {
      PollQuiet(s, e.poller, e.response, e.delivered);
    }
  }

  /** They change neither the message in progress nor the frames of no live query. */
  lemma {:induction false} InterleavedQuiet(env: Surroundings, s: State, events: seq<Event>)
    requires Interleaved(events)
    ensures
      var t := Run(env, s, events);
      t.pending == s.pending && t.serving == s.serving && Plain(t.out) == Plain(s.out)
  {
    if events != [] {
      var n := |events| - 1;
      InterleavedQuiet(env, s, events[..n]);
      StepQuiet(env, Run(env, s, events[..n]), events[n]);
    }
  }

  /** What a `start` that opens no live query is answered with: the errors of a
      refused session, else what the request answers. */
  function Answer(e: Event): Value
    requires e.Receive?
  {
    if e.refused.Some? then e.refused.value else e.reply
  }

  /** The second frame of a message in progress, after whatever happens between. */
  lemma {:induction false} TwoFrames(env: Surroundings, s: State, first: State, between: seq<Event>, f: Frame)
    requires Interleaved(between) && first.serving && first.pending.Some? && first.out == s.out + [f]
    requires NotLive(f) && NotLive(first.pending.value.frame)
    ensures Plain(Next(env, Run(env, first, between), Resume(true)).out) == Plain(s.out) + [f, first.pending.value.frame]
  {
    var t := Run(env, first, between);
    PlainAppend(s.out, f);
    InterleavedQuiet(env, first, between);
    ResumePlain(t);
    PlainAppend(t.out, first.pending.value.frame);
  }

  lemma {:induction false} ResumePlain(s: State)
    requires s.pending.Some?
    ensures OnResume(s, true).out == s.out + [s.pending.value.frame]
  {
  }

  lemma {:induction false} FirstAnswer(env: Surroundings, s: State, e: Event)
    requires Reading(s) && e.Receive? && Field(e.frame, "type") == Text("start") && e.sent
    requires e.refused.Some? || !env.isSubscription(Field(e.frame, "payload"))
    ensures
      var id, t := Field(e.frame, "id"), Next(env, s, e);
      t.out == s.out + [Data(None, id, Answer(e))] && t.pending == Some(Pending(Complete(id), false)) && t.serving
  {
    assert Next(env, s, e) == OnStart(env, s, e.frame, e.refused, e.reply, true);
  }

  /** Main result for one-shot requests: exactly two frames, the answer and its
      completion, both under the request's id, whatever happens between them. */
  lemma {:induction false} RequestAnswered(env: Surroundings, before: seq<Event>, e: Event, between: seq<Event>)
    requires e.Receive? && Field(e.frame, "type") == Text("start") && e.sent && Interleaved(between)
    requires e.refused.Some? || !env.isSubscription(Field(e.frame, "payload"))
    ensures
      var s := Run(env, INITIAL, before);
      var id := Field(e.frame, "id");
      Reading(s) ==> Plain(Next(env, Run(env, Next(env, s, e), between), Resume(true)).out) == Plain(s.out) + [Data(None, id, Answer(e)), Complete(id)]
  {
    var s := Run(env, INITIAL, before);
    if Reading(s) {
      FirstAnswer(env, s, e);
      TwoFrames(env, s, Next(env, s, e), between, Data(None, Field(e.frame, "id"), Answer(e)));
    }
  }

  // ----- headers -----

  /** The field sets this header: its name in lower case, a text that is valid for it. */
  predicate Sets(env: Surroundings, field: (string, Value), name: string) {
    JsonAccess.Lower(field.0) == name && field.1.Text? && env.validHeader(name, field.1.s)
  }

  /** The last field decides what it sets, and the fields before it the rest. */
  lemma {:induction false} LastField(env: Surroundings, headers: map<string, string>, init: seq<(string, Value)>, last: (string, Value), name: string)
    ensures
      var before, after := AddHeaders(env, headers, init), AddHeaders(env, headers, init + [last]);
      if Sets(env, last, name) then name in after && after[name] == last.1.s
      else (name in after <==> name in before) && (name in before ==> after[name] == before[name])
  {
    assert (init + [last])[..|init|] == init;
  }

  /** A header that no field sets keeps its old value. */
  lemma {:induction false} HeadersKept(env: Surroundings, headers: map<string, string>, fields: seq<(string, Value)>, name: string)
    requires forall i :: 0 <= i < |fields| ==> !Sets(env, fields[i], name)
    ensures
      var after := AddHeaders(env, headers, fields);
      (name in after <==> name in headers) && (name in headers ==> after[name] == headers[name])
  {
    if fields != [] {
      var n := |fields| - 1;
      HeadersKept(env, headers, fields[..n], name);
      LastField(env, headers, fields[..n], fields[n], name);
      assert fields[..n] + [fields[n]] == fields;
    }
  }

  /** A header has the value of the last field that sets it. */
  lemma {:induction false} HeadersRead(env: Surroundings, headers: map<string, string>, fields: seq<(string, Value)>, name: string, i: nat)
    requires i < |fields| && Sets(env, fields[i], name) && forall j :: i < j < |fields| ==> !Sets(env, fields[j], name)
    ensures
      var after := AddHeaders(env, headers, fields);
      name in after && after[name] == fields[i].1.s
  {
    var n := |fields| - 1;
    assert fields[..n] + [fields[n]] == fields;
    LastField(env, headers, fields[..n], fields[n], name);
    if i < n {
      assert !Sets(env, fields[n], name);
      HeadersRead(env, headers, fields[..n], name, i);
    }
  }

  function Headers(env: Surroundings, s: State, frame: Value): map<string, string> {
    var given := Field(Field(frame, "payload"), "headers");
    if given.Obj? then AddHeaders(env, s.headers, given.fields) else s.headers
  }

  lemma {:induction false} FirstAck(env: Surroundings, s: State, e: Event)
    requires Reading(s) && e.Receive? && Field(e.frame, "type") == Text("connection_init") && e.sent
    ensures
      var t := Next(env, s, e);
      t.out == s.out + [Ack] && t.pending.Some? && t.pending.value.frame == KeepAlive && t.serving && t.headers == Headers(env, s, e.frame)
  {
    assert Next(env, s, e) == OnInit(env, s, e.frame, true);
  }

  /** Main result for `connection_init`: the headers are taken over, and exactly two
      frames answer it. */
  lemma {:induction false} InitAnswered(env: Surroundings, before: seq<Event>, e: Event, between: seq<Event>)
    requires e.Receive? && Field(e.frame, "type") == Text("connection_init") && e.sent && Interleaved(between)
    ensures
      var s := Run(env, INITIAL, before);
      Reading(s) ==>
        Next(env, s, e).headers == Headers(env, s, e.frame) &&
        Plain(Next(env, Run(env, Next(env, s, e), between), Resume(true)).out) == Plain(s.out) + [Ack, KeepAlive]
  {
    var s := Run(env, INITIAL, before);
    if Reading(s) {
      FirstAck(env, s, e);
      TwoFrames(env, s, Next(env, s, e), between, Ack);
    }
  }

  // ----- other messages -----

  /** A `start` for a subscription opens one running live query under its id and sends
      nothing. */
  lemma {:induction false} SubscriptionOpened(env: Surroundings, before: seq<Event>, e: Event)
    requires e.Receive? && Field(e.frame, "type") == Text("start") && e.refused.None? && env.isSubscription(Field(e.frame, "payload"))
    ensures
      var s := Run(env, INITIAL, before);
      var t := Next(env, s, e);
      Reading(s) ==>
        |t.pollers| == |s.pollers| + 1 && t.out == s.out && t.serving &&
        t.pollers[|s.pollers|].running && t.pollers[|s.pollers|].id == Field(e.frame, "id") && t.pollers[|s.pollers|].last.None?
  {
    RunSafe(env, before);
  }

  predicate Unknown(kind: Value) {
    kind != Text("connection_init") && kind != Text("start") && kind != Text("stop") && kind != Text("connection_terminate")
  }

  /** `connection_terminate` and the end of the stream end the connection; a message
      of no known type is an error and changes nothing else. */
  lemma {:induction false} OtherMessages(env: Surroundings, s: State, e: Event)
    requires Reading(s)
    ensures e == Hangup || (e.Receive? && Field(e.frame, "type") == Text("connection_terminate")) ==> !Next(env, s, e).serving
    ensures e.Receive? && e.sent && Unknown(Field(e.frame, "type")) ==> Next(env, s, e) == s.(out := s.out + [ConnectionError])
  {
  }
}
