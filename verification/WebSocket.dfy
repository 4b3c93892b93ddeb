/** A graphql-ws connection (crates/server ws.rs): the message loop, one polling
    task per live query and the token-expiry timer, over every interleaving of
    client frames, polls and expiry. A message that sends two frames takes two
    steps, so polls can fall between them; aborting a task takes effect at once. */
module WebSocket {
  import opened Values
  import JsonAccess

  /** What the connection asks of its surroundings. */
  datatype Surroundings = Surroundings(
    validHeader: (string, string) -> bool,
    isSubscription: Value -> bool,
    expires: map<string, string> -> bool)   // JWT mode and the bearer token carries an expiry

  datatype Poller = Poller(key: string, id: Value, last: Option<Value>, running: bool)

  /** Frames sent to the client; `source` is the poller of a live-query frame. */
  datatype Frame =
    | Data(source: Option<nat>, id: Value, payload: Value)
    | Complete(id: Value)
    | Ack
    | KeepAlive
    | ConnectionError

  datatype State = State(
    serving: bool,
    headers: map<string, string>,
    pollers: seq<Poller>,
    subscriptions: map<string, nat>,
    timers: seq<bool>,
    expiryTask: Option<nat>,
    out: seq<Frame>,
    pending: Option<Pending>)

  /** The loop is between the two sends of one message: the frame still to go
      out, and whether the expiry timer is set after it. */
  datatype Pending = Pending(frame: Frame, arms: bool)

  /** `sent` says whether a step's send succeeds; `refused` holds the errors when
      the session is refused; `reply` is what executing the request answers.
      `Resume` is the second send of the message in progress. */
  datatype Event =
    | Receive(frame: Value, refused: Option<Value>, reply: Value, sent: bool)
    | Resume(sent: bool)
    | Ignored
    | Hangup
    | Poll(poller: nat, response: Value, delivered: bool)
    | Expire(timer: nat)

  const INITIAL := State(true, map[], [], map[], [], None, [], None)

  // ----- the protocol as a function -----

  function Field(frame: Value, key: string): Value {
    var v := JsonAccess.Member(frame, key);
    if v.Some? then v.value else Null
  }

  function Sent(s: State, f: Frame, ok: bool): State {
    if ok then s.(out := s.out + [f]) else s
  }

  /** String headers replace earlier ones; anything else is skipped. */
  function AddHeaders(env: Surroundings, headers: map<string, string>, fields: seq<(string, Value)>): map<string, string> {
    if fields == [] then headers
    else
      var n := |fields| - 1;
      var init := AddHeaders(env, headers, fields[..n]);
      var (name, v) := (JsonAccess.Lower(fields[n].0), fields[n].1);
      if v.Text? && env.validHeader(name, v.s) then init[name := v.s] else init
  }

  function Abort(pollers: seq<Poller>, p: nat): seq<Poller>
    requires p < |pollers|
  {
    pollers[p := pollers[p].(running := false)]
  }

  /** The handle behind a key, aborted. */
  function AbortKey(s: State, key: string): seq<Poller> {
    if key in s.subscriptions && s.subscriptions[key] < |s.pollers| then Abort(s.pollers, s.subscriptions[key]) else s.pollers
  }

  function Stopped(s: State): State {
    s.(serving := false,
       pollers := seq(|s.pollers|, p requires 0 <= p < |s.pollers| =>
         if s.pollers[p].key in s.subscriptions && s.subscriptions[s.pollers[p].key] == p
         then s.pollers[p].(running := false) else s.pollers[p]),
       timers := if s.expiryTask.Some? && s.expiryTask.value < |s.timers| then s.timers[s.expiryTask.value := false] else s.timers)
  }

  /** A new timer replaces the pending one. */
  function Rearmed(s: State): State {
    var timers := if s.expiryTask.Some? && s.expiryTask.value < |s.timers| then s.timers[s.expiryTask.value := false] else s.timers;
    s.(timers := timers + [true], expiryTask := Some(|s.timers|))
  }

  function OnInit(env: Surroundings, s: State, frame: Value, sent: bool): State {
    var given := Field(Field(frame, "payload"), "headers");
    var s1 := if given.Obj? then s.(headers := AddHeaders(env, s.headers, given.fields)) else s;
    if !sent then Stopped(s1)
    else Sent(s1, Ack, true).(pending := Some(Pending(KeepAlive, env.expires(s1.headers))))
  }

  /** The second frame of a message; whether it arrives is not looked at. */
  function OnResume(s: State, sent: bool): State
    requires s.pending.Some?
  {
    var s1 := Sent(s, s.pending.value.frame, sent).(pending := None);
    if s.pending.value.arms then Rearmed(s1) else s1
  }

  function KeyOf(id: Value): string {
    if id.Text? then id.s else ""
  }

  function Subscribed(s: State, id: Value): State {
    var key := KeyOf(id);
    s.(pollers := AbortKey(s, key) + [Poller(key, id, None, true)], subscriptions := s.subscriptions[key := |s.pollers|])
  }

  function OnStart(env: Surroundings, s: State, frame: Value, refused: Option<Value>, reply: Value, sent: bool): State {
    var id := Field(frame, "id");
    var rest := Some(Pending(Complete(id), false));
    if refused.Some? then Sent(s, Data(None, id, refused.value), sent).(pending := rest)
    else if env.isSubscription(Field(frame, "payload")) then Subscribed(s, id)
    else if !sent then Stopped(s)
    else Sent(s, Data(None, id, reply), true).(pending := rest)
  }

  function OnStop(s: State, frame: Value, sent: bool): State {
    var id := Field(frame, "id");
    if id.Text? then s.(pollers := AbortKey(s, id.s), subscriptions := s.subscriptions - {id.s})
    else Sent(s, ConnectionError, sent)
  }

  function OnFrame(env: Surroundings, s: State, frame: Value, refused: Option<Value>, reply: Value, sent: bool): State {
    var kind := Field(frame, "type");
    if kind == Text("connection_init") then OnInit(env, s, frame, sent)
    else if kind == Text("start") then OnStart(env, s, frame, refused, reply, sent)
    else if kind == Text("stop") then OnStop(s, frame, sent)
    else if kind == Text("connection_terminate") then Stopped(s)
    else Sent(s, ConnectionError, sent)
  }

  /** One round of a live query: a frame goes out only when the answer differs
      from the last one; a failed send ends the task. */
  function Polled(s: State, p: nat, response: Value, delivered: bool): State
    requires p < |s.pollers|
  {
    var poller := s.pollers[p];
    if poller.last == Some(response) then s
    else Sent(s.(pollers := s.pollers[p := poller.(last := Some(response), running := delivered)]),
              Data(Some(p), poller.id, response), delivered)
  }

  /** The loop waits for the next message. */
  predicate Reading(s: State) {
    s.serving && s.pending.None?
  }

  function Next(env: Surroundings, s: State, e: Event): State {
    match e
    case Receive(frame, refused, reply, sent) => if Reading(s) then OnFrame(env, s, frame, refused, reply, sent) else s
    case Resume(sent) => if s.serving && s.pending.Some? then OnResume(s, sent) else s
    case Ignored => s
    case Hangup => if Reading(s) then Stopped(s) else s
    case Poll(p, response, delivered) =>
      if p < |s.pollers| && s.pollers[p].running then Polled(s, p, response, delivered) else s
    case Expire(t) => if t < |s.timers| then s.(timers := s.timers[t := false]) else s
  }

  function Run(env: Surroundings, s: State, events: seq<Event>): State {
    if events == [] then s
    else Next(env, Run(env, s, events[..|events| - 1]), events[|events| - 1])
  }

  // ----- what every state keeps -----

  /** Payloads of one poller's frames, in order. */
  function DataOf(out: seq<Frame>, p: nat): seq<Value> {
    if out == [] then []
    else
      var init := DataOf(out[..|out| - 1], p);
      var f := out[|out| - 1];
      if f.Data? && f.source == Some(p) then init + [f.payload] else init
  }

  function LastOf(vs: seq<Value>): Option<Value> {
    if vs == [] then None else Some(vs[|vs| - 1])
  }

  predicate Changing(vs: seq<Value>) {
    forall i :: 0 <= i < |vs| - 1 ==> vs[i] != vs[i + 1]
  }

  /** Running pollers are exactly reachable through the map. */
  predicate Tracked(s: State) {
    (forall p :: 0 <= p < |s.pollers| && s.pollers[p].running ==>
      s.serving && s.pollers[p].key in s.subscriptions && s.subscriptions[s.pollers[p].key] == p) &&
    (forall k :: k in s.subscriptions ==> s.subscriptions[k] < |s.pollers| && s.pollers[s.subscriptions[k]].key == k)
  }

  predicate OneTimer(s: State) {
    (s.expiryTask.Some? ==> s.expiryTask.value < |s.timers|) &&
    forall t :: 0 <= t < |s.timers| && s.timers[t] ==> s.serving && s.expiryTask == Some(t)
  }

  predicate Faithful(s: State, p: nat)
    requires p < |s.pollers|
  {
    var vs := DataOf(s.out, p);
    Changing(vs) && (s.pollers[p].running ==> s.pollers[p].last == LastOf(vs))
  }

  /** Frames belong to existing pollers, carry their id, and a running poller's
      memory is what it last sent. */
  predicate Frames(s: State) {
    (forall p :: 0 <= p < |s.pollers| ==> Faithful(s, p)) &&
    (forall i :: 0 <= i < |s.out| && s.out[i].Data? && s.out[i].source.Some? ==>
      s.out[i].source.value < |s.pollers| && s.out[i].id == s.pollers[s.out[i].source.value].id)
  }

  predicate Safe(s: State) {
    Tracked(s) && OneTimer(s) && Frames(s) && Idle(s)
  }

  /** A half-sent message only ends a request or acknowledges; it is never a live
      frame. */
  predicate Idle(s: State) {
    s.pending.Some? ==> s.serving && (s.pending.value.frame.Complete? || s.pending.value.frame.KeepAlive?)
  }
}
