/** Safety of a connection over all runs. */
module WebSocketSafety {
  import opened Values
  import opened WebSocket

  // ----- frames -----

  predicate NotLive(f: Frame) {
    f.Data? ==> f.source.None?
  }

  lemma DataAppend(out: seq<Frame>, f: Frame, p: nat)
    ensures DataOf(out + [f], p) == if f.Data? && f.source == Some(p) then DataOf(out, p) + [f.payload] else DataOf(out, p)
  {
    assert (out + [f])[..|out|] == out;
  }

  lemma {:induction false} QuietData(out: seq<Frame>, extra: seq<Frame>, p: nat)
    requires forall i :: 0 <= i < |extra| ==> NotLive(extra[i])
    ensures DataOf(out + extra, p) == DataOf(out, p)
  {
    if extra == [] {
      assert out + extra == out;
    } else {
      var n := |extra| - 1;
      QuietData(out, extra[..n], p);
      DataAppend(out + extra[..n], extra[n], p);
      assert out + extra == out + extra[..n] + [extra[n]];
    }
  }

  /** Nothing was sent for a poller that does not exist yet. */
  lemma {:induction false} NoDataYet(out: seq<Frame>, p: nat)
    requires forall i :: 0 <= i < |out| && out[i].Data? && out[i].source.Some? ==> out[i].source.value < p
    ensures DataOf(out, p) == []
  {
    if out != [] {
      NoDataYet(out[..|out| - 1], p);
    }
  }

  /** A step that sends no live data, starts pollers afresh and only stops
      others. */
  ghost predicate Quiet(s: State, t: State) {
    |t.out| >= |s.out| && t.out[..|s.out|] == s.out &&
    (forall i :: |s.out| <= i < |t.out| ==> NotLive(t.out[i])) &&
    |t.pollers| >= |s.pollers| &&
    (forall p :: 0 <= p < |s.pollers| ==> SamePoller(s.pollers[p], t.pollers[p])) &&
    (forall p :: |s.pollers| <= p < |t.pollers| ==> t.pollers[p].last == None)
  }

  predicate SamePoller(a: Poller, b: Poller) {
    b.key == a.key && b.id == a.id && b.last == a.last && (b.running ==> a.running)
  }

  lemma QuietKeepsData(s: State, t: State, p: nat)
    requires Quiet(s, t)
    ensures DataOf(t.out, p) == DataOf(s.out, p)
  {
    var extra := t.out[|s.out|..];
    assert t.out == s.out + extra;
    assert forall i :: 0 <= i < |extra| ==> extra[i] == t.out[|s.out| + i];
    QuietData(s.out, extra, p);
  }

  lemma QuietKeepsFrames(s: State, t: State)
    requires Frames(s) && Quiet(s, t)
    ensures Frames(t)
  {
    forall p | 0 <= p < |t.pollers| ensures Faithful(t, p) {
      QuietKeepsData(s, t, p);
      if p < |s.pollers| {
        assert Faithful(s, p) && SamePoller(s.pollers[p], t.pollers[p]);
      } else {
        NoDataYet(s.out, p);
      }
    }
    forall i | 0 <= i < |t.out| && t.out[i].Data? && t.out[i].source.Some?
      ensures t.out[i].source.value < |t.pollers| && t.out[i].id == t.pollers[t.out[i].source.value].id
    {
      assert i < |s.out| ==> t.out[i] == s.out[i];
      assert i >= |s.out| ==> NotLive(t.out[i]);
    }
  }

  // ----- each kind of step -----

  lemma StoppedSafe(s: State)
    requires Safe(s) && Reading(s)
    ensures Safe(Stopped(s)) && Quiet(s, Stopped(s))
  {
    QuietKeepsFrames(s, Stopped(s));
  }

  lemma SentSafe(s: State, f: Frame, ok: bool)
    requires Safe(s) && NotLive(f)
    ensures Safe(Sent(s, f, ok)) && Quiet(s, Sent(s, f, ok))
  {
    QuietKeepsFrames(s, Sent(s, f, ok));
  }

  lemma RearmedSafe(s: State)
    requires Safe(s) && s.serving
    ensures Safe(Rearmed(s)) && Quiet(s, Rearmed(s))
  {
    QuietKeepsFrames(s, Rearmed(s));
  }

  lemma QuietTrans(s: State, t: State, u: State)
    requires Quiet(s, t) && Quiet(t, u)
    ensures Quiet(s, u)
  {
    assert u.out[..|s.out|] == u.out[..|t.out|][..|s.out|];
    assert forall i :: |s.out| <= i < |t.out| ==> u.out[i] == u.out[..|t.out|][i];
    forall p | 0 <= p < |s.pollers| ensures SamePoller(s.pollers[p], u.pollers[p]) {
      assert SamePoller(s.pollers[p], t.pollers[p]) && SamePoller(t.pollers[p], u.pollers[p]);
    }
    forall p | |s.pollers| <= p < |u.pollers| ensures u.pollers[p].last == None {
      assert p < |t.pollers| ==> SamePoller(t.pollers[p], u.pollers[p]);
    }
  }

  lemma InitSafe(env: Surroundings, s: State, frame: Value, sent: bool)
    requires Safe(s) && Reading(s)
    ensures Safe(OnInit(env, s, frame, sent)) && Quiet(s, OnInit(env, s, frame, sent))
  {
    var given := Field(Field(frame, "payload"), "headers");
    var s1 := if given.Obj? then s.(headers := AddHeaders(env, s.headers, given.fields)) else s;
    assert Quiet(s, s1);
    QuietKeepsFrames(s, s1);
    if !sent {
      StoppedSafe(s1);
      QuietTrans(s, s1, Stopped(s1));
    } else {
      var acked := Sent(s1, Ack, true);
      SentSafe(s1, Ack, true);
      PendingSafe(acked, KeepAlive, env.expires(s1.headers));
      QuietTrans(s, s1, acked);
      QuietTrans(s, acked, OnInit(env, s, frame, sent));
    }
  }

  lemma PendingSafe(s: State, f: Frame, arms: bool)
    requires Safe(s) && s.serving && (f.Complete? || f.KeepAlive?)
    ensures Safe(s.(pending := Some(Pending(f, arms)))) && Quiet(s, s.(pending := Some(Pending(f, arms))))
  {
    QuietKeepsFrames(s, s.(pending := Some(Pending(f, arms))));
  }

  lemma ResumeSafe(s: State, sent: bool)
    requires Safe(s) && s.serving && s.pending.Some?
    ensures Safe(OnResume(s, sent)) && Quiet(s, OnResume(s, sent))
  {
    var s1 := Sent(s, s.pending.value.frame, sent).(pending := None);
    assert Quiet(s, s1);
    QuietKeepsFrames(s, s1);
    RearmedSafe(s1);
    QuietTrans(s, s1, Rearmed(s1));
  }

  lemma SubscribedSafe(s: State, id: Value)
    requires Safe(s) && s.serving
    ensures Safe(Subscribed(s, id)) && Quiet(s, Subscribed(s, id))
  {
    QuietKeepsFrames(s, Subscribed(s, id));
  }

  lemma StartSafe(env: Surroundings, s: State, frame: Value, refused: Option<Value>, reply: Value, sent: bool)
    requires Safe(s) && Reading(s)
    ensures
      var t := OnStart(env, s, frame, refused, reply, sent);
      Safe(t) && Quiet(s, t)
  {
    var id := Field(frame, "id");
    if refused.None? && env.isSubscription(Field(frame, "payload")) {
      SubscribedSafe(s, id);
    } else if refused.None? && !sent {
      StoppedSafe(s);
    } else {
      AnsweredSafe(s, id, if refused.Some? then refused.value else reply, sent);
    }
  }

  lemma AnsweredSafe(s: State, id: Value, payload: Value, sent: bool)
    requires Safe(s) && s.serving
    ensures
      var t := Sent(s, Data(None, id, payload), sent).(pending := Some(Pending(Complete(id), false)));
      Safe(t) && Quiet(s, t)
  {
    var s1 := Sent(s, Data(None, id, payload), sent);
    SentSafe(s, Data(None, id, payload), sent);
    PendingSafe(s1, Complete(id), false);
    QuietTrans(s, s1, s1.(pending := Some(Pending(Complete(id), false))));
  }

  lemma StopSafe(s: State, frame: Value, sent: bool)
    requires Safe(s) && s.serving
    ensures Safe(OnStop(s, frame, sent)) && Quiet(s, OnStop(s, frame, sent))
  {
    QuietKeepsFrames(s, OnStop(s, frame, sent));
  }

  ghost predicate Follows(s: State, t: State) {
    Safe(t) && Quiet(s, t)
  }

  lemma FrameSafe(env: Surroundings, s: State, frame: Value, refused: Option<Value>, reply: Value, sent: bool)
    requires Safe(s) && Reading(s)
    ensures Follows(s, OnFrame(env, s, frame, refused, reply, sent))
  {
    var kind := Field(frame, "type");
    InitSafe(env, s, frame, sent);
    StartSafe(env, s, frame, refused, reply, sent);
    OtherSafe(s, frame, sent);
    assert Follows(s, OnInit(env, s, frame, sent)) && Follows(s, OnStart(env, s, frame, refused, reply, sent));
  }

  lemma OtherSafe(s: State, frame: Value, sent: bool)
    requires Safe(s) && Reading(s)
    ensures Follows(s, OnStop(s, frame, sent)) && Follows(s, Stopped(s)) && Follows(s, Sent(s, ConnectionError, sent))
  {
    StopSafe(s, frame, sent);
    StoppedSafe(s);
    SentSafe(s, ConnectionError, sent);
  }

  lemma ChangingAppend(vs: seq<Value>, v: Value)
    requires Changing(vs) && LastOf(vs) != Some(v)
    ensures Changing(vs + [v])
  {
  }

  lemma PolledSafe(s: State, p: nat, response: Value, delivered: bool)
    requires Safe(s) && p < |s.pollers| && s.pollers[p].running
    ensures Safe(Polled(s, p, response, delivered))
  {
    var t := Polled(s, p, response, delivered);
    var poller := s.pollers[p];
    if poller.last != Some(response) {
      var f := Data(Some(p), poller.id, response);
      forall q | 0 <= q < |t.pollers| ensures Faithful(t, q) {
        assert Faithful(s, q);
        DataAppend(s.out, f, q);
        if q == p {
          ChangingAppend(DataOf(s.out, p), response);
        }
      }
    }
  }

  lemma NextSafe(env: Surroundings, s: State, e: Event)
    requires Safe(s)
    ensures Safe(Next(env, s, e))
  {
    match e
    case Receive(frame, refused, reply, sent) =>
      if Reading(s) {
        FrameSafe(env, s, frame, refused, reply, sent);
      }
    case Resume(sent) =>
      if s.serving && s.pending.Some? {
        ResumeSafe(s, sent);
      }
    case Ignored =>
    case Hangup =>
      if Reading(s) {
        StoppedSafe(s);
      }
    case Poll(p, response, delivered) =>
      if p < |s.pollers| && s.pollers[p].running {
        PolledSafe(s, p, response, delivered);
      }
    case Expire(t) =>
      QuietKeepsFrames(s, Next(env, s, e));
  }

  /** Main result: every reachable state is safe. */
  lemma {:induction false} RunSafe(env: Surroundings, events: seq<Event>)
    ensures Safe(Run(env, INITIAL, events))
  {
    if events != [] {
      RunSafe(env, events[..|events| - 1]);
      NextSafe(env, Run(env, INITIAL, events[..|events| - 1]), events[|events| - 1]);
    }
  }

  /** Once the loop has exited nothing is left running, in any run. */
  lemma NothingAfterExit(env: Surroundings, events: seq<Event>)
    ensures
      var s := Run(env, INITIAL, events);
      !s.serving ==> (forall p :: 0 <= p < |s.pollers| ==> !s.pollers[p].running) && forall t :: 0 <= t < |s.timers| ==> !s.timers[t]
  {
    RunSafe(env, events);
  }

  /** At most one poller runs per id key, and at most one timer is pending. */
  lemma OnePerKey(env: Surroundings, events: seq<Event>, p: nat, q: nat)
    ensures
      var s := Run(env, INITIAL, events);
      (p < |s.pollers| && q < |s.pollers| && s.pollers[p].running && s.pollers[q].running ==>
        s.pollers[p].key == s.pollers[q].key ==> p == q) &&
      (p < |s.timers| && q < |s.timers| && s.timers[p] && s.timers[q] ==> p == q)
  {
    RunSafe(env, events);
  }

  /** Consecutive frames of one live query differ. */
  lemma FramesDiffer(env: Surroundings, events: seq<Event>, p: nat)
    ensures
      var s := Run(env, INITIAL, events);
      p < |s.pollers| ==> Changing(DataOf(s.out, p))
  {
    RunSafe(env, events);
    var s := Run(env, INITIAL, events);
    assert p < |s.pollers| ==> Faithful(s, p);
  }

  lemma PollIsCurrent(s: State, p: nat, response: Value)
    requires Safe(s) && p < |s.pollers| && s.pollers[p].running
    ensures LastOf(DataOf(Polled(s, p, response, true).out, p)) == Some(response)
  {
    assert Faithful(s, p);
    DataAppend(s.out, Data(Some(p), s.pollers[p].id, response), p);
  }

  /** After a delivered poll the client holds the current answer. */
  lemma ClientIsCurrent(env: Surroundings, events: seq<Event>, p: nat, response: Value)
    ensures
      var s := Run(env, INITIAL, events);
      p < |s.pollers| && s.pollers[p].running ==>
      LastOf(DataOf(Next(env, s, Poll(p, response, true)).out, p)) == Some(response)
  {
    RunSafe(env, events);
    var s := Run(env, INITIAL, events);
    if p < |s.pollers| && s.pollers[p].running {
      PollIsCurrent(s, p, response);
    }
  }

  // ----- stopping -----

  ghost predicate Silent(s: State, t: State, p: nat) {
    p < |s.pollers| <= |t.pollers| && t.pollers[p].key == s.pollers[p].key && !t.pollers[p].running &&
    DataOf(t.out, p) == DataOf(s.out, p)
  }

  lemma StepSilent(env: Surroundings, s: State, e: Event, p: nat)
    requires Safe(s) && p < |s.pollers| && !s.pollers[p].running
    ensures Silent(s, Next(env, s, e), p)
  {
    match e
    case Receive(frame, refused, reply, sent) =>
      if Reading(s) {
        FrameSafe(env, s, frame, refused, reply, sent);
        QuietKeepsData(s, Next(env, s, e), p);
        assert SamePoller(s.pollers[p], Next(env, s, e).pollers[p]);
      }
    case Resume(sent) =>
      if s.serving && s.pending.Some? {
        ResumeSafe(s, sent);
        QuietKeepsData(s, Next(env, s, e), p);
        assert SamePoller(s.pollers[p], Next(env, s, e).pollers[p]);
      }
    case Ignored =>
    case Hangup =>
    case Poll(q, response, delivered) =>
      if q < |s.pollers| && s.pollers[q].running && s.pollers[q].last != Some(response) && delivered {
        DataAppend(s.out, Data(Some(q), s.pollers[q].id, response), p);
      }
    case Expire(_) =>
  }

  lemma {:induction false} RunSilent(env: Surroundings, s: State, events: seq<Event>, p: nat)
    requires Safe(s) && p < |s.pollers| && !s.pollers[p].running
    ensures Safe(Run(env, s, events)) && Silent(s, Run(env, s, events), p)
  {
    if events != [] {
      var init := events[..|events| - 1];
      RunSilent(env, s, init, p);
      NextSafe(env, Run(env, s, init), events[|events| - 1]);
      StepSilent(env, Run(env, s, init), events[|events| - 1], p);
    }
  }

  /** A frame that stops the live query with this string id. */
  predicate Stops(frame: Value, id: string) {
    Field(frame, "type") == Text("stop") && Field(frame, "id") == Text(id)
  }

  lemma StopHalts(env: Surroundings, s: State, e: Event, id: string, p: nat)
    requires Safe(s) && Reading(s) && e.Receive? && Stops(e.frame, id) && p < |s.pollers| && s.pollers[p].key == id
    ensures Safe(Next(env, s, e)) && Silent(s, Next(env, s, e), p)
  {
    NextSafe(env, s, e);
    StopSafe(s, e.frame, e.sent);
    QuietKeepsData(s, Next(env, s, e), p);
  }

  /** A live query stopped by its string id never sends again, whatever
      follows. */
  lemma StoppedNeverSends(env: Surroundings, before: seq<Event>, e: Event, id: string, after: seq<Event>, p: nat)
    requires e.Receive? && Stops(e.frame, id)
    ensures
      var s := Run(env, INITIAL, before);
      Reading(s) && p < |s.pollers| && s.pollers[p].key == id ==> Silent(s, Run(env, Next(env, s, e), after), p)
  {
    RunSafe(env, before);
    var s := Run(env, INITIAL, before);
    if Reading(s) && p < |s.pollers| && s.pollers[p].key == id {
      StopHalts(env, s, e, id, p);
      RunSilent(env, Next(env, s, e), after, p);
    }
  }

  /** So is a live query whose id key is started again. */
  lemma RestartedNeverSends(env: Surroundings, before: seq<Event>, e: Event, after: seq<Event>, p: nat)
    requires e.Receive? && Field(e.frame, "type") == Text("start") && e.refused.None? && env.isSubscription(Field(e.frame, "payload"))
    ensures
      var s := Run(env, INITIAL, before);
      Reading(s) && p < |s.pollers| && s.pollers[p].key == KeyOf(Field(e.frame, "id")) ==>
      Silent(s, Run(env, Next(env, s, e), after), p)
  {
    RunSafe(env, before);
    var s := Run(env, INITIAL, before);
    if Reading(s) && p < |s.pollers| && s.pollers[p].key == KeyOf(Field(e.frame, "id")) {
      NextSafe(env, s, e);
      SubscribedSafe(s, Field(e.frame, "id"));
      QuietKeepsData(s, Next(env, s, e), p);
      RunSilent(env, Next(env, s, e), after, p);
    }
  }

  // ----- ids that are not strings -----

  /** Every poller is filed under the key of its id; all ids that are not strings
      share the key "". */
  predicate FiledById(s: State) {
    forall p :: 0 <= p < |s.pollers| ==> s.pollers[p].key == KeyOf(s.pollers[p].id)
  }

  lemma NextFiled(env: Surroundings, s: State, e: Event)
    requires FiledById(s)
    ensures FiledById(Next(env, s, e))
  {
    match e
    case Receive(frame, refused, reply, sent) =>
      if Reading(s) {
        FrameFiled(env, s, frame, refused, reply, sent);
      }
    case Resume(_) =>
    case Ignored =>
    case Hangup =>
    case Poll(_, _, _) =>
    case Expire(_) =>
  }

  lemma FrameFiled(env: Surroundings, s: State, frame: Value, refused: Option<Value>, reply: Value, sent: bool)
    requires FiledById(s)
    ensures FiledById(OnFrame(env, s, frame, refused, reply, sent))
  {
    var kind := Field(frame, "type");
    if kind == Text("connection_init") {
      InitFiled(env, s, frame, sent);
    } else if kind == Text("start") {
      StartFiled(env, s, frame, refused, reply, sent);
    } else if kind == Text("stop") {
      StopFiled(s, frame, sent);
    }
  }

  lemma InitFiled(env: Surroundings, s: State, frame: Value, sent: bool)
    requires FiledById(s)
    ensures FiledById(OnInit(env, s, frame, sent))
  {
  }

  lemma StartFiled(env: Surroundings, s: State, frame: Value, refused: Option<Value>, reply: Value, sent: bool)
    requires FiledById(s)
    ensures FiledById(OnStart(env, s, frame, refused, reply, sent))
  {
    SubscribedFiled(s, Field(frame, "id"));
  }

  lemma StopFiled(s: State, frame: Value, sent: bool)
    requires FiledById(s)
    ensures FiledById(OnStop(s, frame, sent))
  {
  }

  lemma SubscribedFiled(s: State, id: Value)
    requires FiledById(s)
    ensures FiledById(Subscribed(s, id))
  {
  }

  lemma {:induction false} RunFiled(env: Surroundings, events: seq<Event>)
    ensures FiledById(Run(env, INITIAL, events))
  {
    if events != [] {
      RunFiled(env, events[..|events| - 1]);
      NextFiled(env, Run(env, INITIAL, events[..|events| - 1]), events[|events| - 1]);
    }
  }

  /** Sending `stop` with the id a live query was started with ends it exactly when
      that id is a string. */
  lemma {:induction false} OwnIdStopsExact(env: Surroundings, before: seq<Event>, e: Event, p: nat)
    requires e.Receive? && Field(e.frame, "type") == Text("stop")
    ensures
      var s := Run(env, INITIAL, before);
      Reading(s) && p < |s.pollers| && s.pollers[p].running && Field(e.frame, "id") == s.pollers[p].id ==>
      (!Next(env, s, e).pollers[p].running <==> s.pollers[p].id.Text?)
  {
    RunSafe(env, before);
    RunFiled(env, before);
  }
}
