/** The connection as an object: the message loop's local variables are its
    fields, updated in place. Every method is one step of the protocol. */
module Connection {
  import opened Values
  import opened WebSocket
  import opened WebSocketSafety
  import JsonAccess

  /** A poller after the tasks of all keys but `left` were aborted. */
  function Aborted(poller: Poller, p: nat, subscriptions: map<string, nat>, left: set<string>): Poller {
    if poller.key in subscriptions && subscriptions[poller.key] == p && poller.key !in left
    then poller.(running := false) else poller
  }

  class Connection {
    const env: Surroundings
    var serving: bool
    var headers: map<string, string>
    var pollers: seq<Poller>
    var subscriptions: map<string, nat>
    var timers: seq<bool>
    var expiryTask: Option<nat>
    var out: seq<Frame>
    var pending: Option<Pending>

    ghost function Abstract(): State
      reads this
    {
      State(serving, headers, pollers, subscriptions, timers, expiryTask, out, pending)
    }

    constructor (surroundings: Surroundings)
      ensures env == surroundings && Abstract() == INITIAL
    {
      env := surroundings;
      serving := true;
      headers := map[];
      pollers := [];
      subscriptions := map[];
      timers := [];
      expiryTask := None;
      out := [];
      pending := None;
    }

    method Send(f: Frame, ok: bool)
      modifies this`out
      ensures Abstract() == Sent(old(Abstract()), f, ok)
    {
      if ok {
        out := out + [f];
      }
    }

    /** `task.abort()` on a poller. */
    method AbortPoller(p: nat)
      requires p < |pollers|
      modifies this`pollers
      ensures pollers == Abort(old(pollers), p)
    {
      pollers := pollers[p := pollers[p].(running := false)];
    }

    method AbortTimer()
      requires expiryTask.Some? ==> expiryTask.value < |timers|
      modifies this`timers
      ensures timers == if expiryTask.Some? then old(timers)[expiryTask.value := false] else old(timers)
    {
      if expiryTask.Some? {
        timers := timers[expiryTask.value := false];
      }
    }

    /** `for (_, task) in subscriptions { task.abort() }` */
    method AbortAll()
      requires Tracked(Abstract())
      modifies this`pollers
      ensures pollers == Stopped(old(Abstract())).pollers
    {
      ghost var before := pollers;
      var keys := subscriptions.Keys;
      while keys != {}
        invariant keys <= subscriptions.Keys && |pollers| == |before|
        invariant forall p :: 0 <= p < |pollers| ==> pollers[p] == Aborted(before[p], p, subscriptions, keys)
        decreases keys
      {
        var k :| k in keys;
        AbortPoller(subscriptions[k]);
        keys := keys - {k};
      }
    }

    /** After the loop: abort every task in the map, then the timer. */
    method Shutdown()
      requires Tracked(Abstract()) && OneTimer(Abstract())
      modifies this
      ensures Abstract() == Stopped(old(Abstract()))
    {
      AbortAll();
      AbortTimer();
      serving := false;
    }

    method AddAll(fields: seq<(string, Value)>)
      modifies this`headers
      ensures headers == AddHeaders(env, old(headers), fields)
    {
      for i := 0 to |fields|
        invariant headers == AddHeaders(env, old(headers), fields[..i])
      {
        var (name, v) := (JsonAccess.Lower(fields[i].0), fields[i].1);
        assert fields[..i + 1][..i] == fields[..i];
        if !v.Text? || !env.validHeader(name, v.s) {
          continue;
        }
        headers := headers[name := v.s];
      }
      assert fields[..|fields|] == fields;
    }

    method ConnectionInit(frame: Value, sent: bool)
      requires Safe(Abstract()) && Reading(Abstract())
      modifies this
      ensures Abstract() == OnInit(env, old(Abstract()), frame, sent)
    {
      var given := Field(Field(frame, "payload"), "headers");
      if given.Obj? {
        AddAll(given.fields);
      }
      Send(Ack, sent);
      if !sent {
        Shutdown();
        return;
      }
      pending := Some(Pending(KeepAlive, env.expires(headers)));
    }

    /** The second send of the message in progress, and what follows it. */
    method FinishMessage(sent: bool)
      requires Safe(Abstract()) && serving && pending.Some?
      modifies this
      ensures Abstract() == Next(env, old(Abstract()), Resume(sent)) && Safe(Abstract())
    {
      NextSafe(env, Abstract(), Resume(sent));
      var p := pending.value;
      Send(p.frame, sent);
      pending := None;
      if p.arms {
        Rearm();
      }
    }

    /** A new expiry timer replaces the pending one. */
    method Rearm()
      requires OneTimer(Abstract())
      modifies this`timers, this`expiryTask
      ensures Abstract() == Rearmed(old(Abstract()))
    {
      AbortTimer();
      expiryTask := Some(|timers|);
      timers := timers + [true];
    }

    /** Spawns the polling task; a task under the same key is aborted. */
    method Subscribe(id: Value)
      requires Tracked(Abstract())
      modifies this`pollers, this`subscriptions
      ensures Abstract() == Subscribed(old(Abstract()), id)
    {
      var key := KeyOf(id);
      var handle := |pollers|;
      pollers := pollers + [Poller(key, id, None, true)];
      var before := subscriptions;
      subscriptions := subscriptions[key := handle];
      if key in before {
        AbortPoller(before[key]);
      }
      assert pollers == Subscribed(old(Abstract()), id).pollers;
    }

    method Start(frame: Value, refused: Option<Value>, reply: Value, sent: bool)
      requires Safe(Abstract()) && Reading(Abstract())
      modifies this
      ensures Abstract() == OnStart(env, old(Abstract()), frame, refused, reply, sent)
    {
      var id := Field(frame, "id");
      if refused.Some? {
        Send(Data(None, id, refused.value), sent);
        pending := Some(Pending(Complete(id), false));
        return;
      }
      if env.isSubscription(Field(frame, "payload")) {
        Subscribe(id);
      } else {
        Send(Data(None, id, reply), sent);
        if !sent {
          Shutdown();
          return;
        }
        pending := Some(Pending(Complete(id), false));
      }
    }

    method Stop(frame: Value, sent: bool)
      requires Safe(Abstract()) && Reading(Abstract())
      modifies this
      ensures Abstract() == OnStop(old(Abstract()), frame, sent)
    {
      var id := Field(frame, "id");
      if id.Text? {
        var before := subscriptions;
        subscriptions := subscriptions - {id.s};
        if id.s in before {
          AbortPoller(before[id.s]);
        }
      } else {
        Send(ConnectionError, sent);
      }
    }

    /** One text frame from the client, up to its first send. */
    method Receive(frame: Value, refused: Option<Value>, reply: Value, sent: bool)
      requires Safe(Abstract()) && Reading(Abstract())
      modifies this
      ensures Abstract() == Next(env, old(Abstract()), WebSocket.Receive(frame, refused, reply, sent))
      ensures Safe(Abstract())
    {
      FrameSafe(env, Abstract(), frame, refused, reply, sent);
      var kind := Field(frame, "type");
      if kind == Text("connection_init") {
        ConnectionInit(frame, sent);
      } else if kind == Text("start") {
        Start(frame, refused, reply, sent);
      } else if kind == Text("stop") {
        Stop(frame, sent);
      } else if kind == Text("connection_terminate") {
        Shutdown();
      } else {
        Send(ConnectionError, sent);
      }
    }

    /** One round of the polling task `p`. */
    method PollOnce(p: nat, response: Value, delivered: bool)
      requires Safe(Abstract()) && p < |pollers| && pollers[p].running
      modifies this`pollers, this`out
      ensures Abstract() == Next(env, old(Abstract()), WebSocket.Poll(p, response, delivered))
      ensures Safe(Abstract())
    {
      NextSafe(env, Abstract(), WebSocket.Poll(p, response, delivered));
      if pollers[p].last != Some(response) {
        var id := pollers[p].id;
        pollers := pollers[p := pollers[p].(last := Some(response))];
        Send(Data(Some(p), id, response), delivered);
        if !delivered {
          AbortPoller(p);
        }
      }
    }
  }
}
