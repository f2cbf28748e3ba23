/**
 * The event router `WsSubscribers` of index.js.
 *
 * It keeps a two-level table channel -> event -> callbacks, a connection
 * flag and a FIFO queue of "channel:event" registrations that wait for the
 * relay connection. The transport is modelled by `outbox`, the log of
 * envelopes written to the socket, and callbacks by opaque identifiers:
 * `calls` is the log of the callbacks invoked, in order, with their data.
 *
 * Each effect is first given as a function on a `RouterState` value; the
 * methods of class `WsSubscribers` change the fields step by step, as the
 * source does, and are proved to end in exactly that state.
 */
module Router {
  import opened Wrappers
  import opened EventKeys

  /** The channel whose events never leave the process (index.js:114). */
  const LocalChannel: string := "local"
  /** The channel of the synthetic socket events (index.js:40, 48, 52). */
  const SocketChannel: string := "ws"
  /** The relay's own channel and the registration event (index.js:43, 82). */
  const RelayChannel: string := "wsRelay"
  const RegisterEvent: string := "register"

  /** An opaque payload: absent, a string, or some parsed JSON value. */
  datatype Data = Undefined | Text(s: string) | Payload(tag: nat)

  /** A stored subscriber: a function (by identity) or any other value. */
  datatype Callback = Function(id: nat) | NotFunction

  /** An argument of `send`, which checks `typeof ... === 'string'`. */
  datatype Arg = Str(s: string) | NonString

  /** The channels or events argument of `subscribe`: one string or an array. */
  datatype OneOrMany = One(name: string) | Many(names: seq<string>)

  /** An outbound message `{event, data}`. */
  datatype Envelope = Envelope(event: string, data: Data)

  /** An inbound message after `JSON.parse`; `event` is absent in some. */
  datatype Inbound = Inbound(event: Option<string>, data: Data)

  /** One invocation `callback(data)`. */
  datatype Call = Call(id: nat, data: Data)

  type Table = map<string, map<string, seq<Callback>>>

  type Pair = (string, string)

  datatype RouterState = RouterState(
    table: Table,
    connected: bool,
    queue: seq<string>,
    outbox: seq<Envelope>,
    calls: seq<Call>)

  /** The state of `WsSubscribers` before anything happened (index.js:4-7). */
  function Initial(): RouterState
  {
    RouterState(map[], false, [], [], [])
  }

  /** A single string is treated as a one-element list (index.js:64-73). */
  function Items(x: OneOrMany): seq<string>
  {
    match x
    case One(name) => [name]
    case Many(names) => names
  }

  /** `__subscribers.hasOwnProperty(c) && __subscribers[c].hasOwnProperty(e)` */
  predicate Has(t: Table, c: string, e: string)
  {
    c in t && e in t[c]
  }

  /** The callbacks stored for a pair; none when the pair is absent. */
  function Lookup(t: Table, c: string, e: string): seq<Callback>
  {
    if Has(t, c, e) then t[c][e] else []
  }

  /** The calls made by walking `cbs` front to back, skipping non-functions. */
  function Invocations(cbs: seq<Callback>, d: Data): seq<Call>
  {
    if cbs == [] then []
    else
      var last := cbs[|cbs| - 1];
      Invocations(cbs[..|cbs| - 1], d) +
        (match last
         case Function(id) => [Call(id, d)]
         case NotFunction => [])
  }

  /** The envelope that announces a subscription key to the relay. */
  function RegisterEnvelope(key: string): Envelope
  {
    Envelope(Key(RelayChannel, RegisterEvent), Text(key))
  }

  /** The registration envelopes for `keys`, in order. */
  function Registers(keys: seq<string>): (r: seq<Envelope>)
    ensures |r| == |keys|
    ensures forall k :: 0 <= k < |keys| ==> r[k] == RegisterEnvelope(keys[k])
  {
    seq(|keys|, k requires 0 <= k < |keys| => RegisterEnvelope(keys[k]))
  }

  /** The subscription keys of `ps`, in order. */
  function Keys(ps: seq<Pair>): (r: seq<string>)
    ensures |r| == |ps|
    ensures forall k :: 0 <= k < |ps| ==> r[k] == Key(ps[k].0, ps[k].1)
  {
    seq(|ps|, k requires 0 <= k < |ps| => Key(ps[k].0, ps[k].1))
  }

  /** `(c, e)` for each `e` of `es`, in order: the inner `forEach`. */
  function Row(c: string, es: seq<string>): seq<Pair>
  {
    seq(|es|, k requires 0 <= k < |es| => (c, es[k]))
  }

  /** The cross product `cs` x `es`, in the order of the two nested `forEach` (index.js:74-75). */
  function Pairs(cs: seq<string>, es: seq<string>): seq<Pair>
  {
    if cs == [] then []
    else Pairs(cs[..|cs| - 1], es) + Row(cs[|cs| - 1], es)
  }

  /** `triggerSubscribers(c, e, d)` (index.js:96-104). */
  function Dispatched(st: RouterState, c: string, e: string, d: Data): RouterState
  {
    st.(calls := st.calls + Invocations(Lookup(st.table, c, e), d))
  }

  /** `send(channel, event, data)` (index.js:105-123). */
  function Sent(st: RouterState, channel: Arg, event: Arg, d: Data): RouterState
  {
    if !channel.Str? || !event.Str? then st
    else if channel.s == LocalChannel then Dispatched(st, channel.s, event.s, d)
    else st.(outbox := st.outbox + [Envelope(Key(channel.s, event.s), d)])
  }

  /** The body of the inner `forEach` of `subscribe` for one pair (index.js:76-87). */
  function Subscribed(st: RouterState, c: string, e: string, cb: Callback): RouterState
  {
    var row := if c in st.table then st.table[c] else map[];
    var list := if e in row then row[e] else [];
    var announced :=
      if e in row then st
      else if st.connected then Sent(st, Str(RelayChannel), Str(RegisterEvent), Text(Key(c, e)))
      else st.(queue := st.queue + [Key(c, e)]);
    announced.(table := st.table[c := row[e := list + [cb]]])
  }

  /** Subscribing `cb` to every pair of `ps`, in order. */
  function SubscribedAll(st: RouterState, ps: seq<Pair>, cb: Callback): RouterState
  {
    if ps == [] then st
    else
      var p := ps[|ps| - 1];
      Subscribed(SubscribedAll(st, ps[..|ps| - 1], cb), p.0, p.1, cb)
  }

  /** `clearEventCallbacks(c, e)`: wipes the whole channel `c` when `(c, e)` exists (index.js:91-95). */
  function Cleared(st: RouterState, c: string, e: string): RouterState
  {
    if Has(st.table, c, e) then st.(table := st.table[c := map[]]) else st
  }

  /** The `forEach` of `onopen` over the queue: one registration per entry (index.js:42-44). */
  function Flushed(st: RouterState, q: seq<string>): RouterState
  {
    if q == [] then st
    else Sent(Flushed(st, q[..|q| - 1]), Str(RelayChannel), Str(RegisterEvent), Text(q[|q| - 1]))
  }

  /** `onopen` (index.js:39-46). */
  function Opened(st: RouterState): RouterState
  {
    var st1 := Dispatched(st, SocketChannel, "open", Undefined).(connected := true);
    Flushed(st1, st1.queue).(queue := [])
  }

  /** `onerror` (index.js:47-50). */
  function Errored(st: RouterState): RouterState
  {
    Dispatched(st, SocketChannel, "error", Undefined).(connected := false)
  }

  /** `onclose` (index.js:51-54). */
  function Closed(st: RouterState): RouterState
  {
    Dispatched(st, SocketChannel, "close", Undefined).(connected := false)
  }

  /** `onmessage` after parsing (index.js:22-38). */
  function Received(st: RouterState, msg: Inbound): RouterState
  {
    match msg.event
    case None => st
    case Some(s) => Dispatched(st, ChannelOf(s), EventOf(s), msg.data)
  }

  /** A registration goes over the wire: the relay channel is not the local one. */
  lemma RegisterIsSent(st: RouterState, key: string)
    ensures Sent(st, Str(RelayChannel), Str(RegisterEvent), Text(key))
            == st.(outbox := st.outbox + [RegisterEnvelope(key)])
  {
    assert RelayChannel[0] != LocalChannel[0];
  }

  /** Writing the same key twice leaves only the second write. */
  lemma RowUpdate(t: Table, mid: Table, c: string, e: string, row: map<string, seq<Callback>>, v: seq<Callback>)
    requires c in mid && e in mid[c]
    requires mid == t[c := row[e := mid[c][e]]]
    ensures mid[c := mid[c][e := v]] == t[c := row[e := v]]
  {
    assert mid[c][e := v] == row[e := v];
  }

  lemma SubscribedAllSnoc(st: RouterState, ps: seq<Pair>, p: Pair, cb: Callback)
    ensures SubscribedAll(st, ps + [p], cb) == Subscribed(SubscribedAll(st, ps, cb), p.0, p.1, cb)
  {
    assert (ps + [p])[..|ps|] == ps;
  }

  /** Subscribing along `a + b` is subscribing along `a` and then along `b`. */
  lemma {:induction false} SubscribedAllConcat(st: RouterState, a: seq<Pair>, b: seq<Pair>, cb: Callback)
    ensures SubscribedAll(st, a + b, cb) == SubscribedAll(SubscribedAll(st, a, cb), b, cb)
    decreases |b|
  {
    if b == [] {
      assert a + b == a;
    } else {
      var b' := b[..|b| - 1];
      var p := b[|b| - 1];
      assert a + b == (a + b') + [p];
      assert b == b' + [p];
      SubscribedAllSnoc(st, a + b', p, cb);
      SubscribedAllSnoc(SubscribedAll(st, a, cb), b', p, cb);
      SubscribedAllConcat(st, a, b', cb);
    }
  }

  lemma RowSnoc(c: string, es: seq<string>, j: nat)
    requires j < |es|
    ensures Row(c, es[..j + 1]) == Row(c, es[..j]) + [(c, es[j])]
  {
  }

  lemma PairsSnoc(cs: seq<string>, es: seq<string>, i: nat)
    requires i < |cs|
    ensures Pairs(cs[..i + 1], es) == Pairs(cs[..i], es) + Row(cs[i], es)
  {
    assert cs[..i + 1][..i] == cs[..i];
  }

  class WsSubscribers {
    var subscribers: Table
    var webSocketConnected: bool
    var registerQueue: seq<string>
    /** Every envelope written to the socket, oldest first. */
    var outbox: seq<Envelope>
    /** Every callback invocation, oldest first. */
    var calls: seq<Call>

    function State(): RouterState
      reads this
    {
      RouterState(subscribers, webSocketConnected, registerQueue, outbox, calls)
    }

    constructor ()
      ensures State() == Initial()
    {
      subscribers := map[];
      webSocketConnected := false;
      registerQueue := [];
      outbox := [];
      calls := [];
    }

    method TriggerSubscribers(channel: string, event: string, data: Data)
      modifies this
      ensures State() == Dispatched(old(State()), channel, event, data)
    {
      if channel in subscribers && event in subscribers[channel] {
        var cbs := subscribers[channel][event];
        var i := 0;
        while i < |cbs|
          invariant 0 <= i <= |cbs|
          invariant State() == old(State()).(calls := old(calls) + Invocations(cbs[..i], data))
        {
          assert cbs[..i + 1][..i] == cbs[..i];
          if cbs[i].Function? {
            calls := calls + [Call(cbs[i].id, data)];
          }
          i := i + 1;
        }
        assert cbs[..|cbs|] == cbs;
      }
    }

    method Send(channel: Arg, event: Arg, data: Data)
      modifies this
      ensures State() == Sent(old(State()), channel, event, data)
    {
      if !channel.Str? {
        return;
      }
      if !event.Str? {
        return;
      }
      if channel.s == LocalChannel {
        TriggerSubscribers(channel.s, event.s, data);
      } else {
        var cEvent := Key(channel.s, event.s);
        outbox := outbox + [Envelope(cEvent, data)];
      }
    }

    method Subscribe(channels: OneOrMany, events: OneOrMany, callback: Callback)
      modifies this
      ensures State() == SubscribedAll(old(State()), Pairs(Items(channels), Items(events)), callback)
    {
      var cs := Items(channels);
      var es := Items(events);
      var i := 0;
      while i < |cs|
        invariant 0 <= i <= |cs|
        invariant State() == SubscribedAll(old(State()), Pairs(cs[..i], es), callback)
      {
        SubscribeRow(cs[i], es, callback);
        SubscribedAllConcat(old(State()), Pairs(cs[..i], es), Row(cs[i], es), callback);
        PairsSnoc(cs, es, i);
        i := i + 1;
      }
      assert cs[..|cs|] == cs;
    }

    /** The inner `forEach` of `subscribe`: one channel with every event. */
    method SubscribeRow(c: string, es: seq<string>, callback: Callback)
      modifies this
      ensures State() == SubscribedAll(old(State()), Row(c, es), callback)
    {
      var j := 0;
      assert Row(c, es[..0]) == [];
      while j < |es|
        invariant 0 <= j <= |es|
        invariant State() == SubscribedAll(old(State()), Row(c, es[..j]), callback)
      {
        RowSnoc(c, es, j);
        SubscribedAllSnoc(old(State()), Row(c, es[..j]), (c, es[j]), callback);
        SubscribePair(c, es[j], callback);
        j := j + 1;
      }
      assert es[..|es|] == es;
    }

    /** The body of the inner `forEach` of `subscribe`, for one pair. */
    method SubscribePair(c: string, e: string, callback: Callback)
      modifies this
      ensures State() == Subscribed(old(State()), c, e, callback)
    {
      ghost var t := subscribers;
      ghost var row := if c in t then t[c] else map[];
      ghost var list := if e in row then row[e] else [];
      if c !in subscribers {
        subscribers := subscribers[c := map[]];
      }
      assert subscribers == t[c := row];
      if e !in subscribers[c] {
        subscribers := subscribers[c := subscribers[c][e := []]];
        if webSocketConnected {
          RegisterIsSent(State(), Key(c, e));
          Send(Str(RelayChannel), Str(RegisterEvent), Text(Key(c, e)));
        } else {
          registerQueue := registerQueue + [Key(c, e)];
        }
      } else {
        assert row[e := list] == row;
      }
      assert subscribers == t[c := row[e := list]];
      ghost var mid := subscribers;
      subscribers := subscribers[c := subscribers[c][e := subscribers[c][e] + [callback]]];
      RowUpdate(t, mid, c, e, row, list + [callback]);
    }

    method ClearEventCallbacks(channel: string, event: string)
      modifies this
      ensures State() == Cleared(old(State()), channel, event)
    {
      if channel in subscribers && event in subscribers[channel] {
        subscribers := subscribers[channel := map[]];
      }
    }

    /** The socket's `onopen` handler. */
    method OnOpen()
      modifies this
      ensures State() == Opened(old(State()))
    {
      TriggerSubscribers(SocketChannel, "open", Undefined);
      webSocketConnected := true;
      ghost var start := State();
      var q := registerQueue;
      var i := 0;
      while i < |q|
        invariant 0 <= i <= |q|
        invariant State() == Flushed(start, q[..i])
      {
        assert q[..i + 1][..i] == q[..i];
        Send(Str(RelayChannel), Str(RegisterEvent), Text(q[i]));
        i := i + 1;
      }
      assert q[..|q|] == q;
      registerQueue := [];
    }

    /** The socket's `onerror` handler. */
    method OnError()
      modifies this
      ensures State() == Errored(old(State()))
    {
      TriggerSubscribers(SocketChannel, "error", Undefined);
      webSocketConnected := false;
    }

    /** The socket's `onclose` handler. */
    method OnClose()
      modifies this
      ensures State() == Closed(old(State()))
    {
      TriggerSubscribers(SocketChannel, "close", Undefined);
      webSocketConnected := false;
    }

    /** The socket's `onmessage` handler, given the parsed message. */
    method OnMessage(msg: Inbound)
      modifies this
      ensures State() == Received(old(State()), msg)
    {
      if msg.event.None? {
        return;
      }
      var eventSplit := Split(msg.event.value);
      var channel := eventSplit[0];
      var eventEvent := if |eventSplit| > 1 then eventSplit[1] else UndefinedKey;
      TriggerSubscribers(channel, eventEvent, msg.data);
    }
  }
}
