/**
 * What the router promises, proved about the functions that specify the
 * methods of `Router.WsSubscribers`.
 */
module RouterProofs {
  import opened Wrappers
  import opened EventKeys
  import opened Router

  /** `n` copies of `cb`. */
  function Repeat(cb: Callback, n: nat): (r: seq<Callback>)
    ensures |r| == n
    ensures forall k :: 0 <= k < n ==> r[k] == cb
  {
    seq(n, _ => cb)
  }

  /** How many times `q` occurs in `ps`. */
  function Count(ps: seq<Pair>, q: Pair): nat
  {
    if ps == [] then 0
    else Count(ps[..|ps| - 1], q) + (if ps[|ps| - 1] == q then 1 else 0)
  }

  lemma {:induction false} CountPositive(ps: seq<Pair>, q: Pair)
    ensures Count(ps, q) > 0 <==> q in ps
  {
    if ps != [] {
      CountPositive(ps[..|ps| - 1], q);
      assert ps == ps[..|ps| - 1] + [ps[|ps| - 1]];
    }
  }

  predicate Distinct<T(==)>(s: seq<T>)
  {
    forall i, j :: 0 <= i < j < |s| ==> s[i] != s[j]
  }

  /**
   * The pairs of `ps` that a subscription along `ps` must announce: those
   * not in the table `t` yet, each once, at its first occurrence.
   */
  function Announced(t: Table, ps: seq<Pair>): seq<Pair>
  {
    if ps == [] then []
    else
      var init := ps[..|ps| - 1];
      var p := ps[|ps| - 1];
      Announced(t, init) + (if Has(t, p.0, p.1) || p in init then [] else [p])
  }

  // ---------------------------------------------------------------------
  // Dispatch: triggerSubscribers (index.js:96-104)
  // ---------------------------------------------------------------------

  /** Dispatching a list that was extended later makes the later calls later. */
  lemma {:induction false} InvocationsConcat(a: seq<Callback>, b: seq<Callback>, d: Data)
    ensures Invocations(a + b, d) == Invocations(a, d) + Invocations(b, d)
    decreases |b|
  {
    if b == [] {
      assert a + b == a;
    } else {
      var b' := b[..|b| - 1];
      assert a + b == (a + b') + [b[|b| - 1]];
      assert (a + b)[..|a + b| - 1] == a + b';
      InvocationsConcat(a, b', d);
    }
  }

  /** A stored value that is not a function is skipped without a trace. */
  lemma NonFunctionSkipped(a: seq<Callback>, b: seq<Callback>, d: Data)
    ensures Invocations(a + [NotFunction] + b, d) == Invocations(a + b, d)
  {
    InvocationsConcat(a + [NotFunction], b, d);
    InvocationsConcat(a, [NotFunction], d);
    InvocationsConcat(a, b, d);
    assert [NotFunction][..0] == [];
  }

  /** First in, first out: functions are called exactly in their stored order. */
  lemma {:induction false} InvocationsInOrder(cbs: seq<Callback>, d: Data)
    requires forall k :: 0 <= k < |cbs| ==> cbs[k].Function?
    ensures |Invocations(cbs, d)| == |cbs|
    ensures forall k :: 0 <= k < |cbs| ==> Invocations(cbs, d)[k] == Call(cbs[k].id, d)
  {
    if cbs != [] {
      InvocationsInOrder(cbs[..|cbs| - 1], d);
    }
  }

  /** A pair nobody subscribed to dispatches nothing. */
  lemma AbsentPairDispatchesNothing(st: RouterState, c: string, e: string, d: Data)
    requires !Has(st.table, c, e)
    ensures Dispatched(st, c, e, d) == st
  {
    assert st.calls + [] == st.calls;
  }

  // ---------------------------------------------------------------------
  // Subscription: subscribe (index.js:63-89)
  // ---------------------------------------------------------------------

  /** The cross product holds exactly the pairs of a listed channel and a listed event. */
  lemma {:induction false} PairsMembership(cs: seq<string>, es: seq<string>, c: string, e: string)
    ensures (c, e) in Pairs(cs, es) <==> c in cs && e in es
  {
    if cs != [] {
      var init := cs[..|cs| - 1];
      PairsMembership(init, es, c, e);
      assert cs == init + [cs[|cs| - 1]];
      assert (c, e) in Row(cs[|cs| - 1], es) <==> c == cs[|cs| - 1] && e in es by {
        if c == cs[|cs| - 1] && e in es {
          var k :| 0 <= k < |es| && es[k] == e;
          assert Row(cs[|cs| - 1], es)[k] == (c, e);
        }
      }
    }
  }

  /** One subscription appends `cb` to its own pair and touches no other pair. */
  lemma SubscribedLookup(st: RouterState, c: string, e: string, cb: Callback, c': string, e': string)
    ensures Lookup(Subscribed(st, c, e, cb).table, c', e')
            == Lookup(st.table, c', e') + (if (c', e') == (c, e) then [cb] else [])
    ensures Has(Subscribed(st, c, e, cb).table, c', e') <==> Has(st.table, c', e') || (c', e') == (c, e)
  {
    assert Lookup(st.table, c', e') + [] == Lookup(st.table, c', e');
  }

  /** Subscribing never changes the connection flag nor invokes a callback. */
  lemma SubscribedFrame(st: RouterState, c: string, e: string, cb: Callback)
    ensures Subscribed(st, c, e, cb).connected == st.connected
    ensures Subscribed(st, c, e, cb).calls == st.calls
  {
    RegisterIsSent(st, Key(c, e));
  }

  /** A subscription along `ps` adds `cb` to each pair once per occurrence in `ps`. */
  lemma {:induction false} SubscribedAllLookup(st: RouterState, ps: seq<Pair>, cb: Callback, c: string, e: string)
    ensures Lookup(SubscribedAll(st, ps, cb).table, c, e)
            == Lookup(st.table, c, e) + Repeat(cb, Count(ps, (c, e)))
  {
    if ps == [] {
      assert Lookup(st.table, c, e) + [] == Lookup(st.table, c, e);
    } else {
      var init := ps[..|ps| - 1];
      var p := ps[|ps| - 1];
      var n := Count(init, (c, e));
      var before := Lookup(st.table, c, e);
      var m := if p == (c, e) then 1 else 0;
      var mid := SubscribedAll(st, init, cb);
      SubscribedAllLookup(st, init, cb, c, e);
      assert Lookup(mid.table, c, e) == before + Repeat(cb, n);
      SubscribedLookup(mid, p.0, p.1, cb, c, e);
      var after := Lookup(Subscribed(mid, p.0, p.1, cb).table, c, e);
      assert after == before + Repeat(cb, n) + (if m == 1 then [cb] else []);
      RepeatSnoc(cb, n, m);
      assert after == before + Repeat(cb, n + m);
    }
  }

  lemma RepeatSnoc(cb: Callback, n: nat, m: nat)
    requires m <= 1
    ensures Repeat(cb, n + m) == Repeat(cb, n) + (if m == 1 then [cb] else [])
  {
  }

  /** After subscribing along `ps` the table knows every pair of `ps` and loses none. */
  lemma {:induction false} SubscribedAllHas(st: RouterState, ps: seq<Pair>, cb: Callback, c: string, e: string)
    ensures Has(SubscribedAll(st, ps, cb).table, c, e) <==> Has(st.table, c, e) || (c, e) in ps
  {
    if ps != [] {
      var init := ps[..|ps| - 1];
      var p := ps[|ps| - 1];
      assert ps == init + [p];
      SubscribedAllHas(st, init, cb, c, e);
      SubscribedLookup(SubscribedAll(st, init, cb), p.0, p.1, cb, c, e);
    }
  }

  /**
   * The announcements made by a subscription along `ps`: each pair that was
   * not yet in the table is announced once, sent at once when connected and
   * queued otherwise; nothing else of the state but the table changes.
   */
  lemma {:induction false} SubscribedAllAnnounces(st: RouterState, ps: seq<Pair>, cb: Callback)
    ensures SubscribedAll(st, ps, cb).connected == st.connected
    ensures SubscribedAll(st, ps, cb).calls == st.calls
    ensures st.connected ==>
              SubscribedAll(st, ps, cb).queue == st.queue &&
              SubscribedAll(st, ps, cb).outbox == st.outbox + Registers(Keys(Announced(st.table, ps)))
    ensures !st.connected ==>
              SubscribedAll(st, ps, cb).outbox == st.outbox &&
              SubscribedAll(st, ps, cb).queue == st.queue + Keys(Announced(st.table, ps))
  {
    if ps == [] {
      assert st.queue + [] == st.queue && st.outbox + [] == st.outbox;
    } else {
      var init := ps[..|ps| - 1];
      var p := ps[|ps| - 1];
      var mid := SubscribedAll(st, init, cb);
      SubscribedAllAnnounces(st, init, cb);
      SubscribedAllHas(st, init, cb, p.0, p.1);
      SubscribedFrame(mid, p.0, p.1, cb);
      RegisterIsSent(mid, Key(p.0, p.1));
      var a := Announced(st.table, init);
      if Has(st.table, p.0, p.1) || p in init {
        assert a + [] == a;
      } else {
        assert Keys(a + [p]) == Keys(a) + [Key(p.0, p.1)];
        assert Registers(Keys(a) + [Key(p.0, p.1)]) == Registers(Keys(a)) + [RegisterEnvelope(Key(p.0, p.1))];
      }
    }
  }

  /** Every pair missing from the table is announced, and exactly once. */
  lemma {:induction false} AnnouncedExactlyOnce(t: Table, ps: seq<Pair>)
    ensures forall p :: p in Announced(t, ps) <==> p in ps && !Has(t, p.0, p.1)
    ensures Distinct(Announced(t, ps))
  {
    if ps != [] {
      var init := ps[..|ps| - 1];
      var p := ps[|ps| - 1];
      assert ps == init + [p];
      AnnouncedExactlyOnce(t, init);
    }
  }

  /** Fresh, distinct pairs are announced all of them, in subscription order. */
  lemma {:induction false} AnnouncedFresh(t: Table, ps: seq<Pair>)
    requires Distinct(ps)
    requires forall k :: 0 <= k < |ps| ==> !Has(t, ps[k].0, ps[k].1)
    ensures Announced(t, ps) == ps
  {
    if ps != [] {
      var init := ps[..|ps| - 1];
      var p := ps[|ps| - 1];
      assert ps == init + [p];
      AnnouncedFresh(t, init);
    }
  }

  /** Nothing is announced for pairs that all exist already. */
  lemma {:induction false} AnnouncedNone(t: Table, ps: seq<Pair>)
    requires forall k :: 0 <= k < |ps| ==> Has(t, ps[k].0, ps[k].1)
    ensures Announced(t, ps) == []
  {
    if ps != [] {
      AnnouncedNone(t, ps[..|ps| - 1]);
    }
  }

  /** Re-subscribing to pairs that all exist announces nothing. */
  lemma RepeatSubscriptionAnnouncesNothing(st: RouterState, ps: seq<Pair>, cb: Callback)
    requires forall k :: 0 <= k < |ps| ==> Has(st.table, ps[k].0, ps[k].1)
    ensures SubscribedAll(st, ps, cb).queue == st.queue
    ensures SubscribedAll(st, ps, cb).outbox == st.outbox
  {
    AnnouncedNone(st.table, ps);
    SubscribedAllAnnounces(st, ps, cb);
    assert st.queue + [] == st.queue && st.outbox + [] == st.outbox;
  }

  /**
   * `subscribe(channels, events, cb)` stores `cb` for every listed pair, once
   * per occurrence of the pair in the cross product, and leaves every other
   * pair as it was.
   */
  lemma SubscribeRegistersEveryPair(st: RouterState, channels: OneOrMany, events: OneOrMany, cb: Callback, c: string, e: string)
    ensures var after := SubscribedAll(st, Pairs(Items(channels), Items(events)), cb);
            var n := Count(Pairs(Items(channels), Items(events)), (c, e));
            Lookup(after.table, c, e) == Lookup(st.table, c, e) + Repeat(cb, n) &&
            (c in Items(channels) && e in Items(events) <==> n > 0)
  {
    SubscribedAllLookup(st, Pairs(Items(channels), Items(events)), cb, c, e);
    PairsMembership(Items(channels), Items(events), c, e);
    CountPositive(Pairs(Items(channels), Items(events)), (c, e));
  }

  // ---------------------------------------------------------------------
  // The connection: onopen, onerror, onclose (index.js:39-54)
  // ---------------------------------------------------------------------

  /** The queue is sent entry by entry, in order, as registrations. */
  lemma {:induction false} FlushedSendsInOrder(st: RouterState, q: seq<string>)
    ensures Flushed(st, q) == st.(outbox := st.outbox + Registers(q))
  {
    if q == [] {
      assert st.outbox + [] == st.outbox;
    } else {
      var init := q[..|q| - 1];
      FlushedSendsInOrder(st, init);
      RegisterIsSent(Flushed(st, init), q[|q| - 1]);
      assert Registers(q) == Registers(init) + [RegisterEnvelope(q[|q| - 1])];
    }
  }

  /**
   * On open, the subscribers of ("ws", "open") run, the flag is set, every
   * queued key is sent as a registration in FIFO order, and the queue ends
   * empty.
   */
  lemma OpenedFlushesQueue(st: RouterState)
    ensures Opened(st) == RouterState(
              st.table, true, [],
              st.outbox + Registers(st.queue),
              st.calls + Invocations(Lookup(st.table, SocketChannel, "open"), Undefined))
  {
    var st1 := Dispatched(st, SocketChannel, "open", Undefined).(connected := true);
    FlushedSendsInOrder(st1, st1.queue);
  }

  /**
   * Fresh pairs subscribed while disconnected are announced exactly once,
   * in subscription order, when the connection opens, and not before.
   */
  lemma QueuedUntilOpen(st: RouterState, ps: seq<Pair>, cb: Callback)
    requires !st.connected
    requires Distinct(ps)
    requires forall k :: 0 <= k < |ps| ==> !Has(st.table, ps[k].0, ps[k].1)
    ensures SubscribedAll(st, ps, cb).outbox == st.outbox
    ensures Opened(SubscribedAll(st, ps, cb)).outbox == st.outbox + Registers(st.queue + Keys(ps))
    ensures Opened(SubscribedAll(st, ps, cb)).queue == []
  {
    SubscribedAllAnnounces(st, ps, cb);
    AnnouncedFresh(st.table, ps);
    OpenedFlushesQueue(SubscribedAll(st, ps, cb));
  }

  /** Once open, a first subscription to a pair is sent at once and not queued. */
  lemma SentWhileOpen(st: RouterState, c: string, e: string, cb: Callback)
    requires !Has(Opened(st).table, c, e)
    ensures Subscribed(Opened(st), c, e, cb).queue == []
    ensures Subscribed(Opened(st), c, e, cb).outbox == Opened(st).outbox + [RegisterEnvelope(Key(c, e))]
  {
    OpenedFlushesQueue(st);
    RegisterIsSent(Opened(st), Key(c, e));
  }

  /** After an error or a close, a first subscription to a pair is queued again. */
  lemma QueuedAfterErrorOrClose(st: RouterState, c: string, e: string, cb: Callback)
    requires !Has(st.table, c, e)
    ensures !Errored(st).connected && !Closed(st).connected
    ensures Subscribed(Errored(st), c, e, cb).queue == st.queue + [Key(c, e)]
    ensures Subscribed(Errored(st), c, e, cb).outbox == st.outbox
    ensures Subscribed(Closed(st), c, e, cb).queue == st.queue + [Key(c, e)]
    ensures Subscribed(Closed(st), c, e, cb).outbox == st.outbox
  {
  }

  // ---------------------------------------------------------------------
  // clearEventCallbacks (index.js:91-95)
  // ---------------------------------------------------------------------

  /**
   * Clearing an existing pair empties its whole channel: afterwards no event
   * of that channel invokes anything, while other channels keep their
   * callbacks. Clearing an absent pair changes nothing.
   */
  lemma ClearedSilencesChannel(st: RouterState, c: string, e: string, e': string, c': string, d: Data)
    ensures Has(st.table, c, e) ==> Lookup(Cleared(st, c, e).table, c, e') == []
    ensures Has(st.table, c, e) ==> Dispatched(Cleared(st, c, e), c, e', d).calls == st.calls
    ensures c' != c ==> Lookup(Cleared(st, c, e).table, c', e') == Lookup(st.table, c', e')
    ensures !Has(st.table, c, e) ==> Cleared(st, c, e) == st
    ensures Cleared(st, c, e).connected == st.connected && Cleared(st, c, e).queue == st.queue
    ensures Cleared(st, c, e).outbox == st.outbox && Cleared(st, c, e).calls == st.calls
  {
    assert st.calls + [] == st.calls;
  }

  /**
   * Because the whole channel is wiped, subscribing afterwards to any event
   * of that channel announces the pair to the relay once more.
   */
  lemma ClearedPairsAreAnnouncedAgain(st: RouterState, c: string, e: string, e': string, cb: Callback)
    requires Has(st.table, c, e)
    requires !st.connected
    ensures Subscribed(Cleared(st, c, e), c, e', cb).queue == st.queue + [Key(c, e')]
  {
  }

  // ---------------------------------------------------------------------
  // send and onmessage (index.js:22-38, 105-123)
  // ---------------------------------------------------------------------

  /**
   * `send` does nothing for a non-string channel or event; on the local
   * channel it dispatches and writes nothing; on any other channel it writes
   * exactly one envelope and invokes nothing. The table, the flag and the
   * queue never change.
   */
  lemma SendDispatchesOrWrites(st: RouterState, channel: Arg, event: Arg, d: Data)
    ensures var r := Sent(st, channel, event, d);
            r.table == st.table && r.connected == st.connected && r.queue == st.queue
    ensures !channel.Str? || !event.Str? ==> Sent(st, channel, event, d) == st
    ensures channel == Str(LocalChannel) && event.Str? ==>
              Sent(st, channel, event, d).outbox == st.outbox &&
              Sent(st, channel, event, d).calls
                == st.calls + Invocations(Lookup(st.table, LocalChannel, event.s), d)
    ensures channel.Str? && channel.s != LocalChannel && event.Str? ==>
              Sent(st, channel, event, d).calls == st.calls &&
              Sent(st, channel, event, d).outbox == st.outbox + [Envelope(Key(channel.s, event.s), d)]
  {
  }

  /** A message without an `event` field is dropped. */
  lemma ReceivedWithoutEventDropped(st: RouterState, d: Data)
    ensures Received(st, Inbound(None, d)) == st
  {
  }

  /**
   * An envelope the router writes for `(c, e)` is routed, when it comes
   * back, to the subscribers of `(c, e)` with the same data.
   */
  lemma EnvelopeRoundTrip(st: RouterState, other: RouterState, c: string, e: string, d: Data)
    requires c != LocalChannel
    requires Separator !in c && Separator !in e
    ensures var env := Sent(st, Str(c), Str(e), d).outbox[|st.outbox|];
            Received(other, Inbound(Some(env.event), env.data)) == Dispatched(other, c, e, d)
  {
    KeyRoundTrip(c, e);
  }

  /** The channel and event of an inbound message are its first two segments. */
  lemma ReceivedRoutesByFirstTwoSegments(st: RouterState, c: string, e: string, rest: string, d: Data)
    requires Separator !in c && Separator !in e
    ensures Received(st, Inbound(Some(Key(c, e)), d)) == Dispatched(st, c, e, d)
    ensures Received(st, Inbound(Some(Key(c, e) + [Separator] + rest), d)) == Dispatched(st, c, e, d)
  {
    KeyRoundTrip(c, e);
    ExtraSegmentsIgnored(c, e, rest);
  }
}
