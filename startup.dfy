/**
 * The wiring at the end of index.js (lines 247-262): the snapshot is
 * created, the router is set up while the socket is not yet open, and the
 * four game handlers are subscribed.
 */
module Startup {
  import opened EventKeys
  import opened Router
  import opened RouterProofs
  import opened GameState

  /** The identities of the four handler functions. */
  const InitializedHandler: nat := 0
  const GoalScoredHandler: nat := 1
  const ClockUpdatedHandler: nat := 2
  const UpdateStateHandler: nat := 3

  /** The router state after each of the four `subscribe` calls of index.js:250-262. */
  function AfterFirst(): RouterState
  {
    SubscribedAll(Initial(), Pairs(["game"], ["initialized"]), Function(InitializedHandler))
  }

  function AfterSecond(): RouterState
  {
    SubscribedAll(AfterFirst(), Pairs(["game"], ["goal_scored"]), Function(GoalScoredHandler))
  }

  function AfterThird(): RouterState
  {
    SubscribedAll(AfterSecond(), Pairs(["game"], ["clock_updated_seconds"]), Function(ClockUpdatedHandler))
  }

  function StartupState(): RouterState
  {
    SubscribedAll(AfterThird(), Pairs(["game"], ["update_state"]), Function(UpdateStateHandler))
  }

  /** The module-level code at index.js:247-262. */
  method Start() returns (router: WsSubscribers, cache: GameCache)
    ensures fresh(router) && fresh(cache)
    ensures router.State() == StartupState()
    ensures cache.cachedGameData == Defaults()
  {
    cache := new GameCache();
    router := new WsSubscribers();
    router.Subscribe(One("game"), One("initialized"), Function(InitializedHandler));
    router.Subscribe(One("game"), One("goal_scored"), Function(GoalScoredHandler));
    router.Subscribe(One("game"), One("clock_updated_seconds"), Function(ClockUpdatedHandler));
    router.Subscribe(One("game"), One("update_state"), Function(UpdateStateHandler));
  }

  lemma PairsOfOne(c: string, e: string)
    ensures Pairs([c], [e]) == [(c, e)]
  {
    assert [c][..0] == [];
  }

  /** One subscription to a fresh pair while disconnected. */
  lemma FreshWhileDisconnected(st: RouterState, c: string, e: string, cb: Callback)
    requires !st.connected && !Has(st.table, c, e)
    ensures var r := SubscribedAll(st, Pairs([c], [e]), cb);
            !r.connected && r.queue == st.queue + [Key(c, e)] && r.outbox == st.outbox &&
            Lookup(r.table, c, e) == Lookup(st.table, c, e) + [cb] &&
            forall c', e' :: Has(r.table, c', e') <==> Has(st.table, c', e') || (c', e') == (c, e)
  {
    PairsOfOne(c, e);
    assert [(c, e)][..0] == [];
    SubscribedFrame(st, c, e, cb);
    forall c', e' ensures Has(Subscribed(st, c, e, cb).table, c', e') <==> Has(st.table, c', e') || (c', e') == (c, e) {
      SubscribedLookup(st, c, e, cb, c', e');
    }
    SubscribedLookup(st, c, e, cb, c, e);
  }

  /** The events of channel "game" subscribed so far, and the queue. */
  ghost predicate Progress(st: RouterState, events: set<string>, queue: seq<string>)
  {
    !st.connected && st.outbox == [] && st.queue == queue &&
    forall c, e :: Has(st.table, c, e) <==> c == "game" && e in events
  }

  lemma ProgressStep(st: RouterState, events: set<string>, queue: seq<string>, e: string, cb: Callback)
    requires Progress(st, events, queue) && e !in events
    ensures Progress(SubscribedAll(st, Pairs(["game"], [e]), cb), events + {e}, queue + [Key("game", e)])
    ensures Lookup(SubscribedAll(st, Pairs(["game"], [e]), cb).table, "game", e) == [cb]
  {
    FreshWhileDisconnected(st, "game", e, cb);
  }

  /**
   * Before the socket opens, the four game events wait in the queue in
   * subscription order, nothing has been sent, and the last pair holds its
   * one handler.
   */
  lemma StartupQueue()
    ensures StartupState().queue ==
              [Key("game", "initialized"), Key("game", "goal_scored"), Key("game", "clock_updated_seconds"), Key("game", "update_state")]
    ensures StartupState().outbox == []
    ensures Lookup(StartupState().table, "game", "update_state") == [Function(UpdateStateHandler)]
  {
    assert Progress(Initial(), {}, []);
    ProgressStep(Initial(), {}, [], "initialized", Function(InitializedHandler));
    ProgressStep(AfterFirst(), {"initialized"}, [Key("game", "initialized")],
                 "goal_scored", Function(GoalScoredHandler));
    ProgressStep(AfterSecond(), {"initialized", "goal_scored"},
                 [Key("game", "initialized"), Key("game", "goal_scored")],
                 "clock_updated_seconds", Function(ClockUpdatedHandler));
    ProgressStep(AfterThird(), {"initialized", "goal_scored", "clock_updated_seconds"},
                 [Key("game", "initialized"), Key("game", "goal_scored"), Key("game", "clock_updated_seconds")],
                 "update_state", Function(UpdateStateHandler));
  }

  /** The registration strings, spelled out. */
  lemma StartupKeys()
    ensures [Key("game", "initialized"), Key("game", "goal_scored"),
             Key("game", "clock_updated_seconds"), Key("game", "update_state")]
            == ["game:initialized", "game:goal_scored", "game:clock_updated_seconds", "game:update_state"]
  {
    assert Key("game", "initialized") == "game:initialized";
    assert Key("game", "goal_scored") == "game:goal_scored";
    assert Key("game", "clock_updated_seconds") == "game:clock_updated_seconds";
    assert Key("game", "update_state") == "game:update_state";
  }

  /**
   * Before the socket opens nothing has been sent; the first open sends the
   * four registrations in subscription order and empties the queue.
   */
  lemma StartupRegistrations()
    ensures StartupState().outbox == []
    ensures StartupState().queue ==
              ["game:initialized", "game:goal_scored", "game:clock_updated_seconds", "game:update_state"]
    ensures Opened(StartupState()).queue == []
    ensures Opened(StartupState()).outbox ==
              Registers(["game:initialized", "game:goal_scored", "game:clock_updated_seconds", "game:update_state"])
  {
    StartupQueue();
    StartupKeys();
    OpenedFlushesQueue(StartupState());
  }
}
