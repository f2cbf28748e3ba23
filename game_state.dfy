/**
 * The game-state snapshot `cachedGameData` of index.js and the handlers that
 * change it: `initialized`, `goal_scored` and `update_state`.
 *
 * Each handler is first given as a function from the old snapshot to the
 * new one; class `GameCache` holds the snapshot in a field and its methods
 * update it step by step as the handlers do. Numbers are unbounded
 * integers.
 */
module GameState {
  import opened Wrappers

  /** `GAME_LENGTH` (index.js:126). */
  const GameLength: int := 300

  /** The roster size `update_state` insists on (index.js:265). */
  const RosterSize: nat := 6

  /** The number of players per team in a fresh snapshot (index.js:134-186). */
  const TeamSize: nat := 3

  datatype Location = Location(x: int, y: int, z: int, pitch: int, roll: int, yaw: int)

  datatype Player = Player(
    assists: int,
    boost: int,
    demos: int,
    location: Location,
    saves: int,
    score: int,
    shots: int,
    speed: int)

  datatype Team = Team(score: int, players: seq<Player>)

  /**
   * The snapshot. `team1Score` and `team2Score` stand for the properties
   * `team1_score` and `team2_score` that `update_state` adds; a fresh
   * snapshot does not have them.
   */
  datatype GameData = GameData(
    timeLeft: int,
    timePassed: int,
    team1: Team,
    team2: Team,
    team1Score: Option<int>,
    team2Score: Option<int>)

  /**
   * The part of an `update_state` payload the handler reads: the keys of
   * `players`, `game.time_milliseconds`, `game.isOT`, and the score of each
   * entry of `game.teams`, by its key ("0", "1").
   */
  datatype Tick = Tick(
    players: set<string>,
    timeMilliseconds: int,
    isOT: bool,
    teams: map<string, int>)

  const ZeroLocation: Location := Location(0, 0, 0, 0, 0, 0)

  const ZeroPlayer: Player := Player(0, 0, 0, ZeroLocation, 0, 0, 0, 0)

  predicate IsFreshTeam(t: Team)
  {
    t.score == 0 && |t.players| == TeamSize &&
    forall k :: 0 <= k < |t.players| ==> t.players[k] == ZeroPlayer
  }

  /** `getDefaults()` (index.js:128-245). */
  function Defaults(): (g: GameData)
    ensures g.timeLeft == GameLength && g.timePassed == 0
    ensures IsFreshTeam(g.team1) && IsFreshTeam(g.team2)
    ensures g.team1Score == None && g.team2Score == None
  {
    var team := Team(0, [ZeroPlayer, ZeroPlayer, ZeroPlayer]);
    GameData(GameLength, 0, team, team, None, None)
  }

  /** `data.game.isOT ? 0 : data.game.time_milliseconds` (index.js:266). */
  function TimeLeft(timeMilliseconds: int, isOT: bool): int
  {
    if isOT then 0 else timeMilliseconds
  }

  /** `GAME_LENGTH - data.game.time_milliseconds + (data.game.isOT ? GAME_LENGTH : 0)` (index.js:267). */
  function TimePassed(timeMilliseconds: int, isOT: bool): int
  {
    GameLength - timeMilliseconds + (if isOT then GameLength else 0)
  }

  /** The handler of `goal_scored` (index.js:253-258). */
  function AfterGoal(g: GameData, teamnum: int): GameData
  {
    if teamnum == 0 then g.(team1 := g.team1.(score := g.team1.score + 1))
    else g.(team2 := g.team2.(score := g.team2.score + 1))
  }

  /**
   * `update_state` throws a TypeError when a team entry is missing: the
   * handler stops at index.js:268 or 269.
   */
  predicate TickThrows(tick: Tick)
  {
    |tick.players| == RosterSize && ("0" !in tick.teams || "1" !in tick.teams)
  }

  /**
   * The handler of `update_state` (index.js:262-270). A tick without exactly
   * six players changes nothing; otherwise the clock is recomputed from the
   * tick alone and the team scores are copied into `team1Score` and
   * `team2Score`, as far as the handler gets before a missing team entry
   * throws. The team records, and so `team1.score` and `team2.score`, are
   * never touched.
   */
  function AfterTick(g: GameData, tick: Tick): (r: GameData)
    ensures |tick.players| != RosterSize ==> r == g
    ensures r.team1 == g.team1 && r.team2 == g.team2
    ensures |tick.players| == RosterSize && !tick.isOT ==>
              r.timeLeft == tick.timeMilliseconds && r.timeLeft + r.timePassed == GameLength
    ensures |tick.players| == RosterSize && tick.isOT ==>
              r.timeLeft == 0 && r.timePassed == 2 * GameLength - tick.timeMilliseconds
    ensures r.team1Score == (if |tick.players| == RosterSize && "0" in tick.teams
                             then Some(tick.teams["0"]) else g.team1Score)
    ensures r.team2Score == (if |tick.players| == RosterSize && "0" in tick.teams && "1" in tick.teams
                             then Some(tick.teams["1"]) else g.team2Score)
  {
    if |tick.players| != RosterSize then g
    else
      var clocked := g.(timeLeft := TimeLeft(tick.timeMilliseconds, tick.isOT),
                        timePassed := TimePassed(tick.timeMilliseconds, tick.isOT));
      if "0" !in tick.teams then clocked
      else
        var first := clocked.(team1Score := Some(tick.teams["0"]));
        if "1" !in tick.teams then first
        else first.(team2Score := Some(tick.teams["1"]))
  }

  /** The module-level `cachedGameData` and the handlers that change it. */
  class GameCache {
    var cachedGameData: GameData

    /** `let cachedGameData = getDefaults();` (index.js:247) */
    constructor ()
      ensures cachedGameData == Defaults()
    {
      cachedGameData := Defaults();
    }

    /** The `initialized` handler (index.js:250-252). */
    method OnInitialized()
      modifies this
      ensures cachedGameData == Defaults()
    {
      cachedGameData := Defaults();
    }

    /** The `goal_scored` handler (index.js:253-258), given `data.scorer.teamnum`. */
    method OnGoalScored(teamnum: int)
      modifies this
      ensures cachedGameData == AfterGoal(old(cachedGameData), teamnum)
    {
      if teamnum == 0 {
        cachedGameData := cachedGameData.(team1 := cachedGameData.team1.(score := cachedGameData.team1.score + 1));
      } else {
        cachedGameData := cachedGameData.(team2 := cachedGameData.team2.(score := cachedGameData.team2.score + 1));
      }
    }

    /**
     * The `update_state` handler (index.js:262-270). `threw` tells whether it
     * stopped with a TypeError on a missing team entry.
     */
    method OnUpdateState(tick: Tick) returns (threw: bool)
      modifies this
      ensures cachedGameData == AfterTick(old(cachedGameData), tick)
      ensures threw <==> TickThrows(tick)
    {
      var playerNames := tick.players;
      if |playerNames| != RosterSize {
        return false;
      }
      cachedGameData := cachedGameData.(timeLeft := if tick.isOT then 0 else tick.timeMilliseconds);
      cachedGameData := cachedGameData.(timePassed :=
        GameLength - tick.timeMilliseconds + (if tick.isOT then GameLength else 0));
      if "0" !in tick.teams {
        return true;
      }
      cachedGameData := cachedGameData.(team1Score := Some(tick.teams["0"]));
      if "1" !in tick.teams {
        return true;
      }
      cachedGameData := cachedGameData.(team2Score := Some(tick.teams["1"]));
      return false;
    }
  }

  /**
   * A goal gives exactly one point, to team 1 when the scorer's `teamnum` is
   * 0 and to team 2 otherwise; the clock, the players and the copied score
   * fields stay as they were.
   */
  lemma GoalAddsOnePoint(g: GameData, teamnum: int)
    ensures var r := AfterGoal(g, teamnum);
            r.team1.score + r.team2.score == g.team1.score + g.team2.score + 1 &&
            (r.team1.score == g.team1.score + 1 <==> teamnum == 0) &&
            (r.team2.score == g.team2.score + 1 <==> teamnum != 0) &&
            r.team1.players == g.team1.players && r.team2.players == g.team2.players &&
            r.timeLeft == g.timeLeft && r.timePassed == g.timePassed &&
            r.team1Score == g.team1Score && r.team2Score == g.team2Score
  {
  }

  /** A goal sequence `teamnums` applied in order. */
  function AfterGoals(g: GameData, teamnums: seq<int>): GameData
  {
    if teamnums == [] then g
    else AfterGoal(AfterGoals(g, teamnums[..|teamnums| - 1]), teamnums[|teamnums| - 1])
  }

  /**
   * After a run of goals team 1 has one more point per goal whose scorer's
   * `teamnum` is 0 and team 2 one more per any other goal; nothing else
   * changes.
   */
  lemma {:induction false} GoalTally(g: GameData, teamnums: seq<int>)
    ensures var z := multiset(teamnums)[0];
            AfterGoals(g, teamnums) ==
              g.(team1 := g.team1.(score := g.team1.score + z),
                 team2 := g.team2.(score := g.team2.score + |teamnums| - z))
  {
    if teamnums != [] {
      var init := teamnums[..|teamnums| - 1];
      assert teamnums == init + [teamnums[|teamnums| - 1]];
      GoalTally(g, init);
    }
  }

  /** Replaying a complete tick changes nothing more. */
  lemma TickIdempotent(g: GameData, tick: Tick)
    ensures AfterTick(AfterTick(g, tick), tick) == AfterTick(g, tick)
  {
  }

  /**
   * A complete tick (six players, both team entries) fixes the clock and the
   * copied scores whatever earlier ticks said.
   */
  lemma LastTickWins(g: GameData, earlier: Tick, tick: Tick)
    requires |tick.players| == RosterSize && "0" in tick.teams && "1" in tick.teams
    ensures AfterTick(AfterTick(g, earlier), tick) == AfterTick(g, tick)
  {
  }

  /**
   * Goals and ticks write disjoint fields, so their order does not matter:
   * the score a goal adds is never overwritten by `update_state`.
   */
  lemma GoalAndTickCommute(g: GameData, teamnum: int, tick: Tick)
    ensures AfterTick(AfterGoal(g, teamnum), tick) == AfterGoal(AfterTick(g, tick), teamnum)
  {
  }

  /**
   * `GAME_LENGTH` counts seconds and `time_milliseconds` is combined with it
   * unscaled: a regulation tick at 299000 gives a negative `timePassed`.
   */
  lemma MixedClockUnits(g: GameData, players: set<string>, teams: map<string, int>)
    requires |players| == RosterSize
    ensures AfterTick(g, Tick(players, 299000, false, teams)).timePassed == -298700
    ensures AfterTick(g, Tick(players, 299000, false, teams)).timeLeft == 299000
  {
  }
}
