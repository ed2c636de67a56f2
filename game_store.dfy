/** The client-side game store of frontend/src/lib/store/gameStore.ts.

    The store is one state record; every action merges a partial record into it
    (`set({...})`), so the model is a class holding a `StoreState` that each
    action reassigns with a record update. Network calls are replaced by their
    outcomes, passed in as parameters. */
module GameStore {
  import opened Common
  import opened Strings

  /** A round id as the server sends it: a decimal string. */
  type RoundId = s: string | IsDigits(s)

  datatype Round = Round(id: Option<RoundId>)

  /** The parts of the server's game state the store reads. */
  datatype GameState = GameState(sessionId: string, status: string, currentRound: Option<Round>)

  /** The parts of the server's game view the store reads. */
  datatype GameView = GameView(gameState: GameState)

  datatype GameSettings = GameSettings(villagerModels: seq<string>, werewolfModels: seq<string>,
                                       playerNames: seq<string>, discussionTimeMinutes: int, maxRounds: int)

  /** `Partial<GameSettings>`: None for a key that is not supplied. */
  datatype PartialSettings = PartialSettings(villagerModels: Option<seq<string>>, werewolfModels: Option<seq<string>>,
                                             playerNames: Option<seq<string>>, discussionTimeMinutes: Option<int>,
                                             maxRounds: Option<int>)

  datatype LoadingState = Idle | Loading | Success | Failed

  /** What a failed API call threw: an `Error` (with its message) or anything else. */
  datatype Thrown = ErrorObject(message: string) | NonError

  /** The response of the status endpoint. */
  datatype StatusResponse = StatusResponse(gameState: Option<GameState>, gameView: Option<GameView>, status: string)

  datatype StoreState = StoreState(
    currentGame: Option<GameState>,
    gameView: Option<GameView>,
    gameHistory: seq<GameState>,
    gameSettings: GameSettings,
    isGameRunning: bool,
    isWebSocketConnected: bool,
    currentRound: nat,
    selectedPlayerId: Option<int>,
    loading: LoadingState,
    error: Option<string>,
    message: Option<string>)

  const HistoryLimit: nat := 10

  /** `initialState`. */
  function InitialState(): (s: StoreState)
    ensures s.currentGame.None? && s.gameView.None? && s.gameHistory == []
    ensures s.gameSettings == GameSettings([], [], [], 5, 10)
    ensures !s.isGameRunning && !s.isWebSocketConnected && s.currentRound == 0 && s.selectedPlayerId.None?
    ensures s.loading == Idle && s.error.None? && s.message.None?
  {
    StoreState(None, None, [], GameSettings([], [], [], 5, 10), false, false, 0, None, Idle, None, None)
  }

  /** `{ ...settings, ...partial }`. */
  function MergeSettings(s: GameSettings, p: PartialSettings): GameSettings {
    GameSettings(p.villagerModels.GetOr(s.villagerModels), p.werewolfModels.GetOr(s.werewolfModels),
                 p.playerNames.GetOr(s.playerNames), p.discussionTimeMinutes.GetOr(s.discussionTimeMinutes),
                 p.maxRounds.GetOr(s.maxRounds))
  }

  /** Merging replaces exactly the supplied keys and keeps every other key. */
  lemma MergeReplacesSuppliedKeys(s: GameSettings, p: PartialSettings)
    ensures var m := MergeSettings(s, p);
            (p.villagerModels.Some? ==> m.villagerModels == p.villagerModels.value)
            && (p.villagerModels.None? ==> m.villagerModels == s.villagerModels)
            && (p.werewolfModels.Some? ==> m.werewolfModels == p.werewolfModels.value)
            && (p.werewolfModels.None? ==> m.werewolfModels == s.werewolfModels)
            && (p.playerNames.Some? ==> m.playerNames == p.playerNames.value)
            && (p.playerNames.None? ==> m.playerNames == s.playerNames)
            && (p.discussionTimeMinutes.Some? ==> m.discussionTimeMinutes == p.discussionTimeMinutes.value)
            && (p.discussionTimeMinutes.None? ==> m.discussionTimeMinutes == s.discussionTimeMinutes)
            && (p.maxRounds.Some? ==> m.maxRounds == p.maxRounds.value)
            && (p.maxRounds.None? ==> m.maxRounds == s.maxRounds)
  {
  }

  /** Later keys win: the second of two partial records takes precedence. */
  function Overlay(p: PartialSettings, q: PartialSettings): PartialSettings {
    PartialSettings(if q.villagerModels.Some? then q.villagerModels else p.villagerModels,
                    if q.werewolfModels.Some? then q.werewolfModels else p.werewolfModels,
                    if q.playerNames.Some? then q.playerNames else p.playerNames,
                    if q.discussionTimeMinutes.Some? then q.discussionTimeMinutes else p.discussionTimeMinutes,
                    if q.maxRounds.Some? then q.maxRounds else p.maxRounds)
  }

  /** Two successive merges are one merge of the overlaid partial records; merging
      the same record twice is merging it once, and merging nothing changes nothing. */
  lemma MergeComposes(s: GameSettings, p: PartialSettings, q: PartialSettings)
    ensures MergeSettings(MergeSettings(s, p), q) == MergeSettings(s, Overlay(p, q))
    ensures MergeSettings(MergeSettings(s, p), p) == MergeSettings(s, p)
    ensures MergeSettings(s, PartialSettings(None, None, None, None, None)) == s
  {
  }

  /** `[game, ...history].slice(0, 10)`. */
  function PushHistory(game: GameState, history: seq<GameState>): (h: seq<GameState>)
    ensures |h| == Min(|history| + 1, HistoryLimit)
    ensures h[0] == game
    ensures h[1..] == history[..|h| - 1]
  {
    ([game] + history)[..Min(|history| + 1, HistoryLimit)]
  }

  function Min(a: int, b: int): int {
    if a < b then a else b
  }

  function Reverse<T>(s: seq<T>): (r: seq<T>)
    ensures |r| == |s|
  {
    if |s| == 0 then [] else [s[|s| - 1]] + Reverse(s[..|s| - 1])
  }

  /** Pushing the games one after another. */
  function PushAll(games: seq<GameState>, history: seq<GameState>): seq<GameState> {
    if |games| == 0 then history else PushHistory(games[|games| - 1], PushAll(games[..|games| - 1], history))
  }

  /** After any sequence of pushes the history holds the ten most recent games,
      newest first, followed by what fits of the history before them. */
  lemma {:induction false} PushAllKeepsMostRecent(games: seq<GameState>, history: seq<GameState>)
    requires |history| <= HistoryLimit
    ensures var all := Reverse(games) + history;
            PushAll(games, history) == all[..Min(|all|, HistoryLimit)]
  {
    if |games| > 0 {
      var init := games[..|games| - 1];
      PushAllKeepsMostRecent(init, history);
      var prev := Reverse(init) + history;
      var all := Reverse(games) + history;
      assert all == [games[|games| - 1]] + prev;
      var p := PushAll(init, history);
      assert p == prev[..Min(|prev|, HistoryLimit)];
      var h := PushHistory(games[|games| - 1], p);
      assert |h| == Min(|all|, HistoryLimit);
      forall i | 0 <= i < |h| ensures h[i] == all[i] {
        if i > 0 {
          assert h[i] == h[1..][i - 1] == p[i - 1];
        }
      }
    }
  }

  /** The round `setCurrentGame` and `getGameStatus` derive: the parsed round id,
      or 0 for no game, no round, or an empty id. */
  function RoundOf(game: Option<GameState>): nat {
    if game.Some? && game.value.currentRound.Some? && game.value.currentRound.value.id.Some?
       && game.value.currentRound.value.id.value != ""
    then ParseDigits(game.value.currentRound.value.id.value)
    else 0
  }

  /** The round a game reports is the round whose number the server rendered. */
  lemma RoundOfRendered(sessionId: string, status: string, n: nat)
    ensures RoundOf(Some(GameState(sessionId, status, Some(Round(Some(ShowNat(n))))))) == n
    ensures RoundOf(None) == 0
    ensures RoundOf(Some(GameState(sessionId, status, None))) == 0
    ensures RoundOf(Some(GameState(sessionId, status, Some(Round(None))))) == 0
  {
    ParseShowNat(n);
  }

  /** `error instanceof Error ? error.message : fallback`. An `Error` with an empty
      message yields the empty message, not the fallback. */
  function ErrorText(t: Thrown, fallback: string): (r: string)
    ensures t.ErrorObject? ==> r == t.message
    ensures t.NonError? ==> r == fallback
  {
    match t
    case ErrorObject(m) => m
    case NonError => fallback
  }

  class Store {
    var state: StoreState

    /** The history bound every action keeps. */
    predicate Valid()
      reads this
    {
      |state.gameHistory| <= HistoryLimit
    }

    constructor ()
      ensures state == InitialState() && Valid()
    {
      state := InitialState();
    }

    /** `setGameSettings`. */
    method SetGameSettings(p: PartialSettings)
      requires Valid()
      modifies this
      ensures Valid()
      ensures state == old(state).(gameSettings := MergeSettings(old(state).gameSettings, p))
    {
      state := state.(gameSettings := MergeSettings(state.gameSettings, p));
    }

    /** `setCurrentGame`: running exactly when the game's status is "running". */
    method SetCurrentGame(game: Option<GameState>)
      requires Valid()
      modifies this
      ensures Valid()
      ensures state == old(state).(currentGame := game,
                                   isGameRunning := game.Some? && game.value.status == "running",
                                   currentRound := RoundOf(game))
    {
      var running := game.Some? && game.value.status == "running";
      var round := 0;
      if game.Some? && game.value.currentRound.Some? && game.value.currentRound.value.id.Some?
         && game.value.currentRound.value.id.value != "" {
        round := ParseDigits(game.value.currentRound.value.id.value);
      }
      state := state.(currentGame := game, isGameRunning := running, currentRound := round);
    }

    /** `setGameView`. */
    method SetGameView(view: Option<GameView>)
      requires Valid()
      modifies this
      ensures Valid()
      ensures state == old(state).(gameView := view)
    {
      state := state.(gameView := view);
    }

    /** `addToHistory`. */
    method AddToHistory(game: GameState)
      requires Valid()
      modifies this
      ensures Valid()
      ensures state == old(state).(gameHistory := PushHistory(game, old(state).gameHistory))
    {
      state := state.(gameHistory := PushHistory(game, state.gameHistory));
    }

    /** `clearHistory`. */
    method ClearHistory()
      requires Valid()
      modifies this
      ensures Valid()
      ensures state == old(state).(gameHistory := [])
    {
      state := state.(gameHistory := []);
    }

    /** `setLoading`: entering "loading" also clears the error. */
    method SetLoading(loading: LoadingState)
      requires Valid()
      modifies this
      ensures Valid()
      ensures state == old(state).(loading := loading, error := if loading == Loading then None else old(state).error)
    {
      state := state.(loading := loading);
      if loading == Loading {
        state := state.(error := None);
      }
    }

    /** `setError`: the error and the "error" loading state are set together, even
        for an undefined error. */
    method SetError(error: Option<string>)
      requires Valid()
      modifies this
      ensures Valid()
      ensures state == old(state).(error := error, loading := Failed)
    {
      state := state.(error := error, loading := Failed);
    }

    /** `setMessage`. */
    method SetMessage(message: Option<string>)
      requires Valid()
      modifies this
      ensures Valid()
      ensures state == old(state).(message := message)
    {
      state := state.(message := message);
    }

    /** `setWebSocketConnected`. */
    method SetWebSocketConnected(connected: bool)
      requires Valid()
      modifies this
      ensures Valid()
      ensures state == old(state).(isWebSocketConnected := connected)
    {
      state := state.(isWebSocketConnected := connected);
    }

    /** `setSelectedPlayer`. */
    method SetSelectedPlayer(playerId: Option<int>)
      requires Valid()
      modifies this
      ensures Valid()
      ensures state == old(state).(selectedPlayerId := playerId)
    {
      state := state.(selectedPlayerId := playerId);
    }

    /** `startGame`, given what `gamesAPI.startGame` produced. On success the new
        game becomes current and heads the history and the store is running (the
        round number is left as it was); on failure the error text is set and the
        store is not running. */
    method StartGame(outcome: Result<GameView, Thrown>)
      requires Valid()
      modifies this
      ensures Valid()
      ensures outcome.Ok? ==>
                state == old(state).(loading := Success, error := None,
                                     currentGame := Some(outcome.value.gameState), gameView := Some(outcome.value),
                                     isGameRunning := true, message := Some("Game started successfully!"),
                                     gameHistory := PushHistory(outcome.value.gameState, old(state).gameHistory))
      ensures outcome.Err? ==>
                state == old(state).(loading := Failed, error := Some(ErrorText(outcome.error, "Failed to start game")),
                                     isGameRunning := false)
    {
      state := state.(loading := Loading, error := None);
      match outcome
      case Ok(view) =>
        state := state.(loading := Success, currentGame := Some(view.gameState), gameView := Some(view),
                        isGameRunning := true, message := Some("Game started successfully!"));
        AddToHistory(view.gameState);
      case Err(thrown) =>
        state := state.(loading := Failed, error := Some(ErrorText(thrown, "Failed to start game")),
                        isGameRunning := false);
    }

    /** `stopGame`, given what `gamesAPI.stopGame` produced. A failure leaves
        `isGameRunning` as it was. */
    method StopGame(sessionId: string, outcome: Result<(), Thrown>)
      requires Valid()
      modifies this
      ensures Valid()
      ensures outcome.Ok? ==>
                state == old(state).(loading := Success, error := None, isGameRunning := false,
                                     message := Some("Game stopped successfully"))
      ensures outcome.Err? ==>
                state == old(state).(loading := Failed, error := Some(ErrorText(outcome.error, "Failed to stop game")))
    {
      state := state.(loading := Loading, error := None);
      match outcome
      case Ok(_) =>
        state := state.(loading := Success, isGameRunning := false, message := Some("Game stopped successfully"));
      case Err(thrown) =>
        state := state.(loading := Failed, error := Some(ErrorText(thrown, "Failed to stop game")));
    }

    /** `getGameStatus`, given what `gamesAPI.getGameStatus` produced. Unlike the
        other two calls it never touches `loading`, even on failure. */
    method GetGameStatus(sessionId: string, outcome: Result<StatusResponse, Thrown>)
      requires Valid()
      modifies this
      ensures Valid()
      ensures outcome.Ok? ==>
                state == old(state).(currentGame := outcome.value.gameState, gameView := outcome.value.gameView,
                                     isGameRunning := outcome.value.status == "running",
                                     currentRound := RoundOf(outcome.value.gameState))
      ensures outcome.Err? ==>
                state == old(state).(error := Some(ErrorText(outcome.error, "Failed to get game status")))
    {
      match outcome
      case Ok(response) =>
        state := state.(currentGame := response.gameState, gameView := response.gameView,
                        isGameRunning := response.status == "running", currentRound := RoundOf(response.gameState));
      case Err(thrown) =>
        state := state.(error := Some(ErrorText(thrown, "Failed to get game status")));
    }

    /** `reset`. */
    method Reset()
      modifies this
      ensures Valid()
      ensures state == InitialState()
    {
      state := InitialState();
    }
  }
}
