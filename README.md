# Werewolf Arena: a verified model of the session registry and its clients

Werewolf Arena runs games of Werewolf between language-model agents. This
project models the parts of the repository around a game's lifecycle:

- the **session registry** (`GameSessionManager`). It creates a game from a
  random sample of names (roles, initial views, a session id taken from the log
  directory, one save, registration); it starts and stops games; it reports
  `running`, `completed` or `stopped`. The registry lives in module
  `SessionManager` (session_manager.dfy). The round engine and the game state
  are stubs holding only what the registry reads and writes. The background
  thread body is two explicit steps, `RunBegins` and `RunEnds`.
- the **model router** of `generate`, plus the response-format, API-key,
  header and MIME-type rules of each backend. This is module `Apis` (apis.dfy).
  A backend is the request value it would be handed, and the environment is a
  map.
- the **client store** (module `GameStore`, game_store.dfy): one state record
  that each action replaces by a record update. Network results come in as
  parameters.
- the **WebSocket client** (module `WebSocket`, websocket.dfy): the reconnect
  back-off counter, the handler slots and the status derivation. Invoking a
  handler is returned as a `Call` value.
- the **live page** (static/index_live.js). Module `LiveView` (live_view.dfy)
  defines what the page derives from the logs and the state. That is the message
  stream, the vote tally, the role lookup, the roll-call, and the
  status-to-controls table. It proves the stream's properties:
  - per round, in log order: night actions, exactly one dawn announcement,
    bids, debate, the vote block (last ballot only), summaries;
  - a simulated clock that never goes back;
  - at most one game-over announcement.

  Module `LiveStream` (live_stream.dfy) is the page object, a class with the
  page's fields. Its loops are proved against those functions.

Shared pieces: module `Common` (common.dfy) holds `Option`, `Result` and
JavaScript/Python truthiness of optional strings. Module `Strings` (strings.dfy)
holds the library string operations the sources use: `startswith`, `in`,
`replace(old, new, 1)`, `split(sep)[-1]`, and decimal rendering and parsing.

The simulated clock of the live page is a whole number of minutes after 14:30.
Messages added without a timestamp carry the clock value `Now`. Each message
carries a stage tag, from which the JavaScript `type` is derived.

Behaviours of the code worth knowing, all of which the model keeps:

- `start_game` does not set `is_running` itself, so two starts before the
  thread body runs both succeed (`SessionManager.DoubleStart`).
- `create_game` does not check the player count. A short sample fails in
  `pop`, and a count outside the pool fails in `random.sample`. The model
  returns both as errors.
- `max_debate_turns` is accepted and never used.
- On the live page, the exile notice carries the same time as the vote result
  before it. Consecutive messages are therefore strictly later except for that
  one tie.
- On the live page, the night messages look the player up by the literal role
  names "Werewolf", "Doctor" and "Seer".
- The game-over announcement is suppressed whenever any generated message
  mentions "游戏结束". A player's debate line with that text is enough.

## Model

| member | source | states |
|---|---|---|
| Strings.FindFirst | werewolf/apis.py:29 | the index returned is an occurrence with none earlier; None exactly when the pattern occurs nowhere |
| Strings.ContainsIffOccurs | werewolf/apis.py:37-39 | `p in s` holds exactly when `p` occurs at some index of `s` |
| Strings.ReplaceFirst | werewolf/apis.py:29 | a string without the pattern is returned unchanged |
| Strings.StripPrefixOnce | werewolf/apis.py:29 | `replace(prefix, "", 1)` on a string starting with the prefix drops exactly that prefix, once, even if it recurs |
| Strings.LastSegmentIsSuffix | backend/src/services/game_manager/session_manager.py:83 | `split('/')[-1]` is a separator-free suffix, preceded by a separator unless it is the whole string |
| Strings.LastSegmentOfJoin | backend/src/services/game_manager/session_manager.py:83 | the last segment of `dir + '/' + seg` is `seg` |
| Strings.LastSegment | backend/src/services/game_manager/session_manager.py:83 | `s.split(sep)[-1]`: what follows the last separator, or all of `s`; its shape is stated by LastSegmentIsSuffix and LastSegmentOfJoin |
| Strings.ParseShowNat | frontend/src/lib/store/gameStore.ts:88 | parsing a rendered number gives the number back |
| Strings.ParseDigits | frontend/src/lib/store/gameStore.ts:88 | `parseInt` on a string of decimal digits: the number it writes, most significant digit first; ParseShowNat states that it inverts rendering |
| Apis.Get | werewolf/apis.py:70 | `os.environ.get` is present exactly for keys of the environment |
| Apis.RouteModel | werewolf/apis.py:25-42 | "openrouter/" routes the name with the prefix removed once; else "glm/" likewise; otherwise the name is passed on unchanged |
| Apis.RouteConditions | werewolf/apis.py:25-42 | each backend is chosen exactly under its condition, in precedence order: openrouter/ prefix, glm/ prefix, "gpt", "claude", else Vertex AI |
| Apis.OpenRouterRoundTrip | werewolf/apis.py:27-30 | prefixing any slug with "openrouter/" routes that very slug to OpenRouter |
| Apis.GlmRoundTrip | werewolf/apis.py:33-35 | prefixing any name with "glm/" routes that very name to GLM |
| Apis.FormatFor | werewolf/apis.py:49-51 | the response format is `json_object` in JSON mode and `text` otherwise |
| Apis.OpenRouterHeaders | werewolf/apis.py:74-86 | `HTTP-Referer` present exactly when OPENROUTER_REFERRER is truthy, with its value; `X-Title` exactly when the title (default "Werewolf Arena") is non-empty; no headers becomes None |
| Apis.GlmKey | werewolf/apis.py:108 | GLM_API_KEY when truthy, otherwise ZHIPU_API_KEY; truthy exactly when one of them is |
| Apis.GenerateVertex | werewolf/apis.py:144-178 | region us-central1; a "flash" model drops the schema; the MIME type is application/json exactly in JSON mode or with a schema left |
| Apis.GenerateFailures | werewolf/apis.py:63-110 | `generate` fails exactly for OpenRouter without OPENROUTER_API_KEY and for GLM without both GLM keys, with the backend's message |
| Apis.GenerateRequests | werewolf/apis.py:25-125 | a request goes to the routed model with the prompt; OpenAI, OpenRouter and GLM ask for `json_object` exactly in JSON mode; GLM prefers GLM_API_KEY |
| Apis.Generate | werewolf/apis.py:25-43 | `generate`: the model is routed (openrouter/ and glm/ prefixes first, then "gpt", then "claude", else Vertex) and the routed backend's request or missing-key error is returned; stated by RouteConditions, GenerateFailures and GenerateRequests |
| SessionManager.Roster | backend/src/services/game_manager/session_manager.py:64-70 | the roster has one name per sampled name |
| SessionManager.IsSample | backend/src/services/game_manager/session_manager.py:62 | what `random.sample(pool, n)` can return: n distinct names of the pool, or nothing when n is negative or larger than the pool |
| SessionManager.FirstOther | backend/src/services/game_manager/session_manager.py:74 | the first other werewolf is a werewolf different from the player; None only when every werewolf is the player |
| SessionManager.Dealt | backend/src/services/game_manager/session_manager.py:64-67 | one player per sampled name |
| SessionManager.InitialPlayers | backend/src/services/game_manager/session_manager.py:64-79 | one player per sampled name, each with a view |
| SessionManager.Names | backend/src/services/game_manager/session_manager.py:70 | the names of the players, position by position |
| SessionManager.RosterShape | backend/src/services/game_manager/session_manager.py:64-70 | the roster is the last three sampled names in pop order, then the rest in sample order |
| SessionManager.RosterIndex | backend/src/services/game_manager/session_manager.py:64-70 | roster position i holds the sampled name it was popped from |
| SessionManager.RosterIsTheSample | backend/src/services/game_manager/session_manager.py:62-70 | the roster is a permutation of the sample: distinct names, all from the pool, seer/doctor/werewolf popped from the end |
| SessionManager.CountRolePrefix | backend/src/services/game_manager/session_manager.py:64-67 | the number of players of a role among the first m positions |
| SessionManager.InitialCast | backend/src/services/game_manager/session_manager.py:62-67 | exactly one seer, one doctor, one werewolf and n − 3 villagers, with the villager or werewolf model |
| SessionManager.InitialViews | backend/src/services/game_manager/session_manager.py:70-79 | every initial view is at round 0, lists the whole roster in roster order, and names no other werewolf |
| SessionManager.OtherWolfOfPack | backend/src/services/game_manager/session_manager.py:73-74 | with two or more werewolves each would be told of a different werewolf |
| SessionManager.GameMaster.constructor | backend/src/services/game_manager/session_manager.py:98-102 | the engine stub starts with no stop request and no logs |
| SessionManager.GameMaster.Stop | backend/src/services/game_manager/session_manager.py:146 | requests a stop and leaves the logs alone |
| SessionManager.State.constructor | backend/src/services/game_manager/session_manager.py:85-91 | the state holds the given players and id, no rounds, no winner, no error |
| SessionManager.State.AppendRound | backend/src/services/game_manager/session_manager.py:170 | the engine stub appends a round and changes nothing the registry reads otherwise |
| SessionManager.State.DeclareWinner | backend/src/services/game_manager/session_manager.py:171 | the engine stub sets the winner and changes nothing the registry reads otherwise |
| SessionManager.GameSession.constructor | backend/src/services/game_manager/session_manager.py:21-28 | a new session holds its parts, has no thread and is not running |
| SessionManager.StatusLabel | backend/src/services/game_manager/session_manager.py:167-169 | "running" exactly when running; else "completed" exactly with a winner; else "stopped" |
| SessionManager.Deal | backend/src/services/game_manager/session_manager.py:64-67 | the pops fail exactly for fewer than three names; otherwise they deal the roster |
| SessionManager.InitViews | backend/src/services/game_manager/session_manager.py:71-79 | every player, in order, gets its initial view |
| SessionManager.ViewsOfCast | backend/src/services/game_manager/session_manager.py:70-79 | the views given to the dealt cast are the initial players |
| SessionManager.BuildPlayers | backend/src/services/game_manager/session_manager.py:62-79 | role assignment and view initialisation fail exactly for fewer than three names, else give the initial players |
| SessionManager.NewSession | backend/src/services/game_manager/session_manager.py:82-108 | fresh state, engine and session holding the players, the id and the log directory, not running |
| SessionManager.GameSessionManager.constructor | backend/src/services/game_manager/session_manager.py:44-49 | the registry starts empty |
| SessionManager.GameSessionManager.CreateGame | backend/src/services/game_manager/session_manager.py:51-113 | errors exactly for a count outside the pool or below three, leaving the registry unchanged; otherwise one save with no rounds, then the session is registered under the last segment of the log directory, replacing any entry |
| SessionManager.GameSessionManager.Register | backend/src/services/game_manager/session_manager.py:110-111 | the session is stored under its id, replacing any entry there |
| SessionManager.GameSessionManager.StartGame | backend/src/services/game_manager/session_manager.py:115-137 | accepted exactly for a known session that is not running; spawns a body and leaves `is_running` alone |
| SessionManager.GameSessionManager.RunBegins | backend/src/services/game_manager/session_manager.py:125-127 | a spawned body sets `is_running` |
| SessionManager.GameSessionManager.RunEnds | backend/src/services/game_manager/session_manager.py:128-133 | a body always clears `is_running`; a raised error's text goes into `error_message`; winner and rounds are untouched |
| SessionManager.GameSessionManager.StopGame | backend/src/services/game_manager/session_manager.py:139-147 | accepted exactly for a running session, and then only the stop flag is raised; `is_running` is not changed |
| SessionManager.GameSessionManager.GetSession | backend/src/services/game_manager/session_manager.py:149-152 | the registered session, or None exactly for an unknown id |
| SessionManager.GameSessionManager.GetAllSessions | backend/src/services/game_manager/session_manager.py:154-157 | a copy with the same ids and sessions |
| SessionManager.GameSessionManager.GetSessionStatus | backend/src/services/game_manager/session_manager.py:159-175 | None exactly for an unknown id; otherwise the status label, round count, winner, error, start time and log directory of the session |
| GameStore.InitialState | frontend/src/lib/store/gameStore.ts:51-69 | no game, empty history, default settings (5 minutes, 10 rounds), idle, nothing selected |
| GameStore.MergeReplacesSuppliedKeys | frontend/src/lib/store/gameStore.ts:77-81 | merging replaces exactly the supplied keys and keeps every other key |
| GameStore.MergeComposes | frontend/src/lib/store/gameStore.ts:77-81 | two merges are one merge of the overlaid partials; merging twice is merging once; an empty partial changes nothing |
| GameStore.MergeSettings | frontend/src/lib/store/gameStore.ts:79 | `{ ...state.gameSettings, ...newSettings }` key by key: a supplied key takes the new value, any other keeps the old one; stated by MergeReplacesSuppliedKeys and MergeComposes |
| GameStore.PushHistory | frontend/src/lib/store/gameStore.ts:96-100 | the new game heads the history, which keeps at most 10 entries, the rest the previous history in order |
| GameStore.PushAllKeepsMostRecent | frontend/src/lib/store/gameStore.ts:96-100 | after any pushes the history is the ten most recent games, newest first, then what fits of the old history |
| GameStore.RoundOfRendered | frontend/src/lib/store/gameStore.ts:88 | the round is the number the id renders, and 0 without a game, a round or an id |
| GameStore.RoundOf | frontend/src/lib/store/gameStore.ts:88 | `game?.current_round?.id ? parseInt(id) : 0`: the parsed id, 0 for no game, no round or an empty id; stated by RoundOfRendered |
| GameStore.ErrorText | frontend/src/lib/store/gameStore.ts:151 | an Error's message, else the fallback |
| GameStore.Store.constructor | frontend/src/lib/store/gameStore.ts:71-74 | the store starts at the initial state |
| GameStore.Store.SetGameSettings | frontend/src/lib/store/gameStore.ts:77-81 | only the settings change, to the merge |
| GameStore.Store.SetCurrentGame | frontend/src/lib/store/gameStore.ts:84-90 | the game is stored, running exactly when its status is "running", round parsed from its id or 0 |
| GameStore.Store.SetGameView | frontend/src/lib/store/gameStore.ts:92-94 | only the view changes |
| GameStore.Store.AddToHistory | frontend/src/lib/store/gameStore.ts:96-100 | only the history changes, by a bounded push |
| GameStore.Store.ClearHistory | frontend/src/lib/store/gameStore.ts:102-104 | only the history changes, to empty |
| GameStore.Store.SetLoading | frontend/src/lib/store/gameStore.ts:107-112 | "loading" also clears the error; other values leave it |
| GameStore.Store.SetError | frontend/src/lib/store/gameStore.ts:114-116 | the error and the "error" loading state are set together |
| GameStore.Store.SetMessage | frontend/src/lib/store/gameStore.ts:118-120 | only the message changes |
| GameStore.Store.SetWebSocketConnected | frontend/src/lib/store/gameStore.ts:122-124 | only the connection flag changes |
| GameStore.Store.SetSelectedPlayer | frontend/src/lib/store/gameStore.ts:126-128 | only the selection changes |
| GameStore.Store.StartGame | frontend/src/lib/store/gameStore.ts:131-158 | success: "success", the game current and at the head of the history, running; failure: "error", the error text, not running |
| GameStore.Store.StopGame | frontend/src/lib/store/gameStore.ts:160-181 | success: "success", not running; failure: "error" and the error text, running flag unchanged |
| GameStore.Store.GetGameStatus | frontend/src/lib/store/gameStore.ts:183-201 | success replaces game, view, running flag and round; failure sets only the error, never the loading state |
| GameStore.Store.Reset | frontend/src/lib/store/gameStore.ts:204-206 | the store returns to the initial state |
| WebSocket.SlotOf | frontend/src/lib/api/websocket.ts:111-131 | a name selects the slot of that name, or none when no slot has it |
| WebSocket.SlotNamesSelect | frontend/src/lib/api/websocket.ts:111-156 | every slot is selected by its own name and by no other slot's name |
| WebSocket.ReconnectBackOff | frontend/src/lib/api/websocket.ts:223-241 | n failures from c leave min(c + n, 5) and schedule the retries c+1..5 with their delays |
| WebSocket.BackOffFromZero | frontend/src/lib/api/websocket.ts:15-17 | from zero the retries wait 1000, 2000, 4000, 8000, 16000 ms, then nothing |
| WebSocket.DelayOfAttempt | frontend/src/lib/api/websocket.ts:226 | the first five attempts wait 1000, 2000, 4000, 8000 and 16000 ms |
| WebSocket.DelayDoubles | frontend/src/lib/api/websocket.ts:226 | each retry waits twice the previous one, the first 1000 ms |
| WebSocket.StatusOf | frontend/src/lib/api/websocket.ts:244-249 | disconnected without a socket, connected exactly when connected, connecting exactly when connecting or retrying, never reconnecting |
| WebSocket.WebSocketClient.GetStatus | frontend/src/lib/api/websocket.ts:244-249 | the client's status is StatusOf of its socket and counter, whose contract gives the four branches |
| WebSocket.WebSocketClient.constructor | frontend/src/lib/api/websocket.ts:19-21 | url is the argument, else the environment, else the default; no socket, counter 0, no handlers |
| WebSocket.WebSocketClient.On | frontend/src/lib/api/websocket.ts:111-132 | only the named slot is set; unknown names change nothing |
| WebSocket.WebSocketClient.Off | frontend/src/lib/api/websocket.ts:135-156 | only the named slot is cleared; unknown names change nothing |
| WebSocket.WebSocketClient.HandleReconnect | frontend/src/lib/api/websocket.ts:223-241 | below the bound the counter grows and a doubled delay is scheduled; at the bound nothing is scheduled and the limit error goes to the error handler if any |
| WebSocket.WebSocketClient.RetryFires | frontend/src/lib/api/websocket.ts:230-234 | a retry reconnects an existing socket and does nothing without one |
| WebSocket.WebSocketClient.OnConnected | frontend/src/lib/api/websocket.ts:39-43 | connected, counter reset to 0 |
| WebSocket.WebSocketClient.OnConnectError | frontend/src/lib/api/websocket.ts:45-49 | a connection error goes through the back-off step |
| WebSocket.WebSocketClient.OnDisconnect | frontend/src/lib/api/websocket.ts:51-60 | a server disconnect drops the socket without retrying; any other reason goes through the back-off step |
| WebSocket.WebSocketClient.Disconnect | frontend/src/lib/api/websocket.ts:73-80 | no socket, counter 0, handlers kept |
| WebSocket.WebSocketClient.Connect | frontend/src/lib/api/websocket.ts:24-37 | a new connecting socket on url + session id; the counter is reset only if a connected socket was replaced |
| WebSocket.WebSocketClient.IsConnected | frontend/src/lib/api/websocket.ts:83-85 | connected exactly when the status is connected |
| WebSocket.WebSocketClient.Send | frontend/src/lib/api/websocket.ts:88-94 | the event is emitted exactly on a connected socket, unchanged |
| WebSocket.WebSocketClient.HandleMessage | frontend/src/lib/api/websocket.ts:159-191 | the handler of the message type is called first, if set; errors deliver `data.message` or "WebSocket error"; a handler that throws is followed by a call of the error handler, if set, with the thrown error |
| WebSocket.WebSocketClient.ForwardSocketEvent | frontend/src/lib/api/websocket.ts:194-220 | the four named socket events reach their handler with the data unchanged |
| LiveView.TypeLabelsDistinct | static/index_live.js:504-514 | every message type has its own label, different from the raw type and from the other types' labels |
| LiveView.RoleDisplayName | static/index_live.js:535-543 | the four roles get Chinese names; any other role is shown as it is |
| LiveView.RoleLabelsDistinct | static/index_live.js:535-543 | the four role labels are told apart |
| LiveView.RoleByPlayer | static/index_live.js:393-404 | the lookup only ever answers Doctor, Seer or Werewolf |
| LiveView.RoleByPlayerPrecedence | static/index_live.js:393-404 | Doctor first, then Seer, then Werewolf; nothing for anyone else or without loaded state |
| LiveView.SystemMessage | static/index_live.js:383-392 | `addSystemMessage`: player "系统", the content prefixed by "📢 " |
| LiveView.NightMessage | static/index_live.js:250-262 | `addNightMessage` for a logged kill, protection or investigation: the role looked up under the literal role name (else that name), "🌙 夜间行动：" and the target field or "未知"; stated by NightMessageShowsRole |
| LiveView.DawnMessage | static/index_live.js:262-270 | the dawn announcement names the eliminated player when the name is truthy, else announces a peaceful night |
| LiveView.LineMessage | static/index_live.js:336-382 | `addBidMessage`, `addDebateMessage` and `addSummaryMessage`: the entry's name and the bid (default 0), the speech or the summary (default empty) |
| LiveView.VoteMessage | static/index_live.js:360-370 | `addVoteMessage`: the voter and the vote field, or "未知" |
| LiveView.ExileMessage | static/index_live.js:305-308 | the exile notice: the exiled name followed by "被驱逐出局" |
| LiveView.GameOverMessage | static/index_live.js:182-185 | the game-over announcement names the winner; GameOverMentioned states that it mentions the end of the game |
| LiveView.NightMessageShowsRole | static/index_live.js:324-335 | a night message shows the role name when no special player bears it, and has type "night" |
| LiveView.TallyCounts | static/index_live.js:563-577 | each target's count is its number of votes ("unknown" without a target), counts sum to the ballot size, no target twice, non-empty for a non-empty ballot |
| LiveView.AddVote | static/index_live.js:577 | `voteCount[target] = (voteCount[target] || 0) + 1` on a table kept in order of first appearance; AddVoteTotal and AddVoteKeys state the count and key changes |
| LiveView.TallyOf | static/index_live.js:575-578 | the ballot's votes added in order; TallyCounts states the counts, the total and the distinct keys |
| LiveView.TallyText | static/index_live.js:583-585 | `Object.entries(voteCount).map(...).join(', ')`: "target (n票)" per entry, comma-separated |
| LiveView.Lines | static/index_live.js:272-290 | one line per entry, the clock a gap per line further |
| LiveView.VoteLines | static/index_live.js:296-299 | one line per vote, a minute apart |
| LiveView.LiveChronological | static/index_live.js:233-316 | every generated message is timed after 14:30 and strictly later than the one before, except an exile notice at its vote result's time |
| LiveView.RoundInOrder | static/index_live.js:241-316 | within a round: night actions, dawn, bids, debate, vote start, vote lines, result, exile, summaries, never going back |
| LiveView.OneDawnPerMorning | static/index_live.js:246-270 | the night actions of a round are followed by exactly one dawn announcement |
| LiveView.OneDawnPerRound | static/index_live.js:262-270 | each round holds exactly one dawn announcement |
| LiveView.OneDawnPerLoggedRound | static/index_live.js:241-270 | the stream holds one dawn announcement per logged round |
| LiveView.RoundRun | static/index_live.js:241-316 | one round of `generateLiveMessages`: night actions, dawn, bids, debate, votes and summaries, with the clock after them; RoundInOrder and OneDawnPerRound state its shape |
| LiveView.LiveRun | static/index_live.js:233-316 | the rounds of `logs` in order from 14:30, each with its state entry when there is one; LiveChronological and OneDawnPerLoggedRound state its properties |
| LiveView.LastBallotOnly | static/index_live.js:292-296 | earlier ballots make no difference to the vote block |
| LiveView.VoteResultShown | static/index_live.js:292-309 | one result line exactly for a non-empty last ballot; one exile notice exactly when someone is exiled |
| LiveView.LiveNoGameOver | static/index_live.js:233-316 | the generated rounds hold no game-over announcement |
| LiveView.RoundNoGameOver | static/index_live.js:241-316 | one round holds no game-over announcement |
| LiveView.GameOverMentioned | static/index_live.js:184 | the announcement's text mentions the end of the game |
| LiveView.GameOverRule | static/index_live.js:182-186 | the rounds come first unchanged; one announcement exactly with a winner and no message mentioning the end, otherwise none; with a winner the stream ends up mentioning it |
| LiveView.Processed | static/index_live.js:160-186 | the regenerated rounds, then the game-over announcement when the state has a truthy winner and no message mentions the end of the game; GameOverRule states it |
| LiveView.EliminatedIff | static/index_live.js:191-201 | a name is eliminated exactly when some round names it as eliminated or exiled |
| LiveView.RollCall | static/index_live.js:188-230 | alive plus eliminated is the number of players; the map is keyed by exactly the entries' keys; a player is eliminated exactly when its key is |
| LiveView.StatusTextsDistinct | static/index_live.js:753-807 | each known status has its own text; every other status shows "未知" |
| LiveView.StatusText | static/index_live.js:761-806 | the status text of each known status, "未知" for any other; stated by StatusTextsDistinct |
| LiveView.ControlsTable | static/index_live.js:753-807 | stop enabled for initializing/running, disabled for stopping/stopped/completed/error; live on running, not live on stopped/completed/error; other statuses change nothing |
| LiveView.Controls | static/index_live.js:761-806 | the (stop disabled, live) pair after a status, from the previous pair; stated by ControlsTable |
| LiveView.RegistryStatusesDecideControls | static/index_live.js:753-807 | every status the registry reports fixes both controls: running enables stop and goes live, the others disable stop and end the live view |
| LiveStream.WerewolfLiveStream.Open | static/index_live.js:17-37 | refused with "No session specified" exactly for an empty session id; otherwise a fresh page in its initial state |
| LiveStream.WerewolfLiveStream.constructor | static/index_live.js:17-37 | no messages or players, zero statistics at night, live, status "unknown", no data |
| LiveStream.WerewolfLiveStream.CollectEliminated | static/index_live.js:191-201 | the loop collects exactly the eliminated set of the rounds |
| LiveStream.WerewolfLiveStream.InitializePlayers | static/index_live.js:188-230 | the roll is rebuilt from scratch and the counts are the alive and eliminated counts |
| LiveStream.WerewolfLiveStream.EmitNightStep | static/index_live.js:250-261 | a logged night action appends its message a minute later |
| LiveStream.WerewolfLiveStream.EmitLines | static/index_live.js:276-289 | the loop appends the lines of the entries |
| LiveStream.WerewolfLiveStream.EmitOptLines | static/index_live.js:285-290 | the lines of a present list, nothing otherwise |
| LiveStream.WerewolfLiveStream.EmitBids | static/index_live.js:272-283 | the bid turns, a minute after each turn |
| LiveStream.WerewolfLiveStream.EmitVoteLines | static/index_live.js:296-299 | the loop appends the vote lines |
| LiveStream.WerewolfLiveStream.CountVotes | static/index_live.js:574-577 | the loop computes the tally, with each count the number of votes, summing to the ballot size |
| LiveStream.WerewolfLiveStream.DisplayVotingResults | static/index_live.js:563-586 | nothing for an empty ballot, else one result line with the tally |
| LiveStream.WerewolfLiveStream.EmitVotes | static/index_live.js:292-309 | the vote block of the last ballot |
| LiveStream.WerewolfLiveStream.EmitMorning | static/index_live.js:246-270 | the night actions and the dawn announcement |
| LiveStream.WerewolfLiveStream.EmitDay | static/index_live.js:271-316 | bids, debate, votes and summaries |
| LiveStream.WerewolfLiveStream.GenerateLiveMessages | static/index_live.js:233-316 | the stream is regenerated from scratch as the rounds' messages; statistics end on the last round's day |
| LiveStream.WerewolfLiveStream.ProcessGameData | static/index_live.js:160-186 | the roll and counts are rebuilt and the stream is the rounds plus the game-over rule |
| LiveStream.WerewolfLiveStream.RetrieveData | static/index_live.js:98-139 | fetched data is kept and processed; a failed fetch appends only the load-failure notice |
| LiveStream.WerewolfLiveStream.UpdateGameControls | static/index_live.js:753-807 | nothing without the controls; otherwise the status, its text and the controls table apply |
| LiveStream.WerewolfLiveStream.StopGame | static/index_live.js:671-722 | a stop ends the live view with status "stopped" and a notice; any failure re-enables the button and shows the error text |

## Left out

- Threads, locks and the singleton of the registry: the thread body is two sequential steps, and the registry is one object.
- `GameMaster.run_game`, `State`, `save_game`, `log_directory`, `get_player_names` and `DEFAULT_THREADS`: their code is not part of this model. They are stubs or inputs: the sample of names, the log directory and the creation time are parameters, and a save is an event in the registry's trace.
- `started_at.isoformat()`: the start time is a number.
- The SDK calls of `generate` (OpenAI, AnthropicVertex, `vertexai.init`, credentials, safety settings, the response text): foreign calls. A backend is the request it would be given.
- No property is stated for a disabled Vertex backend or an `api_config` object. Tests expect them, but the code has neither.
- Zustand middleware, dynamic imports and the `gamesAPI` network calls: API outcomes are parameters.
- socket.io itself: the connection is its two flags, and timers are the delays requested. `socket.disconnect()` emitting a disconnect event is not modelled, and neither is `reject`/`resolve` of the connect promise.
- WebSocket.WebSocketClient.Connect: registering the socket callbacks is modelled by the separate event methods (`OnConnected`, `OnConnectError`, `OnDisconnect`, `ForwardSocketEvent`), not by closures.
- Socket events are taken to come from the current socket. `connect` replaces a socket that is still connecting without `disconnect()`, and the old socket's callbacks stay registered on the client. If that old socket later connects, the code resets the counter but leaves the new socket unconnected. `OnConnected` and the other event methods instead act on the current socket.
- The `connect` and `disconnect` handler slots are set and cleared, but the client never invokes them, so the model does not either.
- The live page's DOM rendering, timers, polling, `fetch`, locale time formatting, message ids, hashes, avatars and `showVotingChart`.
- LiveView.TallyText: `Object.entries` lists integer-like keys first; the model keeps the tally in order of first appearance for every key.
- An action's `result` object is a map from field name to the value as rendered text. Numeric or missing fields and the `reasoning` and `data` fields are not modelled.
- A vote without a `log` would make the vote message throw, and so would a bid, debate or summary entry without its data, because `addBidMessage`, `addDebateMessage` and `addSummaryMessage` read `data.result`. The model's votes always have a log, and its entries always carry an action.
- `typeNames[type]`, `roleNames[role]` and `voteCount[target]` are plain objects, so they can pick up inherited properties for keys such as "constructor" or "__proto__". The lookups model only the listed keys, and the vote table models every target as a fresh key starting at 0.
- WebSocket.WebSocketClient.HandleMessage: an error thrown by the error handler inside the `catch` leaves `handleMessage` uncaught. The model ends at that second call. A throw is modelled only from a handler that was called.
- GameStore.MergeSettings: `Partial<GameSettings>` also admits a key that is present with the value `undefined`, and the spread would then set that setting to `undefined`. A partial key in the model is either absent, which keeps the old value, or a value. Settings are never undefined.
- GameStore.RoundOf: round ids are digit strings. `parseInt` of an id with another leading character gives NaN, and of an id such as "3a" gives the number of its digit prefix. Neither is modelled.
- The Python defaults of `create_game` (`num_players=6`, `max_debate_turns=2`) are not modelled: the model's callers always pass both values.
- LiveStream.WerewolfLiveStream.constructor: the stop button's initial state and status text come from the page markup, which is not part of this model. The model starts with the button enabled and an empty status text.
- `checkGameStatus`, `restartGame` and the debug panel. `checkGameStatus` only forwards a successful status reply to `UpdateGameControls`.
- The simulated clock is unbounded minutes, with no wrap at midnight.
- `updatePhaseDisplay`: the intermediate phase values in a round are not observable in the model. Only the final round and phase are stated.
