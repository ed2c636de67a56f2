/** The game-session registry of backend/src/services/game_manager/session_manager.py.

    The registry maps a session id to a `GameSession` (its game state, its round
    engine, its log directory, its start time and its `is_running` flag). The round
    engine (`GameMaster`) and the game state (`State`) are collaborators whose code
    is not part of this model: they appear as stubs holding exactly what the
    registry reads and writes (a stop flag; the rounds, the winner and the error
    message). The background thread body of `start_game` is modelled as two explicit
    steps, `RunBegins` and `RunEnds`, instead of concurrency. */
module SessionManager {
  import opened Common
  import opened Strings

  datatype Role = Seer | Doctor | Werewolf | Villager

  /** What a player knows at the start of a round. */
  datatype GameView = GameView(currentPlayers: seq<string>, roundNumber: nat, otherWolf: Option<string>)

  /** A participant; `view` is None until `initialize_game_view` has run. */
  datatype Player = Player(name: string, role: Role, model: string, view: Option<GameView>)

  /** `create_game` builds `range(1)` werewolves. */
  const WerewolfCount: nat := 1

  predicate Distinct(s: seq<string>) {
    forall i, j :: 0 <= i < j < |s| ==> s[i] != s[j]
  }

  /** What `random.sample(pool, n)` returns: n distinct names of the pool, or
      nothing when it raises (n negative or larger than the pool). */
  predicate IsSample(pool: seq<string>, n: int, sample: seq<string>) {
    if 0 <= n <= |pool| then |sample| == n && Distinct(sample) && (forall x :: x in sample ==> x in pool)
    else sample == []
  }

  /** The names in roster order: the seer (popped first, so the last sampled name),
      the doctor, the werewolves (each popped from the end), then the remaining
      names, in sample order, as villagers. */
  function Roster(sample: seq<string>): (r: seq<string>)
    requires |sample| >= 2 + WerewolfCount
    ensures |r| == |sample|
  {
    var n := |sample|;
    [sample[n - 1], sample[n - 2]]
      + seq(WerewolfCount, i requires 0 <= i < WerewolfCount => sample[n - 3 - i])
      + sample[..n - 2 - WerewolfCount]
  }

  /** The role of the player at roster position `i`. */
  function RoleAt(i: nat): Role {
    if i == 0 then Seer
    else if i == 1 then Doctor
    else if i < 2 + WerewolfCount then Werewolf
    else Villager
  }

  function ModelFor(role: Role, villagerModel: string, werewolfModel: string): string {
    if role == Werewolf then werewolfModel else villagerModel
  }

  /** `next((w.name for w in werewolves if w != player), None)`. */
  function FirstOther(wolves: seq<string>, name: string): (r: Option<string>)
    ensures r.Some? ==> r.value in wolves && r.value != name
    ensures r.None? ==> forall w :: w in wolves ==> w == name
  {
    if |wolves| == 0 then None
    else if wolves[0] != name then Some(wolves[0])
    else
      assert forall w :: w in wolves ==> w == wolves[0] || w in wolves[1..];
      FirstOther(wolves[1..], name)
  }

  /** The other werewolf a player is told about: only a werewolf, and only when
      there is more than one werewolf. */
  function OtherWolf(name: string, role: Role, wolves: seq<string>): Option<string> {
    if role == Werewolf && |wolves| > 1 then FirstOther(wolves, name) else None
  }

  /** The players as dealt, in roster order, before any view is initialised. */
  function Dealt(sample: seq<string>, villagerModel: string, werewolfModel: string): (ps: seq<Player>)
    requires |sample| >= 2 + WerewolfCount
    ensures |ps| == |sample|
  {
    var roster := Roster(sample);
    seq(|roster|, i requires 0 <= i < |roster| =>
      Player(roster[i], RoleAt(i), ModelFor(RoleAt(i), villagerModel, werewolfModel), None))
  }

  /** `initialize_game_view` for round 0. */
  function WithView(p: Player, roster: seq<string>, wolves: seq<string>): Player {
    p.(view := Some(GameView(roster, 0, OtherWolf(p.name, p.role, wolves))))
  }

  /** The players `create_game` builds, in roster order, each with its initial view. */
  function InitialPlayers(sample: seq<string>, villagerModel: string, werewolfModel: string): (ps: seq<Player>)
    requires |sample| >= 2 + WerewolfCount
    ensures |ps| == |sample|
  {
    var roster := Roster(sample);
    var dealt := Dealt(sample, villagerModel, werewolfModel);
    seq(|dealt|, i requires 0 <= i < |dealt| => WithView(dealt[i], roster, roster[2..2 + WerewolfCount]))
  }

  function CountRole(ps: seq<Player>, role: Role): nat {
    if |ps| == 0 then 0 else CountRole(ps[..|ps| - 1], role) + (if ps[|ps| - 1].role == role then 1 else 0)
  }

  function Names(ps: seq<Player>): (r: seq<string>)
    ensures |r| == |ps| && forall i :: 0 <= i < |ps| ==> r[i] == ps[i].name
  {
    seq(|ps|, i requires 0 <= i < |ps| => ps[i].name)
  }

  /** With one werewolf the roster is the last three sampled names, reversed,
      followed by the rest of the sample. */
  lemma RosterShape(sample: seq<string>)
    requires |sample| >= 2 + WerewolfCount
    ensures var n := |sample|; Roster(sample) == [sample[n - 1], sample[n - 2], sample[n - 3]] + sample[..n - 3]
  {
    var n := |sample|;
    assert seq(WerewolfCount, i requires 0 <= i < WerewolfCount => sample[n - 3 - i]) == [sample[n - 3]];
  }

  /** Where roster position `i` was taken from in the sample. */
  function SourceIndex(n: nat, i: nat): nat
    requires 3 <= n && i < n
  {
    if i < 3 then n - 1 - i else i - 3
  }

  lemma RosterIndex(sample: seq<string>, i: nat)
    requires |sample| >= 2 + WerewolfCount && i < |sample|
    ensures Roster(sample)[i] == sample[SourceIndex(|sample|, i)]
  {
    RosterShape(sample);
  }

  /** The roster holds exactly the sampled names (so all are distinct and come from
      the pool), with the seer, doctor and werewolf popped from the end of the sample
      and the villagers in sample order. */
  lemma RosterIsTheSample(pool: seq<string>, n: int, sample: seq<string>)
    requires IsSample(pool, n, sample) && |sample| >= 2 + WerewolfCount
    ensures multiset(Roster(sample)) == multiset(sample)
    ensures Distinct(Roster(sample))
    ensures forall x :: x in Roster(sample) ==> x in pool
    ensures Roster(sample)[0] == sample[n - 1] && Roster(sample)[1] == sample[n - 2]
    ensures Roster(sample)[2] == sample[n - 3]
    ensures Roster(sample)[3..] == sample[..n - 3]
  {
    var r := Roster(sample);
    RosterShape(sample);
    assert sample == sample[..n - 3] + [sample[n - 3], sample[n - 2], sample[n - 1]];
    forall i, j | 0 <= i < j < |r| ensures r[i] != r[j] {
      RosterIndex(sample, i);
      RosterIndex(sample, j);
      var pi, pj := SourceIndex(n, i), SourceIndex(n, j);
      if pi < pj { assert sample[pi] != sample[pj]; } else { assert sample[pj] != sample[pi]; }
    }
    forall x | x in r ensures x in pool {
      assert x in multiset(r);
    }
  }

  /** How many of the first `m` roster positions hold `role`. */
  function PositionsWithRole(m: nat, role: Role): nat {
    match role
    case Seer => if m >= 1 then 1 else 0
    case Doctor => if m >= 2 then 1 else 0
    case Werewolf => if m <= 2 then 0 else if m <= 2 + WerewolfCount then m - 2 else WerewolfCount
    case Villager => if m <= 2 + WerewolfCount then 0 else m - 2 - WerewolfCount
  }

  lemma {:induction false} CountRolePrefix(ps: seq<Player>, m: nat, role: Role)
    requires m <= |ps| && forall i :: 0 <= i < |ps| ==> ps[i].role == RoleAt(i)
    ensures CountRole(ps[..m], role) == PositionsWithRole(m, role)
  {
    if m > 0 {
      CountRolePrefix(ps, m - 1, role);
      assert ps[..m][..m - 1] == ps[..m - 1];
    }
  }

  /** The initial cast: exactly one seer, one doctor, one werewolf and n - 3
      villagers, with the werewolf on the werewolf model and everybody else on the
      villager model. */
  lemma InitialCast(sample: seq<string>, villagerModel: string, werewolfModel: string)
    requires |sample| >= 2 + WerewolfCount
    ensures var ps := InitialPlayers(sample, villagerModel, werewolfModel);
            CountRole(ps, Seer) == 1 && CountRole(ps, Doctor) == 1 && CountRole(ps, Werewolf) == 1
            && CountRole(ps, Villager) == |sample| - 3
    ensures var ps := InitialPlayers(sample, villagerModel, werewolfModel);
            forall i :: 0 <= i < |ps| ==>
              ps[i].model == (if ps[i].role == Werewolf then werewolfModel else villagerModel)
  {
    var ps := InitialPlayers(sample, villagerModel, werewolfModel);
    assert ps[..|ps|] == ps;
    CountRolePrefix(ps, |ps|, Seer);
    CountRolePrefix(ps, |ps|, Doctor);
    CountRolePrefix(ps, |ps|, Werewolf);
    CountRolePrefix(ps, |ps|, Villager);
  }

  /** Every initial view is at round 0 and lists the whole roster in roster order;
      with a single werewolf nobody is told of another werewolf. */
  lemma InitialViews(sample: seq<string>, villagerModel: string, werewolfModel: string)
    requires |sample| >= 2 + WerewolfCount
    ensures var ps := InitialPlayers(sample, villagerModel, werewolfModel);
            Names(ps) == Roster(sample)
            && forall i :: 0 <= i < |ps| ==> ps[i].view == Some(GameView(Roster(sample), 0, None))
  {
  }

  /** With two or more distinct werewolves, each werewolf would be told of a
      werewolf other than itself (the branch `create_game` keeps for larger packs). */
  lemma OtherWolfOfPack(name: string, wolves: seq<string>)
    requires name in wolves && |wolves| > 1 && Distinct(wolves)
    ensures OtherWolf(name, Werewolf, wolves).Some?
    ensures OtherWolf(name, Werewolf, wolves).value in wolves
    ensures OtherWolf(name, Werewolf, wolves).value != name
  {
    if wolves[0] == name {
      assert wolves[1] != name;
      assert FirstOther(wolves, name) == FirstOther(wolves[1..], name);
      assert wolves[1..][0] == wolves[1];
    }
  }

  /** The stand-in for the round engine: its cooperative stop flag and its logs. */
  class GameMaster {
    var shouldStop: bool
    var logs: seq<string>

    constructor ()
      ensures !shouldStop && logs == []
    {
      shouldStop := false;
      logs := [];
    }

    /** `gamemaster.stop()`: requests a stop; it is honoured by the engine. */
    method Stop()
      modifies this
      ensures shouldStop && logs == old(logs)
    {
      shouldStop := true;
    }
  }

  /** One completed round, kept opaque: its content belongs to the round engine. */
  datatype RoundRecord = RoundRecord(number: nat)

  /** The stand-in for the game state: the players and the fields the registry reads. */
  class State {
    const sessionId: string
    const seer: Player
    const doctor: Player
    const werewolves: seq<Player>
    const villagers: seq<Player>
    var rounds: seq<RoundRecord>
    var winner: string
    var errorMessage: string

    constructor (villagers: seq<Player>, werewolves: seq<Player>, seer: Player, doctor: Player, sessionId: string)
      ensures this.villagers == villagers && this.werewolves == werewolves
      ensures this.seer == seer && this.doctor == doctor && this.sessionId == sessionId
      ensures rounds == [] && winner == "" && errorMessage == ""
    {
      this.villagers := villagers;
      this.werewolves := werewolves;
      this.seer := seer;
      this.doctor := doctor;
      this.sessionId := sessionId;
      rounds := [];
      winner := "";
      errorMessage := "";
    }

    /** The players in roster order. */
    function Players(): seq<Player> {
      [seer, doctor] + werewolves + villagers
    }

    /** Stand-in for the engine appending a completed round. */
    method AppendRound(r: RoundRecord)
      modifies this
      ensures rounds == old(rounds) + [r]
      ensures winner == old(winner) && errorMessage == old(errorMessage)
    {
      rounds := rounds + [r];
    }

    /** Stand-in for the engine declaring the winner. */
    method DeclareWinner(w: string)
      modifies this
      ensures winner == w
      ensures rounds == old(rounds) && errorMessage == old(errorMessage)
    {
      winner := w;
    }
  }

  class GameSession {
    const sessionId: string
    const state: State
    const gamemaster: GameMaster
    const logDir: string
    const startedAt: int
    /** `session.thread is not None`. */
    var hasThread: bool
    /** Thread bodies started by `start_game` whose first statement has not run yet. */
    var pendingRuns: nat
    /** Thread bodies that have set `is_running` and not yet reached `finally`. */
    var activeRuns: nat
    var isRunning: bool

    constructor (sessionId: string, state: State, gamemaster: GameMaster, logDir: string, now: int)
      ensures this.sessionId == sessionId && this.state == state && this.gamemaster == gamemaster
      ensures this.logDir == logDir && startedAt == now
      ensures !hasThread && pendingRuns == 0 && activeRuns == 0 && !isRunning
    {
      this.sessionId := sessionId;
      this.state := state;
      this.gamemaster := gamemaster;
      this.logDir := logDir;
      startedAt := now;
      hasThread := false;
      pendingRuns := 0;
      activeRuns := 0;
      isRunning := false;
    }
  }

  /** The errors `create_game` lets escape: `random.sample` refuses a count that is
      negative or exceeds the pool (ValueError), and `list.pop` on an exhausted
      sample fails for fewer than three players (IndexError). */
  datatype CreateError = SampleLargerThanPopulation | PopFromEmptyList

  /** What the registry hands to the progress sink, in order. */
  datatype Event = Saved(logDir: string, rounds: nat) | Registered(sessionId: string)

  /** The three statuses `get_session_status` reports. */
  function StatusLabel(isRunning: bool, winner: string): (s: string)
    ensures s in {"running", "completed", "stopped"}
    ensures s == "running" <==> isRunning
    ensures s == "completed" <==> !isRunning && winner != ""
    ensures s == "stopped" <==> !isRunning && winner == ""
  {
    if isRunning then "running" else if winner != "" then "completed" else "stopped"
  }

  /** The record `get_session_status` returns (`started_at` as a number). */
  datatype StatusRecord = StatusRecord(sessionId: string, status: string, currentRound: nat, winner: string,
                                       errorMessage: string, startedAt: int, logDirectory: string)

  /** How one thread body ended: `run_game` returned, or raised with `str(e)`. */
  datatype RunOutcome = Finished | Raised(message: string)

  /** The four groups `create_game` deals, in the order it builds them. */
  datatype Cast = Cast(seer: Player, doctor: Player, werewolves: seq<Player>, villagers: seq<Player>) {
    function Members(): seq<Player> {
      [seer, doctor] + werewolves + villagers
    }
  }

  /** The pops of `create_game`: seer, doctor, then each werewolf from the end of
      the sample; whatever is left becomes the villagers. */
  method Deal(sample: seq<string>, villagerModel: string, werewolfModel: string) returns (r: Result<Cast, CreateError>)
    ensures r.Err? <==> |sample| < 2 + WerewolfCount
    ensures r.Err? ==> r.error == PopFromEmptyList
    ensures r.Ok? ==> r.value.Members() == Dealt(sample, villagerModel, werewolfModel)
                      && |r.value.werewolves| == WerewolfCount
  {
    var names := sample;
    if |names| == 0 { return Err(PopFromEmptyList); }
    var seer := Player(names[|names| - 1], Seer, villagerModel, None);
    names := names[..|names| - 1];
    if |names| == 0 { return Err(PopFromEmptyList); }
    var doctor := Player(names[|names| - 1], Doctor, villagerModel, None);
    names := names[..|names| - 1];
    var werewolves: seq<Player> := [];
    for w := 0 to WerewolfCount
      invariant 2 + w <= |sample| && names == sample[..|sample| - 2 - w]
      invariant |werewolves| == w
      invariant forall j :: 0 <= j < w ==> werewolves[j] == Player(sample[|sample| - 3 - j], Werewolf, werewolfModel, None)
    {
      if |names| == 0 { return Err(PopFromEmptyList); }
      werewolves := werewolves + [Player(names[|names| - 1], Werewolf, werewolfModel, None)];
      names := names[..|names| - 1];
    }
    var villagers := seq(|names|, i requires 0 <= i < |names| => Player(names[i], Villager, villagerModel, None));
    var cast := Cast(seer, doctor, werewolves, villagers);
    ghost var dealt := Dealt(sample, villagerModel, werewolfModel);
    assert cast.Members() == dealt by {
      forall j | 0 <= j < |dealt| ensures cast.Members()[j] == dealt[j] {
        if j >= 2 + WerewolfCount {
          assert cast.Members()[j] == villagers[j - 2 - WerewolfCount];
        }
      }
    }
    return Ok(cast);
  }

  /** The view loop of `create_game`: every player, in roster order, gets its
      round-0 view of the full roster and of the werewolf list. */
  method InitViews(members: seq<Player>, roster: seq<string>, wolves: seq<string>) returns (viewed: seq<Player>)
    ensures |viewed| == |members|
    ensures forall j :: 0 <= j < |members| ==> viewed[j] == WithView(members[j], roster, wolves)
  {
    viewed := [];
    for i := 0 to |members|
      invariant |viewed| == i
      invariant forall j :: 0 <= j < i ==> viewed[j] == WithView(members[j], roster, wolves)
    {
      var p := members[i];
      var otherWolf := None;
      if p.role == Werewolf && |wolves| > 1 {
        otherWolf := FirstOther(wolves, p.name);
      }
      viewed := viewed + [p.(view := Some(GameView(roster, 0, otherWolf)))];
    }
  }

  /** The views `InitViews` gives the dealt cast are the initial players. */
  lemma ViewsOfCast(sample: seq<string>, villagerModel: string, werewolfModel: string, cast: Cast, viewed: seq<Player>)
    requires |sample| >= 2 + WerewolfCount
    requires cast.Members() == Dealt(sample, villagerModel, werewolfModel) && |cast.werewolves| == WerewolfCount
    requires |viewed| == |sample|
    requires forall j :: 0 <= j < |viewed| ==>
               viewed[j] == WithView(cast.Members()[j], Names(cast.Members()), Names(cast.werewolves))
    ensures viewed == InitialPlayers(sample, villagerModel, werewolfModel)
  {
    var d := Dealt(sample, villagerModel, werewolfModel);
    var roster := Roster(sample);
    assert Names(d) == roster;
    assert cast.werewolves == d[2..2 + WerewolfCount];
    assert Names(cast.werewolves) == roster[2..2 + WerewolfCount];
  }

  /** Role assignment and view initialisation of `create_game`, in roster order. */
  method BuildPlayers(sample: seq<string>, villagerModel: string, werewolfModel: string)
    returns (r: Result<seq<Player>, CreateError>)
    ensures r.Err? <==> |sample| < 2 + WerewolfCount
    ensures r.Err? ==> r.error == PopFromEmptyList
    ensures r.Ok? ==> |sample| >= 2 + WerewolfCount && r.value == InitialPlayers(sample, villagerModel, werewolfModel)
  {
    var dealt := Deal(sample, villagerModel, werewolfModel);
    if dealt.Err? {
      return Err(dealt.error);
    }
    var cast := dealt.value;
    var members := cast.Members();
    var viewed := InitViews(members, Names(members), Names(cast.werewolves));
    ViewsOfCast(sample, villagerModel, werewolfModel, cast, viewed);
    return Ok(viewed);
  }

  lemma SplitRoster(ps: seq<Player>)
    requires |ps| >= 2 + WerewolfCount
    ensures ps == [ps[0], ps[1]] + ps[2..2 + WerewolfCount] + ps[2 + WerewolfCount..]
  {
  }

  /** A session as `create_game` leaves it: the given players in roster order, no
      rounds, no winner, no error, no stop request, no thread and not running. */
  ghost predicate Initial(session: GameSession, players: seq<Player>, sessionId: string, logDir: string, now: int)
    reads session, session.state, session.gamemaster
  {
    session.sessionId == sessionId && session.state.sessionId == sessionId
    && session.logDir == logDir && session.startedAt == now
    && session.state.Players() == players && |session.state.werewolves| == WerewolfCount
    && session.state.rounds == [] && session.state.winner == "" && session.state.errorMessage == ""
    && !session.gamemaster.shouldStop
    && !session.isRunning && !session.hasThread && session.pendingRuns == 0 && session.activeRuns == 0
  }

  /** The state, the engine and the session `create_game` builds around the players. */
  method NewSession(players: seq<Player>, sessionId: string, logDir: string, now: int) returns (session: GameSession)
    requires |players| >= 2 + WerewolfCount
    ensures fresh(session) && fresh(session.state) && fresh(session.gamemaster)
    ensures Initial(session, players, sessionId, logDir, now)
  {
    SplitRoster(players);
    var state := new State(players[2 + WerewolfCount..], players[2..2 + WerewolfCount], players[0], players[1], sessionId);
    var gamemaster := new GameMaster();
    session := new GameSession(sessionId, state, gamemaster, logDir, now);
  }

  class GameSessionManager {
    var sessions: map<string, GameSession>
    /** The calls made to the progress sink and the registrations, in order. */
    var events: seq<Event>

    ghost predicate Valid()
      reads this
    {
      forall id :: id in sessions ==> sessions[id].sessionId == id && sessions[id].state.sessionId == id
    }

    constructor ()
      ensures Valid() && sessions == map[] && events == []
    {
      sessions := map[];
      events := [];
    }

    /** `create_game`: `sample` is what `random.sample(pool, numPlayers)` returned,
        `logDir` what `log_directory()` returned and `now` the creation time. The
        debate-turn limit is accepted and not used. */
    method CreateGame(villagerModel: string, werewolfModel: string, numPlayers: int, maxDebateTurns: int,
                      pool: seq<string>, sample: seq<string>, logDir: string, now: int)
      returns (r: Result<GameSession, CreateError>)
      requires Valid() && IsSample(pool, numPlayers, sample)
      modifies this
      ensures Valid()
      ensures r.Err? <==> numPlayers < 0 || numPlayers > |pool| || numPlayers < 2 + WerewolfCount
      ensures r.Err? ==> r.error == (if numPlayers < 0 || numPlayers > |pool| then SampleLargerThanPopulation
                                     else PopFromEmptyList)
      ensures r.Err? ==> sessions == old(sessions) && events == old(events)
      ensures r.Ok? ==> var s := r.value;
                fresh(s) && fresh(s.state) && fresh(s.gamemaster)
                && Initial(s, InitialPlayers(sample, villagerModel, werewolfModel), LastSegment(logDir, '/'), logDir, now)
                && sessions == old(sessions)[s.sessionId := s]
                && events == old(events) + [Saved(logDir, 0), Registered(s.sessionId)]
    {
      if numPlayers < 0 || numPlayers > |pool| {
        return Err(SampleLargerThanPopulation);
      }
      var built := BuildPlayers(sample, villagerModel, werewolfModel);
      if built.Err? {
        return Err(built.error);
      }
      var session := NewSession(built.value, LastSegment(logDir, '/'), logDir, now);
      events := events + [Saved(logDir, |session.state.rounds|)];
      Register(session);
      return Ok(session);
    }

    /** Stores a session under its own id, replacing any session already there. */
    method Register(session: GameSession)
      requires Valid() && session.state.sessionId == session.sessionId
      modifies this
      ensures Valid()
      ensures sessions == old(sessions)[session.sessionId := session]
      ensures events == old(events) + [Registered(session.sessionId)]
    {
      sessions := sessions[session.sessionId := session];
      events := events + [Registered(session.sessionId)];
    }

    /** `start_game`: refused for an unknown session or one whose thread body has
        already set `is_running`; otherwise a new thread body is started. The body
        itself, not this call, sets `is_running`, so a second call before the first
        body has begun is accepted too. */
    method StartGame(id: string) returns (ok: bool)
      requires Valid()
      modifies if id in sessions then {sessions[id]} else {}
      ensures ok <==> id in sessions && !old(sessions[id].isRunning)
      ensures id in sessions ==> sessions[id].isRunning == old(sessions[id].isRunning)
                                 && sessions[id].activeRuns == old(sessions[id].activeRuns)
      ensures ok ==> sessions[id].hasThread && sessions[id].pendingRuns == old(sessions[id].pendingRuns) + 1
      ensures !ok && id in sessions ==> sessions[id].hasThread == old(sessions[id].hasThread)
                                        && sessions[id].pendingRuns == old(sessions[id].pendingRuns)
    {
      if id !in sessions {
        return false;
      }
      var session := sessions[id];
      if session.isRunning {
        return false;
      }
      session.hasThread := true;
      session.pendingRuns := session.pendingRuns + 1;
      return true;
    }

    /** First statement of the thread body: `session.is_running = True`. */
    method RunBegins(id: string)
      requires Valid() && id in sessions && sessions[id].pendingRuns > 0
      modifies sessions[id]
      ensures sessions[id].isRunning
      ensures sessions[id].pendingRuns == old(sessions[id].pendingRuns) - 1
      ensures sessions[id].activeRuns == old(sessions[id].activeRuns) + 1
      ensures sessions[id].hasThread == old(sessions[id].hasThread)
    {
      var session := sessions[id];
      session.isRunning := true;
      session.pendingRuns := session.pendingRuns - 1;
      session.activeRuns := session.activeRuns + 1;
    }

    /** End of the thread body: an exception's text goes into `error_message`, and
        `finally` always clears `is_running`. The winner is never touched here. */
    method RunEnds(id: string, outcome: RunOutcome)
      requires Valid() && id in sessions && sessions[id].activeRuns > 0
      modifies sessions[id], sessions[id].state
      ensures !sessions[id].isRunning
      ensures sessions[id].activeRuns == old(sessions[id].activeRuns) - 1
      ensures sessions[id].pendingRuns == old(sessions[id].pendingRuns)
      ensures sessions[id].hasThread == old(sessions[id].hasThread)
      ensures sessions[id].state.errorMessage ==
                (if outcome.Raised? then outcome.message else old(sessions[id].state.errorMessage))
      ensures sessions[id].state.winner == old(sessions[id].state.winner)
      ensures sessions[id].state.rounds == old(sessions[id].state.rounds)
    {
      var session := sessions[id];
      if outcome.Raised? {
        session.state.errorMessage := outcome.message;
      }
      session.isRunning := false;
      session.activeRuns := session.activeRuns - 1;
    }

    /** `stop_game`: refused for an unknown or non-running session; otherwise only
        the engine's stop flag is raised, `is_running` is left as it was. */
    method StopGame(id: string) returns (ok: bool)
      requires Valid()
      modifies if id in sessions then {sessions[id].gamemaster} else {}
      ensures ok <==> id in sessions && sessions[id].isRunning
      ensures ok ==> sessions[id].gamemaster.shouldStop
      ensures !ok && id in sessions ==> sessions[id].gamemaster.shouldStop == old(sessions[id].gamemaster.shouldStop)
      ensures id in sessions ==> sessions[id].gamemaster.logs == old(sessions[id].gamemaster.logs)
    {
      if id !in sessions {
        return false;
      }
      var session := sessions[id];
      if !session.isRunning {
        return false;
      }
      session.gamemaster.Stop();
      return true;
    }

    /** `get_session`. */
    method GetSession(id: string) returns (s: Option<GameSession>)
      ensures s.Some? <==> id in sessions
      ensures s.Some? ==> s.value == sessions[id]
    {
      s := if id in sessions then Some(sessions[id]) else None;
    }

    /** `get_all_sessions`: a map value, so later changes to the returned copy cannot
        reach the registry's own map. */
    method GetAllSessions() returns (m: map<string, GameSession>)
      ensures m.Keys == sessions.Keys
      ensures forall id :: id in m ==> m[id] == sessions[id]
    {
      m := sessions;
    }

    /** `get_session_status`. */
    method GetSessionStatus(id: string) returns (r: Option<StatusRecord>)
      requires Valid()
      ensures r.None? <==> id !in sessions
      ensures r.Some? ==> var s := sessions[id];
                r.value.sessionId == id
                && r.value.status == StatusLabel(s.isRunning, s.state.winner)
                && r.value.currentRound == |s.state.rounds|
                && r.value.winner == s.state.winner && r.value.errorMessage == s.state.errorMessage
                && r.value.startedAt == s.startedAt && r.value.logDirectory == s.logDir
    {
      var session := GetSession(id);
      if session.None? {
        return None;
      }
      var s := session.value;
      r := Some(StatusRecord(s.sessionId, if s.isRunning then "running" else if s.state.winner != "" then "completed" else "stopped",
                             |s.state.rounds|, s.state.winner, s.state.errorMessage, s.startedAt, s.logDir));
    }
  }

  /** Two starts before the first thread body runs are both accepted; once a body
      has set `is_running`, a further start is refused and a stop is accepted
      without clearing `is_running`. */
  method DoubleStart(manager: GameSessionManager, id: string)
    requires manager.Valid() && id in manager.sessions && !manager.sessions[id].isRunning
    modifies manager.sessions[id], manager.sessions[id].gamemaster
  {
    var first := manager.StartGame(id);
    var second := manager.StartGame(id);
    assert first && second;
    manager.RunBegins(id);
    var third := manager.StartGame(id);
    assert !third;
    var stopped := manager.StopGame(id);
    assert stopped && manager.sessions[id].gamemaster.shouldStop && manager.sessions[id].isRunning;
  }

  /** A run that raises before any winner is declared leaves the session
      "stopped", carrying the error text. */
  method FailedRun(manager: GameSessionManager, id: string)
    requires manager.Valid() && id in manager.sessions && manager.sessions[id].activeRuns > 0
    requires manager.sessions[id].state.winner == ""
    modifies manager.sessions[id], manager.sessions[id].state
  {
    manager.RunEnds(id, Raised("engine failure"));
    var status := manager.GetSessionStatus(id);
    assert status.Some? && status.value.status == "stopped" && status.value.errorMessage == "engine failure";
  }
}
