/** The live page object, `WerewolfLiveStream` in static/index_live.js: the
    message list it regenerates from the logs, the player roll it rebuilds from
    the state, its page statistics and its game controls. Each method is proved
    against the functions of `LiveView`, whose properties are proved there. */
module LiveStream {
  import opened Common
  import opened LiveView

  datatype Phase = Nighttime | Daytime

  /** The page's `stats` object. */
  datatype Stats = Stats(aliveCount: nat, eliminatedCount: nat, currentRound: nat, currentPhase: Phase)

  /** How the stop request ended: accepted, answered with `success: false` (and
      maybe an error text), or failed with an exception's message. */
  datatype StopReply = Stopped | Refused(error: Option<string>) | Failed(message: string)

  /** The message shown when a stop request does not succeed. */
  function StopFailureText(reply: StopReply): string
    requires !reply.Stopped?
  {
    match reply
    case Refused(e) => OrElse(e, "停止游戏失败")
    case Failed(m) => m
  }

  class WerewolfLiveStream {
    const sessionId: string
    var messages: seq<Message>
    var players: map<string, PlayerEntry>
    var stats: Stats
    var isLive: bool
    var gameStatus: string
    var data: Option<LiveData>
    /** The stop button's `disabled` flag and the status text of the controls. */
    var stopDisabled: bool
    var statusText: string

    /** The state of a freshly constructed page. */
    predicate Initial()
      reads this
    {
      messages == [] && players == map[] && stats == Stats(0, 0, 0, Nighttime)
      && isLive && gameStatus == "unknown" && data == None
      && !stopDisabled && statusText == ""
    }

    constructor (sessionId: string)
      requires sessionId != ""
      ensures this.sessionId == sessionId && Initial()
    {
      this.sessionId := sessionId;
      messages := [];
      players := map[];
      stats := Stats(0, 0, 0, Nighttime);
      isLive := true;
      gameStatus := "unknown";
      data := None;
      stopDisabled := false;
      statusText := "";
    }

    /** `new WerewolfLiveStream()` for the page's `session_id` parameter: refused
        with "No session specified" when the parameter is missing or empty. */
    static method Open(sessionId: string) returns (r: Result<WerewolfLiveStream, string>)
      ensures r.Err? <==> sessionId == ""
      ensures r.Err? ==> r.error == "No session specified"
      ensures r.Ok? ==> fresh(r.value) && r.value.sessionId == sessionId && r.value.Initial()
    {
      if |sessionId| == 0 {
        return Err("No session specified");
      }
      var page := new WerewolfLiveStream(sessionId);
      return Ok(page);
    }

    // ------------------------------------------------------------ players

    /** The set of names the state's rounds report as eliminated or exiled. */
    static method CollectEliminated(state: GameStateData) returns (out: set<string>)
      ensures out == EliminatedOf(state)
    {
      out := {};
      if state.rounds.None? {
        return;
      }
      var rounds := state.rounds.value;
      var i := 0;
      while i < |rounds|
        invariant 0 <= i <= |rounds|
        invariant out == Eliminated(rounds[..i])
      {
        assert rounds[..i + 1][..i] == rounds[..i];
        if Truthy(rounds[i].eliminated) {
          out := out + {rounds[i].eliminated.value};
        }
        if Truthy(rounds[i].exiled) {
          out := out + {rounds[i].exiled.value};
        }
        i := i + 1;
      }
      assert rounds[..i] == rounds;
    }

    /** `initializePlayers`: the roll is rebuilt from the state's players, each
        marked eliminated exactly when some round names it. */
    method InitializePlayers(state: GameStateData)
      modifies this`players, this`stats
      ensures var out := EliminatedOf(state);
              players == PlayerMap(state.players, out)
              && stats == old(stats).(aliveCount := AliveCount(state.players, out),
                                      eliminatedCount := OutCount(state.players, out))
    {
      var out := CollectEliminated(state);
      var entries := state.players;
      players := map[];
      var alive, gone := 0, 0;
      var i := 0;
      while i < |entries|
        invariant 0 <= i <= |entries|
        invariant players == PlayerMap(entries[..i], out) && stats == old(stats)
        invariant alive == AliveCount(entries[..i], out) && gone == OutCount(entries[..i], out)
      {
        assert entries[..i + 1][..i] == entries[..i];
        var (name, p) := entries[i];
        players := players[name := EntryFor(name, p, out)];
        if name in out {
          gone := gone + 1;
        } else {
          alive := alive + 1;
        }
        i := i + 1;
      }
      assert entries[..i] == entries;
      stats := stats.(aliveCount := alive, eliminatedCount := gone);
    }

    // ------------------------------------------------------------ the message stream

    /** One night action, when the round logged it. */
    method EmitNightStep(act: NightAct, a: Option<Action>, t: int) returns (t': int)
      modifies this`messages
      ensures messages == old(messages) + NightStep(act, a, t, data).msgs
      ensures t' == NightStep(act, a, t, data).end
    {
      t' := t;
      if a.Some? {
        t' := t' + 1;
        messages := messages + [NightMessage(act, a.value, t', data)];
      }
    }

    /** The bid, debate or summary lines of a list of entries. */
    method EmitLines(k: LineKind, entries: seq<Entry>, t: int) returns (t': int)
      modifies this`messages
      ensures messages == old(messages) + Lines(k, entries, t).msgs
      ensures t' == Lines(k, entries, t).end
    {
      t' := t;
      var i := 0;
      while i < |entries|
        invariant 0 <= i <= |entries|
        invariant messages == old(messages) + Lines(k, entries[..i], t).msgs
        invariant t' == t + Ticks(k, i)
      {
        LinesSnoc(k, entries, i, t);
        t' := t' + Ticks(k, 1);
        messages := messages + [LineMessage(k, entries[i], t')];
        assert t' == t + Ticks(k, i + 1);
        i := i + 1;
      }
      assert entries[..i] == entries;
    }

    method EmitOptLines(k: LineKind, entries: Option<seq<Entry>>, t: int) returns (t': int)
      modifies this`messages
      ensures messages == old(messages) + OptLines(k, entries, t).msgs
      ensures t' == OptLines(k, entries, t).end
    {
      t' := t;
      if entries.Some? {
        t' := EmitLines(k, entries.value, t);
      }
    }

    /** The bid turns: the bids of every turn that is a list, a minute after each turn. */
    method EmitBids(bid: Option<seq<Option<seq<Entry>>>>, t: int) returns (t': int)
      modifies this`messages
      ensures messages == old(messages) + BidRun(bid, t).msgs
      ensures t' == BidRun(bid, t).end
    {
      t' := t;
      if bid.None? {
        return;
      }
      var turns := bid.value;
      var j := 0;
      while j < |turns|
        invariant 0 <= j <= |turns|
        invariant messages == old(messages) + BidTurns(turns[..j], t).msgs
        invariant t' == BidTurns(turns[..j], t).end
      {
        assert turns[..j + 1][..j] == turns[..j];
        t' := EmitOptLines(Bidding, turns[j], t');
        t' := t' + 1;
        j := j + 1;
      }
      assert turns[..j] == turns;
    }

    method EmitVoteLines(ballot: seq<Vote>, t: int) returns (t': int)
      modifies this`messages
      ensures messages == old(messages) + VoteLines(ballot, t).msgs
      ensures t' == VoteLines(ballot, t).end
    {
      t' := t;
      var i := 0;
      while i < |ballot|
        invariant 0 <= i <= |ballot|
        invariant messages == old(messages) + VoteLines(ballot[..i], t).msgs
        invariant t' == t + i
      {
        VoteLinesSnoc(ballot, i, t);
        t' := t' + 1;
        messages := messages + [VoteMessage(ballot[i], t')];
        i := i + 1;
      }
      assert ballot[..i] == ballot;
    }

    /** The tally of a ballot, counted vote by vote. */
    static method CountVotes(votes: seq<Vote>) returns (tally: seq<(string, nat)>)
      ensures tally == TallyOf(votes)
      ensures forall x :: CountFor(tally, x) == VotesFor(votes, x)
      ensures Total(tally) == |votes| && DistinctKeys(tally)
    {
      tally := [];
      var i := 0;
      while i < |votes|
        invariant 0 <= i <= |votes|
        invariant tally == TallyOf(votes[..i])
      {
        assert votes[..i + 1][..i] == votes[..i];
        tally := AddVote(tally, Target(votes[i]));
        i := i + 1;
      }
      assert votes[..i] == votes;
      forall x {
        TallyCounts(votes, x);
      }
    }

    /** `displayVotingResults`: nothing for an empty ballot, else one result line. */
    method DisplayVotingResults(votes: seq<Vote>, t: int)
      modifies this`messages
      ensures messages == old(messages) + (if |votes| == 0 then [] else [ResultMessage(votes, t)])
    {
      if |votes| == 0 {
        return;
      }
      var tally := CountVotes(votes);
      messages := messages + [SystemMessage(VoteResult, At(t), "📊 投票结果：" + TallyText(tally))];
    }

    /** The vote block of a round. */
    method EmitVotes(votes: Option<seq<seq<Vote>>>, exiled: Option<string>, t: int) returns (t': int)
      modifies this`messages
      ensures messages == old(messages) + VoteRun(votes, exiled, t).msgs
      ensures t' == VoteRun(votes, exiled, t).end
    {
      t' := t;
      if votes.None? || |votes.value| == 0 {
        return;
      }
      var ballot := votes.value[|votes.value| - 1];
      ghost var lines := VoteLines(ballot, t + 2);
      ghost var result: seq<Message> := if |ballot| == 0 then [] else [ResultMessage(ballot, lines.end + 2)];
      ghost var exile: seq<Message> := if Truthy(exiled) then [ExileMessage(exiled.value, lines.end + 2)] else [];
      ghost var start := SystemMessage(VoteStart, At(t + 2), "开始投票");
      assert VoteRun(votes, exiled, t) == Timeline([start] + lines.msgs + (result + exile), lines.end + 2);
      t' := t' + 2;
      messages := messages + [SystemMessage(VoteStart, At(t'), "开始投票")];
      t' := EmitVoteLines(ballot, t');
      t' := t' + 2;
      ghost var lined := messages;
      assert lined == old(messages) + ([start] + lines.msgs);
      DisplayVotingResults(ballot, t');
      assert messages == lined + result;
      if Truthy(exiled) {
        messages := messages + [ExileMessage(exiled.value, t')];
      }
      assert messages == lined + (result + exile);
    }

    /** The night actions and the dawn announcement of one round. */
    method EmitMorning(log: RoundLog, rs: Option<RoundState>, t: int) returns (t': int)
      modifies this`messages
      ensures messages == old(messages) + Morning(log, rs, t, data).msgs
      ensures t' == Morning(log, rs, t, data).end
    {
      t' := EmitNightStep(Eliminate, log.eliminate, t);
      t' := EmitNightStep(Protect, log.protect, t');
      t' := EmitNightStep(Investigate, log.investigate, t');
      t' := t' + 2;
      messages := messages + [DawnMessage(EliminatedIn(rs), t')];
    }

    /** The bids, debate, votes and summaries of one round. */
    method EmitDay(log: RoundLog, rs: Option<RoundState>, t: int) returns (t': int)
      modifies this`messages
      ensures messages == old(messages) + Day(log, rs, t).msgs
      ensures t' == Day(log, rs, t).end
    {
      ghost var m0 := messages;
      ghost var bids := BidRun(log.bid, t);
      t' := EmitBids(log.bid, t);
      ghost var debate := OptLines(Debating, log.debate, t');
      t' := EmitOptLines(Debating, log.debate, t');
      AppendThen(m0, bids, debate);
      ghost var m1 := messages;
      ghost var votes := VoteRun(log.votes, ExiledIn(rs), t');
      t' := EmitVotes(log.votes, ExiledIn(rs), t');
      ghost var summaries := OptLines(Summing, log.summaries, t');
      t' := EmitOptLines(Summing, log.summaries, t');
      AppendThen(m1, votes, summaries);
      AppendThen(m0, Discussion(log, t), Verdict(log, rs, Discussion(log, t).end));
    }

    /** `generateLiveMessages`: the stream is regenerated from scratch, round by
        round; the statistics end on the last round's day. */
    method GenerateLiveMessages(logs: seq<RoundLog>, state: GameStateData)
      modifies this`messages, this`stats
      ensures messages == LiveRun(logs, state, data).msgs
      ensures stats == if |logs| == 0 then old(stats)
                       else old(stats).(currentRound := |logs| - 1, currentPhase := Daytime)
    {
      messages := [];
      var t := 0;
      var r := 0;
      while r < |logs|
        invariant 0 <= r <= |logs|
        invariant messages == LiveRun(logs[..r], state, data).msgs
        invariant t == LiveRun(logs[..r], state, data).end
        invariant stats == if r == 0 then old(stats)
                           else old(stats).(currentRound := r - 1, currentPhase := Daytime)
      {
        assert logs[..r + 1][..r] == logs[..r];
        ghost var prev := LiveRun(logs[..r], state, data);
        var rs := RoundStateAt(state, r);
        stats := stats.(currentRound := r, currentPhase := Nighttime);
        ghost var morning := Morning(logs[r], rs, t, data);
        t := EmitMorning(logs[r], rs, t);
        stats := stats.(currentPhase := Daytime);
        ghost var day := Day(logs[r], rs, t);
        t := EmitDay(logs[r], rs, t);
        AppendThen(prev.msgs, morning, day);
        assert LiveRun(logs[..r + 1], state, data) == Then(prev, Then(morning, day));
        r := r + 1;
      }
      assert logs[..r] == logs;
    }

    /** `processGameData`: the roll and the stream are rebuilt, then the game-over
        announcement is added under the rule `GameOverRule` states. */
    method ProcessGameData(logs: seq<RoundLog>, state: GameStateData)
      modifies this`messages, this`players, this`stats
      ensures players == PlayerMap(state.players, EliminatedOf(state))
      ensures messages == Processed(logs, state, data)
      ensures stats == (if |logs| == 0 then old(stats)
                        else old(stats).(currentRound := |logs| - 1, currentPhase := Daytime))
                       .(aliveCount := AliveCount(state.players, EliminatedOf(state)),
                         eliminatedCount := OutCount(state.players, EliminatedOf(state)))
    {
      InitializePlayers(state);
      GenerateLiveMessages(logs, state);
      if Truthy(state.winner) && !AnyContains(messages, GameOverText) {
        messages := messages + [GameOverMessage(state.winner.value)];
      }
    }

    /** `retrieveData` with the fetched logs and state, or `None` when fetching or
        parsing failed: the data is kept and processed, or a load failure is shown. */
    method RetrieveData(fetched: Option<(seq<RoundLog>, GameStateData)>)
      modifies this`messages, this`players, this`stats, this`data
      ensures fetched.None? ==> messages == old(messages) + [SystemMessage(LoadFailure, Now, "无法加载游戏数据")]
                                && data == old(data) && players == old(players) && stats == old(stats)
      ensures fetched.Some? ==> data == Some(LiveData(fetched.value.0, fetched.value.1))
                                && messages == Processed(fetched.value.0, fetched.value.1, data)
                                && players == PlayerMap(fetched.value.1.players, EliminatedOf(fetched.value.1))
    {
      if fetched.None? {
        messages := messages + [SystemMessage(LoadFailure, Now, "无法加载游戏数据")];
        return;
      }
      var (logs, state) := fetched.value;
      data := Some(LiveData(logs, state));
      ProcessGameData(logs, state);
    }

    // ------------------------------------------------------------ controls

    /** `updateGameControls`: nothing happens when the controls are missing from
        the page; otherwise the status is recorded and the table of `Controls`
        and `StatusText` applies. */
    method UpdateGameControls(status: string, controlsPresent: bool)
      modifies this`gameStatus, this`stopDisabled, this`isLive, this`statusText
      ensures !controlsPresent ==> gameStatus == old(gameStatus) && stopDisabled == old(stopDisabled)
                                   && isLive == old(isLive) && statusText == old(statusText)
      ensures controlsPresent ==> gameStatus == status && statusText == StatusText(status)
                                  && (stopDisabled, isLive) == Controls(status, old(stopDisabled), old(isLive))
    {
      if !controlsPresent {
        return;
      }
      gameStatus := status;
      statusText := StatusText(status);
      if status == "initializing" {
        stopDisabled := false;
      } else if status == "running" {
        stopDisabled := false;
        isLive := true;
      } else if status == "stopping" {
        stopDisabled := true;
      } else if status == "stopped" || status == "completed" || status == "error" {
        stopDisabled := true;
        isLive := false;
      }
    }

    /** `stopGame` once the request has been answered: a stop ends the live view
        and says so; anything else re-enables the button and shows the error. */
    method StopGame(reply: StopReply)
      modifies this`gameStatus, this`stopDisabled, this`isLive, this`statusText, this`messages
      ensures reply.Stopped? ==> gameStatus == "stopped" && statusText == "已停止" && stopDisabled && !isLive
                                 && messages == old(messages) + [SystemMessage(StopNotice, Now, "🛑 游戏已被用户停止")]
      ensures !reply.Stopped? ==> gameStatus == old(gameStatus) && statusText == "停止失败" && !stopDisabled
                                  && isLive == old(isLive)
                                  && messages == old(messages)
                                                 + [SystemMessage(StopFailure, Now, "❌ 停止游戏失败: " + StopFailureText(reply))]
    {
      stopDisabled := true;
      statusText := "停止中";
      if reply.Stopped? {
        gameStatus := "stopped";
        statusText := "已停止";
        messages := messages + [SystemMessage(StopNotice, Now, "🛑 游戏已被用户停止")];
        isLive := false;
      } else {
        statusText := "停止失败";
        stopDisabled := false;
        messages := messages + [SystemMessage(StopFailure, Now, "❌ 停止游戏失败: " + StopFailureText(reply))];
      }
    }
  }

  /** Emitting one timeline after another emits their concatenation. */
  lemma AppendThen(m: seq<Message>, a: Timeline, b: Timeline)
    ensures m + a.msgs + b.msgs == m + Then(a, b).msgs
  {
  }

  /** One more line extends a run of lines by one message, a gap later. */
  lemma LinesSnoc(k: LineKind, entries: seq<Entry>, i: int, t: int)
    requires 0 <= i < |entries|
    ensures Lines(k, entries[..i + 1], t).msgs
            == Lines(k, entries[..i], t).msgs + [LineMessage(k, entries[i], t + Ticks(k, i) + Ticks(k, 1))]
  {
    var longer := Lines(k, entries[..i + 1], t).msgs;
    var shorter := Lines(k, entries[..i], t).msgs;
    var last := LineMessage(k, entries[i], t + Ticks(k, i) + Ticks(k, 1));
    forall j | 0 <= j < i + 1 ensures longer[j] == (shorter + [last])[j] {
      if j < i {
        assert entries[..i + 1][j] == entries[..i][j];
      } else {
        assert t + Ticks(k, i) + Ticks(k, 1) == t + Ticks(k, i + 1);
      }
    }
  }

  lemma VoteLinesSnoc(ballot: seq<Vote>, i: int, t: int)
    requires 0 <= i < |ballot|
    ensures VoteLines(ballot[..i + 1], t).msgs == VoteLines(ballot[..i], t).msgs + [VoteMessage(ballot[i], t + i + 1)]
  {
    var longer := VoteLines(ballot[..i + 1], t).msgs;
    var shorter := VoteLines(ballot[..i], t).msgs;
    forall j | 0 <= j < i + 1 ensures longer[j] == (shorter + [VoteMessage(ballot[i], t + i + 1)])[j] {
      if j < i {
        assert ballot[..i + 1][j] == ballot[..i][j];
      }
    }
  }
}
