/** The data-to-view computations of static/index_live.js: the round logs and game
    state the live page reads, the message stream it derives from them (with the
    simulated clock as whole minutes after 14:30), the vote tally, the player
    roll-call and the status-to-controls table. The page object itself, which
    applies these step by step, is in module LiveStream. */
module LiveView {
  import opened Common
  import opened Strings
  import SessionManager

  /** A logged agent action, of which only the `result` object is read, as field
      name to rendered value. */
  datatype Action = Action(result: Option<map<string, string>>)

  /** `action.result?.[key]`. */
  function Field(a: Action, key: string): Option<string> {
    if a.result.Some? && key in a.result.value then Some(a.result.value[key]) else None
  }

  /** A `[name, data]` pair of a bid turn, the debate or the summaries. */
  datatype Entry = Entry(name: string, action: Action)

  datatype Vote = Vote(player: string, log: Action)

  /** One round of `game_logs.json`; a field that is absent (or, where the page
      checks `Array.isArray`, not an array) is None. */
  datatype RoundLog = RoundLog(
    eliminate: Option<Action>, protect: Option<Action>, investigate: Option<Action>,
    bid: Option<seq<Option<seq<Entry>>>>, debate: Option<seq<Entry>>,
    votes: Option<seq<seq<Vote>>>, summaries: Option<seq<Entry>>)

  /** One entry of `state.rounds`. */
  datatype RoundState = RoundState(eliminated: Option<string>, exiled: Option<string>)

  datatype PlayerData = PlayerData(name: string, role: string, model: Option<string>)

  /** The game state file; `players` lists the entries of the `players` object in order. */
  datatype GameStateData = GameStateData(
    players: seq<(string, PlayerData)>, rounds: Option<seq<RoundState>>,
    doctor: Option<PlayerData>, seer: Option<PlayerData>, werewolves: Option<seq<PlayerData>>,
    winner: Option<string>)

  /** `this.data`: the logs and state last retrieved. */
  datatype LiveData = LiveData(logs: seq<RoundLog>, state: GameStateData)

  datatype NightAct = Eliminate | Protect | Investigate

  /** Which statement of the page produced a message. */
  datatype Stage = Night(act: NightAct) | Dawn | BidLine | DebateLine | VoteStart | VoteLine | VoteResult
                 | ExileNotice | SummaryLine | GameOver | LoadFailure | StopNotice | StopFailure

  /** A simulated time (minutes after 14:30) or the wall clock at emission. */
  datatype Clock = At(minutes: int) | Now

  datatype Message = Message(stage: Stage, time: Clock, player: string, content: string)

  /** The message's `type` field. */
  function TypeOf(s: Stage): string {
    match s
    case Night(_) => "night"
    case BidLine => "bid"
    case DebateLine => "debate"
    case VoteLine => "vote"
    case SummaryLine => "summary"
    case _ => "system"
  }

  /** `getTypeDisplayName`: the label shown for a message type. */
  function TypeDisplayName(kind: string): string {
    if kind == "night" then "夜间"
    else if kind == "bid" then "竞拍"
    else if kind == "debate" then "发言"
    else if kind == "vote" then "投票"
    else if kind == "summary" then "总结"
    else if kind == "system" then "系统"
    else kind
  }

  /** Every message the page emits has a type with its own label, distinct from
      the raw type name; the labels of different types differ. */
  lemma TypeLabelsDistinct(a: Stage, b: Stage)
    ensures TypeDisplayName(TypeOf(a)) != TypeOf(a)
    ensures TypeOf(a) != TypeOf(b) ==> TypeDisplayName(TypeOf(a)) != TypeDisplayName(TypeOf(b))
  {
  }

  /** `getRoleDisplayName`: the four roles get their Chinese names, anything else
      is shown as it is. */
  function RoleDisplayName(role: string): (r: string)
    ensures role !in {"Werewolf", "Seer", "Doctor", "Villager"} ==> r == role
    ensures role in {"Werewolf", "Seer", "Doctor", "Villager"} ==> r in {"狼人", "预言家", "医生", "村民"}
  {
    if role == "Werewolf" then "狼人"
    else if role == "Seer" then "预言家"
    else if role == "Doctor" then "医生"
    else if role == "Villager" then "村民"
    else role
  }

  /** The four role names are told apart on the page. */
  lemma RoleLabelsDistinct(a: string, b: string)
    requires a in {"Werewolf", "Seer", "Doctor", "Villager"} && b in {"Werewolf", "Seer", "Doctor", "Villager"}
    ensures RoleDisplayName(a) == RoleDisplayName(b) <==> a == b
  {
  }

  /** Position of each stage in the fixed order of one round. */
  function Rank(s: Stage): nat {
    match s
    case Night(Eliminate) => 0
    case Night(Protect) => 1
    case Night(Investigate) => 2
    case Dawn => 3
    case BidLine => 4
    case DebateLine => 5
    case VoteStart => 6
    case VoteLine => 7
    case VoteResult => 8
    case ExileNotice => 9
    case SummaryLine => 10
    case _ => 11
  }

  const SystemPlayer: string := "系统"
  const GameOverText: string := "游戏结束"

  /** `addSystemMessage(content, timestamp)`. */
  function SystemMessage(stage: Stage, time: Clock, content: string): Message {
    Message(stage, time, SystemPlayer, "📢 " + content)
  }

  // ---------------------------------------------------------------- role lookup

  /** `getRoleByPlayer`: Doctor, then Seer, then Werewolf, else nothing. */
  function RoleByPlayer(data: Option<LiveData>, name: string): (r: Option<string>)
    ensures r.Some? ==> r.value in {"Doctor", "Seer", "Werewolf"}
  {
    if data.None? then None
    else
      var st := data.value.state;
      if st.doctor.Some? && st.doctor.value.name == name then Some("Doctor")
      else if st.seer.Some? && st.seer.value.name == name then Some("Seer")
      else if st.werewolves.Some? && exists w :: w in st.werewolves.value && w.name == name then Some("Werewolf")
      else None
  }

  /** The lookup answers the role of the special player so named: the doctor is
      always found as Doctor, the seer as Seer unless the doctor has the same name,
      a werewolf as Werewolf unless the doctor or seer has its name; anyone else,
      and everyone when no state is loaded, gets nothing. */
  lemma RoleByPlayerPrecedence(data: Option<LiveData>, name: string)
    ensures data.None? ==> RoleByPlayer(data, name).None?
    ensures data.Some? && data.value.state.doctor.Some? && data.value.state.doctor.value.name == name
            ==> RoleByPlayer(data, name) == Some("Doctor")
    ensures data.Some? && data.value.state.seer.Some? && data.value.state.seer.value.name == name
            && !(data.value.state.doctor.Some? && data.value.state.doctor.value.name == name)
            ==> RoleByPlayer(data, name) == Some("Seer")
    ensures data.Some? && data.value.state.werewolves.Some?
            && (exists w :: w in data.value.state.werewolves.value && w.name == name)
            && !(data.value.state.doctor.Some? && data.value.state.doctor.value.name == name)
            && !(data.value.state.seer.Some? && data.value.state.seer.value.name == name)
            ==> RoleByPlayer(data, name) == Some("Werewolf")
    ensures data.Some? && !(data.value.state.doctor.Some? && data.value.state.doctor.value.name == name)
            && !(data.value.state.seer.Some? && data.value.state.seer.value.name == name)
            && !(data.value.state.werewolves.Some? && exists w :: w in data.value.state.werewolves.value && w.name == name)
            ==> RoleByPlayer(data, name).None?
  {
  }

  // ---------------------------------------------------------------- messages

  function NightLabel(act: NightAct): string {
    match act
    case Eliminate => "Werewolf"
    case Protect => "Doctor"
    case Investigate => "Seer"
  }

  /** `addNightMessage`: the role is looked up under the literal role name, and the
      name itself is shown when the lookup finds nothing. */
  function NightMessage(act: NightAct, a: Action, t: int, data: Option<LiveData>): Message {
    var (what, key) := match act
      case Eliminate => ("击杀目标：", "remove")
      case Protect => ("保护目标：", "protect")
      case Investigate => ("查验目标：", "investigate");
    Message(Night(act), At(t), OrElse(RoleByPlayer(data, NightLabel(act)), NightLabel(act)),
            "🌙 夜间行动：" + what + OrElse(Field(a, key), "未知"))
  }

  /** The night message names its role when no special player bears that role's
      name. */
  lemma NightMessageShowsRole(act: NightAct, a: Action, t: int, data: Option<LiveData>)
    requires RoleByPlayer(data, NightLabel(act)).None?
    ensures NightMessage(act, a, t, data).player == NightLabel(act)
    ensures TypeOf(NightMessage(act, a, t, data).stage) == "night"
  {
  }

  function DawnMessage(eliminated: Option<string>, t: int): Message {
    SystemMessage(Dawn, At(t), "天亮了！昨晚" + (if Truthy(eliminated) then eliminated.value + "被淘汰了" else "是平安夜"))
  }

  datatype LineKind = Bidding | Debating | Summing

  function LineStage(k: LineKind): Stage {
    match k
    case Bidding => BidLine
    case Debating => DebateLine
    case Summing => SummaryLine
  }

  /** `addBidMessage`, `addDebateMessage` and `addSummaryMessage`. */
  function LineMessage(k: LineKind, e: Entry, t: int): Message {
    var content := match k
      case Bidding => "💰 竞拍发言权：出价 " + OrElse(Field(e.action, "bid"), "0")
      case Debating => "🗣️ 发言：" + OrElse(Field(e.action, "say"), "")
      case Summing => "📝 总结：" + OrElse(Field(e.action, "summary"), "");
    Message(LineStage(k), At(t), e.name, content)
  }

  function VoteMessage(v: Vote, t: int): Message {
    Message(VoteLine, At(t), v.player, "🗳️ 投票给：" + OrElse(Field(v.log, "vote"), "未知"))
  }

  function ExileMessage(exiled: string, t: int): Message {
    SystemMessage(ExileNotice, At(t), exiled + "被驱逐出局")
  }

  function GameOverMessage(winner: string): Message {
    SystemMessage(GameOver, Now, "🎉 游戏结束！获胜者：" + winner)
  }

  // ---------------------------------------------------------------- vote tally

  /** The key a vote is counted under. */
  function Target(v: Vote): string {
    OrElse(Field(v.log, "vote"), "unknown")
  }

  /** `voteCount[target] = (voteCount[target] || 0) + 1` on an insertion-ordered
      table of (target, count). */
  function AddVote(tally: seq<(string, nat)>, target: string): seq<(string, nat)> {
    if |tally| == 0 then [(target, 1)]
    else if tally[0].0 == target then [(target, tally[0].1 + 1)] + tally[1..]
    else [tally[0]] + AddVote(tally[1..], target)
  }

  /** The tally of a ballot, in order of first appearance. */
  function TallyOf(votes: seq<Vote>): seq<(string, nat)> {
    if |votes| == 0 then [] else AddVote(TallyOf(votes[..|votes| - 1]), Target(votes[|votes| - 1]))
  }

  function Total(tally: seq<(string, nat)>): nat {
    if |tally| == 0 then 0 else tally[0].1 + Total(tally[1..])
  }

  /** The count the table holds for `x`. */
  function CountFor(tally: seq<(string, nat)>, x: string): nat {
    if |tally| == 0 then 0 else (if tally[0].0 == x then tally[0].1 else 0) + CountFor(tally[1..], x)
  }

  /** The number of votes counted under `x`. */
  function VotesFor(votes: seq<Vote>, x: string): nat {
    if |votes| == 0 then 0 else VotesFor(votes[..|votes| - 1], x) + (if Target(votes[|votes| - 1]) == x then 1 else 0)
  }

  predicate DistinctKeys(tally: seq<(string, nat)>) {
    forall i, j :: 0 <= i < j < |tally| ==> tally[i].0 != tally[j].0
  }

  lemma {:induction false} AddVoteTotal(tally: seq<(string, nat)>, target: string, x: string)
    ensures Total(AddVote(tally, target)) == Total(tally) + 1
    ensures CountFor(AddVote(tally, target), x) == CountFor(tally, x) + (if x == target then 1 else 0)
  {
    if |tally| > 0 && tally[0].0 != target {
      AddVoteTotal(tally[1..], target, x);
      assert AddVote(tally, target)[1..] == AddVote(tally[1..], target);
    } else if |tally| > 0 {
      assert AddVote(tally, target)[1..] == tally[1..];
    }
  }

  /** Adding a vote leaves the old keys and adds at most `target`. */
  lemma AddVoteKeys(tally: seq<(string, nat)>, target: string)
    ensures forall k :: k in KeysOf(AddVote(tally, target)) ==> k == target || k in KeysOf(tally)
    ensures DistinctKeys(tally) ==> DistinctKeys(AddVote(tally, target))
  {
    AddVoteKeySet(tally, target);
    if DistinctKeys(tally) {
      AddVoteDistinct(tally, target);
    }
  }

  lemma {:induction false} AddVoteKeySet(tally: seq<(string, nat)>, target: string)
    ensures forall k :: k in KeysOf(AddVote(tally, target)) ==> k == target || k in KeysOf(tally)
  {
    if |tally| > 0 && tally[0].0 != target {
      var rest := AddVote(tally[1..], target);
      AddVoteKeySet(tally[1..], target);
      assert AddVote(tally, target) == [tally[0]] + rest;
      assert KeysOf(AddVote(tally, target)) == [tally[0].0] + KeysOf(rest);
      assert KeysOf(tally) == [tally[0].0] + KeysOf(tally[1..]);
    } else if |tally| > 0 {
      assert KeysOf(AddVote(tally, target)) == [target] + KeysOf(tally[1..]);
      assert KeysOf(tally) == [tally[0].0] + KeysOf(tally[1..]);
    }
  }

  lemma {:induction false} AddVoteDistinct(tally: seq<(string, nat)>, target: string)
    requires DistinctKeys(tally)
    ensures DistinctKeys(AddVote(tally, target))
  {
    if |tally| > 0 && tally[0].0 != target {
      var rest := AddVote(tally[1..], target);
      var out := AddVote(tally, target);
      assert DistinctKeys(tally[1..]) by {
        forall i, j | 0 <= i < j < |tally[1..]| ensures tally[1..][i].0 != tally[1..][j].0 {
          assert tally[1..][i] == tally[i + 1] && tally[1..][j] == tally[j + 1];
        }
      }
      AddVoteDistinct(tally[1..], target);
      AddVoteKeySet(tally[1..], target);
      assert out == [tally[0]] + rest;
      assert tally[0].0 !in KeysOf(tally[1..]);
      assert tally[0].0 !in KeysOf(rest);
      forall i, j | 0 <= i < j < |out| ensures out[i].0 != out[j].0 {
        if i == 0 {
          assert KeysOf(rest)[j - 1] == out[j].0;
        } else {
          assert out[i] == rest[i - 1] && out[j] == rest[j - 1];
        }
      }
    } else if |tally| > 0 {
      var out := AddVote(tally, target);
      forall i, j | 0 <= i < j < |out| ensures out[i].0 != out[j].0 {
        assert out[i].0 == tally[i].0 && out[j].0 == tally[j].0;
      }
    }
  }

  /** The keys of a list of (key, value) entries, in order. */
  function KeysOf<V>(entries: seq<(string, V)>): (ks: seq<string>)
    ensures |ks| == |entries| && forall i :: 0 <= i < |entries| ==> ks[i] == entries[i].0
  {
    seq(|entries|, i requires 0 <= i < |entries| => entries[i].0)
  }

  /** The tally counts every vote exactly once: each target's count is the number
      of votes for it (votes without a target under "unknown"), the counts add up
      to the number of votes, and no target appears twice. */
  lemma {:induction false} TallyCounts(votes: seq<Vote>, x: string)
    ensures CountFor(TallyOf(votes), x) == VotesFor(votes, x)
    ensures Total(TallyOf(votes)) == |votes|
    ensures DistinctKeys(TallyOf(votes))
    ensures |votes| > 0 ==> |TallyOf(votes)| > 0
  {
    if |votes| > 0 {
      TallyCounts(votes[..|votes| - 1], x);
      AddVoteTotal(TallyOf(votes[..|votes| - 1]), Target(votes[|votes| - 1]), x);
      AddVoteKeys(TallyOf(votes[..|votes| - 1]), Target(votes[|votes| - 1]));
    }
  }

  /** `Object.entries(voteCount).map(...).join(', ')`. */
  function TallyText(tally: seq<(string, nat)>): string {
    if |tally| == 0 then ""
    else
      var item := tally[0].0 + " (" + ShowNat(tally[0].1) + "票)";
      if |tally| == 1 then item else item + ", " + TallyText(tally[1..])
  }

  function ResultMessage(votes: seq<Vote>, t: int): Message {
    SystemMessage(VoteResult, At(t), "📊 投票结果：" + TallyText(TallyOf(votes)))
  }

  // ---------------------------------------------------------------- timelines

  /** Messages emitted so far and the simulated clock after them. */
  datatype Timeline = Timeline(msgs: seq<Message>, end: int)

  function Then(a: Timeline, b: Timeline): Timeline {
    Timeline(a.msgs + b.msgs, b.end)
  }

  /** `n` gaps of a kind. */
  function Ticks(k: LineKind, n: int): int {
    if k == Bidding then 2 * n else 3 * n
  }

  /** Emitting `entries` one per gap, starting one gap after `t`. */
  function Lines(k: LineKind, entries: seq<Entry>, t: int): (tl: Timeline)
    ensures |tl.msgs| == |entries| && tl.end == t + Ticks(k, |entries|)
  {
    Timeline(seq(|entries|, i requires 0 <= i < |entries| => LineMessage(k, entries[i], t + Ticks(k, i + 1))),
             t + Ticks(k, |entries|))
  }

  function OptLines(k: LineKind, entries: Option<seq<Entry>>, t: int): Timeline {
    if entries.Some? then Lines(k, entries.value, t) else Timeline([], t)
  }

  /** One optional night action, one minute after `t`. */
  function NightStep(act: NightAct, a: Option<Action>, t: int, data: Option<LiveData>): Timeline {
    if a.Some? then Timeline([NightMessage(act, a.value, t + 1, data)], t + 1) else Timeline([], t)
  }

  function NightRun(log: RoundLog, t: int, data: Option<LiveData>): Timeline {
    var e := NightStep(Eliminate, log.eliminate, t, data);
    var p := NightStep(Protect, log.protect, e.end, data);
    var i := NightStep(Investigate, log.investigate, p.end, data);
    Then(Then(e, p), i)
  }

  /** The bid turns: two minutes per bid (when the turn is an array), one more
      after every turn. */
  function BidTurns(turns: seq<Option<seq<Entry>>>, t: int): Timeline {
    if |turns| == 0 then Timeline([], t)
    else
      var prev := BidTurns(turns[..|turns| - 1], t);
      var lines := OptLines(Bidding, turns[|turns| - 1], prev.end);
      Timeline(prev.msgs + lines.msgs, lines.end + 1)
  }

  function VoteLines(ballot: seq<Vote>, t: int): (tl: Timeline)
    ensures |tl.msgs| == |ballot| && tl.end == t + |ballot|
  {
    Timeline(seq(|ballot|, i requires 0 <= i < |ballot| => VoteMessage(ballot[i], t + i + 1)), t + |ballot|)
  }

  /** The vote block: announced only when there are ballots; only the last ballot
      is shown and tallied; the result (for a non-empty ballot) and the exile
      notice share one time. */
  function VoteRun(votes: Option<seq<seq<Vote>>>, exiled: Option<string>, t: int): Timeline {
    if votes.None? || |votes.value| == 0 then Timeline([], t)
    else
      var ballot := votes.value[|votes.value| - 1];
      var start := SystemMessage(VoteStart, At(t + 2), "开始投票");
      var lines := VoteLines(ballot, t + 2);
      var at := lines.end + 2;
      var result := if |ballot| == 0 then [] else [ResultMessage(ballot, at)];
      var exile := if Truthy(exiled) then [ExileMessage(exiled.value, at)] else [];
      Timeline([start] + lines.msgs + (result + exile), at)
  }

  function RoundStateAt(state: GameStateData, r: nat): Option<RoundState> {
    if state.rounds.Some? && r < |state.rounds.value| then Some(state.rounds.value[r]) else None
  }

  function EliminatedIn(rs: Option<RoundState>): Option<string> {
    if rs.Some? then rs.value.eliminated else None
  }

  function ExiledIn(rs: Option<RoundState>): Option<string> {
    if rs.Some? then rs.value.exiled else None
  }

  /** The dawn announcement, two minutes after the night. */
  function DawnRun(rs: Option<RoundState>, t: int): Timeline {
    Timeline([DawnMessage(EliminatedIn(rs), t + 2)], t + 2)
  }

  function BidRun(bid: Option<seq<Option<seq<Entry>>>>, t: int): Timeline {
    if bid.Some? then BidTurns(bid.value, t) else Timeline([], t)
  }

  /** The first half of a round: night and dawn. */
  function Morning(log: RoundLog, rs: Option<RoundState>, t: int, data: Option<LiveData>): Timeline {
    var night := NightRun(log, t, data);
    Then(night, DawnRun(rs, night.end))
  }

  /** The talking part of a day: the bids, then the debate. */
  function Discussion(log: RoundLog, t: int): Timeline {
    var bids := BidRun(log.bid, t);
    Then(bids, OptLines(Debating, log.debate, bids.end))
  }

  /** The closing part of a day: the votes, then the summaries. */
  function Verdict(log: RoundLog, rs: Option<RoundState>, t: int): Timeline {
    var votes := VoteRun(log.votes, ExiledIn(rs), t);
    Then(votes, OptLines(Summing, log.summaries, votes.end))
  }

  /** The day after the dawn: bids, debate, votes and summaries. */
  function Day(log: RoundLog, rs: Option<RoundState>, t: int): Timeline {
    var talk := Discussion(log, t);
    Then(talk, Verdict(log, rs, talk.end))
  }

  /** One round of `generateLiveMessages`: its morning (night and dawn), then its day. */
  function RoundRun(log: RoundLog, rs: Option<RoundState>, t: int, data: Option<LiveData>): Timeline {
    var m := Morning(log, rs, t, data);
    Then(m, Day(log, rs, m.end))
  }

  /** `generateLiveMessages`: the rounds in log order, from 14:30. */
  function LiveRun(logs: seq<RoundLog>, state: GameStateData, data: Option<LiveData>): Timeline {
    if |logs| == 0 then Timeline([], 0)
    else
      var prev := LiveRun(logs[..|logs| - 1], state, data);
      Then(prev, RoundRun(logs[|logs| - 1], RoundStateAt(state, |logs| - 1), prev.end, data))
  }

  // ---------------------------------------------------------------- chronology

  /** Two consecutive messages of the stream: strictly later, except that an exile
      notice shares the time of the vote result before it. */
  predicate Step(a: Message, b: Message) {
    a.time.At? && b.time.At?
    && (a.time.minutes < b.time.minutes
        || (a.stage == VoteResult && b.stage == ExileNotice && a.time.minutes == b.time.minutes))
  }

  /** The messages are timed, each after the previous time (`after` to begin with;
      the same time is allowed once, for an exile notice, when `tie` says the
      previous message was a vote result), and none after `until`. */
  predicate InOrder(msgs: seq<Message>, after: int, until: int, tie: bool)
    decreases |msgs|
  {
    if |msgs| == 0 then after <= until
    else
      msgs[0].time.At?
      && (after < msgs[0].time.minutes
          || (tie && msgs[0].stage == ExileNotice && msgs[0].time.minutes == after))
      && InOrder(msgs[1..], msgs[0].time.minutes, until, msgs[0].stage == VoteResult)
  }

  /** A timeline that runs forward from `start` to its end. */
  predicate Chronicle(tl: Timeline, start: int) {
    InOrder(tl.msgs, start, tl.end, false)
  }

  /** The stages never go back in the round order and lie within `lo`..`hi`. */
  predicate Staged(msgs: seq<Message>, lo: int, hi: int)
    decreases |msgs|
  {
    |msgs| == 0 || (lo <= Rank(msgs[0].stage) <= hi && Staged(msgs[1..], Rank(msgs[0].stage), hi))
  }

  /** A stretch of one round: forward in time from `start`, stages within `lo`..`hi`. */
  predicate Segment(tl: Timeline, start: int, lo: int, hi: int) {
    Chronicle(tl, start) && Staged(tl.msgs, lo, hi)
  }

  /** What `InOrder` says, message by message. */
  lemma {:induction false} InOrderMeans(msgs: seq<Message>, after: int, until: int, tie: bool)
    requires InOrder(msgs, after, until, tie)
    ensures after <= until
    ensures forall i :: 0 <= i < |msgs| ==> msgs[i].time.At? && after <= msgs[i].time.minutes <= until
    ensures !tie ==> forall i :: 0 <= i < |msgs| ==> after < msgs[i].time.minutes
    ensures forall i :: 0 <= i < |msgs| - 1 ==> Step(msgs[i], msgs[i + 1])
  {
    if |msgs| > 0 {
      var rest := msgs[1..];
      InOrderMeans(rest, msgs[0].time.minutes, until, msgs[0].stage == VoteResult);
      forall i | 0 <= i < |msgs| - 1 ensures Step(msgs[i], msgs[i + 1]) {
        if i > 0 {
          assert msgs[i] == rest[i - 1] && msgs[i + 1] == rest[i];
        } else if |rest| > 0 {
          assert msgs[1] == rest[0];
        }
      }
      forall i | 0 < i < |msgs| ensures msgs[i].time.At? && msgs[0].time.minutes <= msgs[i].time.minutes <= until {
        assert msgs[i] == rest[i - 1];
      }
    }
  }

  /** Strictly increasing times after `after` and up to `until` are in order. */
  lemma {:induction false} InOrderOfTimes(msgs: seq<Message>, after: int, until: int, tie: bool)
    requires after <= until
    requires forall i :: 0 <= i < |msgs| ==> msgs[i].time.At? && after < msgs[i].time.minutes <= until
    requires forall i, j :: 0 <= i < j < |msgs| ==> msgs[i].time.minutes < msgs[j].time.minutes
    ensures InOrder(msgs, after, until, tie)
  {
    if |msgs| > 0 {
      var rest := msgs[1..];
      assert forall i :: 0 <= i < |rest| ==> rest[i] == msgs[i + 1];
      InOrderOfTimes(rest, msgs[0].time.minutes, until, msgs[0].stage == VoteResult);
    }
  }

  /** Messages all of stage `s` are staged at its rank. */
  lemma {:induction false} StagedOfStage(msgs: seq<Message>, s: Stage)
    requires forall i :: 0 <= i < |msgs| ==> msgs[i].stage == s
    ensures Staged(msgs, Rank(s), Rank(s))
  {
    if |msgs| > 0 {
      var rest := msgs[1..];
      assert forall i :: 0 <= i < |rest| ==> rest[i] == msgs[i + 1];
      StagedOfStage(rest, s);
    }
  }

  lemma InOrderWeaken(msgs: seq<Message>, after: int, later: int, until: int, tie: bool)
    requires after <= later && InOrder(msgs, later, until, false)
    ensures InOrder(msgs, after, until, tie)
  {
  }

  lemma {:induction false} InOrderThen(a: seq<Message>, b: seq<Message>, after: int, mid: int, until: int, tie: bool)
    requires InOrder(a, after, mid, tie) && InOrder(b, mid, until, false)
    ensures InOrder(a + b, after, until, tie)
    decreases |a|
  {
    if |a| == 0 {
      assert a + b == b;
      InOrderWeaken(b, after, mid, until, tie);
    } else {
      assert (a + b)[1..] == a[1..] + b;
      InOrderThen(a[1..], b, a[0].time.minutes, mid, until, a[0].stage == VoteResult);
    }
  }

  lemma {:induction false} InOrderExtend(msgs: seq<Message>, after: int, until: int, later: int, tie: bool)
    requires until <= later && InOrder(msgs, after, until, tie)
    ensures InOrder(msgs, after, later, tie)
    decreases |msgs|
  {
    if |msgs| > 0 {
      InOrderExtend(msgs[1..], msgs[0].time.minutes, until, later, msgs[0].stage == VoteResult);
    }
  }

  lemma ThenChronicle(a: Timeline, b: Timeline, t: int)
    requires Chronicle(a, t) && Chronicle(b, a.end)
    ensures Chronicle(Then(a, b), t)
  {
    InOrderThen(a.msgs, b.msgs, t, a.end, b.end, false);
  }

  /** What `Staged` says, message by message. */
  lemma {:induction false} StagedMeans(msgs: seq<Message>, lo: int, hi: int)
    requires Staged(msgs, lo, hi)
    ensures forall i :: 0 <= i < |msgs| ==> lo <= Rank(msgs[i].stage) <= hi
    ensures forall i :: 0 <= i < |msgs| - 1 ==> Rank(msgs[i].stage) <= Rank(msgs[i + 1].stage)
  {
    if |msgs| > 0 {
      var rest := msgs[1..];
      StagedMeans(rest, Rank(msgs[0].stage), hi);
      forall i | 0 < i < |msgs| ensures lo <= Rank(msgs[i].stage) <= hi {
        assert msgs[i] == rest[i - 1];
      }
      forall i | 0 <= i < |msgs| - 1 ensures Rank(msgs[i].stage) <= Rank(msgs[i + 1].stage) {
        assert msgs[i + 1] == rest[i];
        if i > 0 {
          assert msgs[i] == rest[i - 1];
        }
      }
    }
  }

  lemma {:induction false} ThenStaged(a: seq<Message>, b: seq<Message>, lo: int, mid: int, hi: int)
    requires lo <= mid <= hi
    requires Staged(a, lo, mid) && Staged(b, mid, hi)
    ensures Staged(a + b, lo, hi)
    decreases |a|
  {
    if |a| == 0 {
      assert a + b == b;
    } else {
      assert (a + b)[1..] == a[1..] + b;
      ThenStaged(a[1..], b, Rank(a[0].stage), mid, hi);
    }
  }

  lemma ThenSegment(a: Timeline, b: Timeline, t: int, lo: int, mid: int, hi: int)
    requires lo <= mid <= hi && Segment(a, t, lo, mid) && Segment(b, a.end, mid, hi)
    ensures Segment(Then(a, b), t, lo, hi)
  {
    ThenChronicle(a, b, t);
    ThenStaged(a.msgs, b.msgs, lo, mid, hi);
  }

  lemma LinesSegment(k: LineKind, entries: seq<Entry>, t: int)
    ensures Segment(Lines(k, entries, t), t, Rank(LineStage(k)), Rank(LineStage(k)))
  {
    var tl := Lines(k, entries, t);
    assert forall i :: 0 <= i < |tl.msgs| ==> tl.msgs[i].time == At(t + Ticks(k, i + 1)) && tl.msgs[i].stage == LineStage(k);
    InOrderOfTimes(tl.msgs, t, tl.end, false);
    StagedOfStage(tl.msgs, LineStage(k));
  }

  lemma OptLinesSegment(k: LineKind, entries: Option<seq<Entry>>, t: int)
    ensures Segment(OptLines(k, entries, t), t, Rank(LineStage(k)), Rank(LineStage(k)))
  {
    if entries.Some? {
      LinesSegment(k, entries.value, t);
    }
  }

  /** A single message at `at`, after `t`. */
  lemma SingleSegment(m: Message, t: int, at: int)
    requires t < at && m.time == At(at)
    ensures Segment(Timeline([m], at), t, Rank(m.stage), Rank(m.stage))
  {
    assert [m][1..] == [];
  }

  lemma NightStepSegment(act: NightAct, a: Option<Action>, t: int, data: Option<LiveData>)
    ensures Segment(NightStep(act, a, t, data), t, Rank(Night(act)), Rank(Night(act)))
  {
    if a.Some? {
      SingleSegment(NightMessage(act, a.value, t + 1, data), t, t + 1);
    }
  }

  lemma NightSegment(log: RoundLog, t: int, data: Option<LiveData>)
    ensures Segment(NightRun(log, t, data), t, 0, 2)
  {
    var e := NightStep(Eliminate, log.eliminate, t, data);
    var p := NightStep(Protect, log.protect, e.end, data);
    var i := NightStep(Investigate, log.investigate, p.end, data);
    NightStepSegment(Eliminate, log.eliminate, t, data);
    NightStepSegment(Protect, log.protect, e.end, data);
    NightStepSegment(Investigate, log.investigate, p.end, data);
    ThenSegment(e, p, t, 0, 1, 1);
    ThenSegment(Then(e, p), i, t, 0, 2, 2);
  }

  lemma {:induction false} BidTurnsSegment(turns: seq<Option<seq<Entry>>>, t: int)
    ensures Segment(BidTurns(turns, t), t, Rank(BidLine), Rank(BidLine))
  {
    if |turns| > 0 {
      var prev := BidTurns(turns[..|turns| - 1], t);
      var lines := OptLines(Bidding, turns[|turns| - 1], prev.end);
      assert BidTurns(turns, t) == Timeline(prev.msgs + lines.msgs, lines.end + 1);
      BidTurnsSegment(turns[..|turns| - 1], t);
      OptLinesSegment(Bidding, turns[|turns| - 1], prev.end);
      InOrderExtend(lines.msgs, prev.end, lines.end, lines.end + 1, false);
      InOrderThen(prev.msgs, lines.msgs, t, prev.end, lines.end + 1, false);
      ThenStaged(prev.msgs, lines.msgs, Rank(BidLine), Rank(BidLine), Rank(BidLine));
    }
  }

  lemma BidRunSegment(bid: Option<seq<Option<seq<Entry>>>>, t: int)
    ensures Segment(BidRun(bid, t), t, Rank(BidLine), Rank(BidLine))
  {
    if bid.Some? {
      BidTurnsSegment(bid.value, t);
    }
  }

  lemma DawnSegment(rs: Option<RoundState>, t: int)
    ensures Segment(DawnRun(rs, t), t, Rank(Dawn), Rank(Dawn))
  {
    SingleSegment(DawnMessage(EliminatedIn(rs), t + 2), t, t + 2);
  }

  lemma VoteLinesSegment(ballot: seq<Vote>, t: int)
    ensures Segment(VoteLines(ballot, t), t, Rank(VoteLine), Rank(VoteLine))
  {
    var tl := VoteLines(ballot, t);
    assert forall i :: 0 <= i < |tl.msgs| ==> tl.msgs[i].time == At(t + i + 1) && tl.msgs[i].stage == VoteLine;
    InOrderOfTimes(tl.msgs, t, tl.end, false);
    StagedOfStage(tl.msgs, VoteLine);
  }

  /** The result line and exile notice of a ballot, both at `at`. */
  lemma VoteTailSegment(ballot: seq<Vote>, exiled: Option<string>, t: int, at: int)
    requires t < at
    ensures var result := if |ballot| == 0 then [] else [ResultMessage(ballot, at)];
            var exile := if Truthy(exiled) then [ExileMessage(exiled.value, at)] else [];
            Segment(Timeline(result + exile, at), t, Rank(VoteResult), Rank(ExileNotice))
  {
    var result := if |ballot| == 0 then [] else [ResultMessage(ballot, at)];
    var exile := if Truthy(exiled) then [ExileMessage(exiled.value, at)] else [];
    if |exile| > 0 {
      assert exile[0].stage == ExileNotice && exile[0].time == At(at);
      assert exile[1..] == [];
    }
    if |result| > 0 {
      assert result[0].stage == VoteResult && result[0].time == At(at);
      assert (result + exile)[1..] == exile;
    }
  }

  lemma VoteSegment(votes: Option<seq<seq<Vote>>>, exiled: Option<string>, t: int)
    ensures Segment(VoteRun(votes, exiled, t), t, Rank(VoteStart), Rank(ExileNotice))
  {
    if votes.Some? && |votes.value| > 0 {
      var ballot := votes.value[|votes.value| - 1];
      var start := SystemMessage(VoteStart, At(t + 2), "开始投票");
      var lines := VoteLines(ballot, t + 2);
      var at := lines.end + 2;
      var result: seq<Message> := if |ballot| == 0 then [] else [ResultMessage(ballot, at)];
      var exile: seq<Message> := if Truthy(exiled) then [ExileMessage(exiled.value, at)] else [];
      var head := Timeline([start], t + 2);
      var tail := Timeline(result + exile, at);
      SingleSegment(start, t, t + 2);
      VoteLinesSegment(ballot, t + 2);
      VoteTailSegment(ballot, exiled, lines.end, at);
      ThenSegment(head, lines, t, 6, 6, 7);
      ThenSegment(Then(head, lines), tail, t, 6, 7, 9);
      assert VoteRun(votes, exiled, t) == Then(Then(head, lines), tail);
    }
  }

  lemma MorningSegment(log: RoundLog, rs: Option<RoundState>, t: int, data: Option<LiveData>)
    ensures Segment(Morning(log, rs, t, data), t, 0, Rank(Dawn))
  {
    var night := NightRun(log, t, data);
    NightSegment(log, t, data);
    DawnSegment(rs, night.end);
    ThenSegment(night, DawnRun(rs, night.end), t, 0, 2, 3);
  }

  lemma DaySegment(log: RoundLog, rs: Option<RoundState>, t: int)
    ensures Segment(Day(log, rs, t), t, Rank(BidLine), Rank(SummaryLine))
  {
    var talk := Discussion(log, t);
    DiscussionSegment(log, t);
    VerdictSegment(log, rs, talk.end);
    ThenSegment(talk, Verdict(log, rs, talk.end), t, 4, 5, 10);
  }

  lemma DiscussionSegment(log: RoundLog, t: int)
    ensures Segment(Discussion(log, t), t, Rank(BidLine), Rank(DebateLine))
  {
    var bids := BidRun(log.bid, t);
    BidRunSegment(log.bid, t);
    OptLinesSegment(Debating, log.debate, bids.end);
    ThenSegment(bids, OptLines(Debating, log.debate, bids.end), t, 4, 4, 5);
  }

  lemma VerdictSegment(log: RoundLog, rs: Option<RoundState>, t: int)
    ensures Segment(Verdict(log, rs, t), t, Rank(VoteStart), Rank(SummaryLine))
  {
    var votes := VoteRun(log.votes, ExiledIn(rs), t);
    VoteSegment(log.votes, ExiledIn(rs), t);
    OptLinesSegment(Summing, log.summaries, votes.end);
    ThenSegment(votes, OptLines(Summing, log.summaries, votes.end), t, 6, 9, 10);
  }

  lemma RoundSegment(log: RoundLog, rs: Option<RoundState>, t: int, data: Option<LiveData>)
    ensures Segment(RoundRun(log, rs, t, data), t, 0, Rank(SummaryLine))
  {
    var m := Morning(log, rs, t, data);
    MorningSegment(log, rs, t, data);
    DaySegment(log, rs, m.end);
    ThenSegment(m, Day(log, rs, m.end), t, 0, 3, 10);
  }

  /** Within one round the stages follow the page's order: the night actions
      (kill, protection, investigation), the dawn, the bids, the debate, the vote
      announcement, the vote lines, the result, the exile notice, the summaries. */
  lemma RoundInOrder(log: RoundLog, rs: Option<RoundState>, t: int, data: Option<LiveData>)
    ensures var msgs := RoundRun(log, rs, t, data).msgs;
            forall i :: 0 <= i < |msgs| - 1 ==> Rank(msgs[i].stage) <= Rank(msgs[i + 1].stage)
  {
    RoundSegment(log, rs, t, data);
    StagedMeans(RoundRun(log, rs, t, data).msgs, 0, Rank(SummaryLine));
  }

  lemma {:induction false} LiveChronicle(logs: seq<RoundLog>, state: GameStateData, data: Option<LiveData>)
    ensures Chronicle(LiveRun(logs, state, data), 0)
  {
    if |logs| > 0 {
      var prev := LiveRun(logs[..|logs| - 1], state, data);
      LiveChronicle(logs[..|logs| - 1], state, data);
      RoundSegment(logs[|logs| - 1], RoundStateAt(state, |logs| - 1), prev.end, data);
      ThenChronicle(prev, RoundRun(logs[|logs| - 1], RoundStateAt(state, |logs| - 1), prev.end, data), 0);
    }
  }

  /** The simulated clock runs forward through the whole stream: every generated
      message is timed after 14:30, each is strictly later than the one before,
      and the only tie is an exile notice at the time of the vote result before it. */
  lemma LiveChronological(logs: seq<RoundLog>, state: GameStateData, data: Option<LiveData>)
    ensures var msgs := LiveRun(logs, state, data).msgs;
            (forall i :: 0 <= i < |msgs| ==> msgs[i].time.At? && 0 < msgs[i].time.minutes)
            && (forall i :: 0 <= i < |msgs| - 1 ==> Step(msgs[i], msgs[i + 1]))
  {
    LiveChronicle(logs, state, data);
    InOrderMeans(LiveRun(logs, state, data).msgs, 0, LiveRun(logs, state, data).end, false);
  }

  // ---------------------------------------------------------------- round shape

  function CountStage(msgs: seq<Message>, s: Stage): nat {
    if |msgs| == 0 then 0 else CountStage(msgs[..|msgs| - 1], s) + (if msgs[|msgs| - 1].stage == s then 1 else 0)
  }

  lemma {:induction false} CountStageAppend(a: seq<Message>, b: seq<Message>, s: Stage)
    ensures CountStage(a + b, s) == CountStage(a, s) + CountStage(b, s)
    decreases |b|
  {
    if |b| == 0 {
      assert a + b == a;
    } else {
      assert (a + b)[..|a + b| - 1] == a + b[..|b| - 1];
      CountStageAppend(a, b[..|b| - 1], s);
    }
  }

  lemma {:induction false} CountStageAbsent(msgs: seq<Message>, s: Stage)
    requires forall i :: 0 <= i < |msgs| ==> msgs[i].stage != s
    ensures CountStage(msgs, s) == 0
  {
    if |msgs| > 0 {
      CountStageAbsent(msgs[..|msgs| - 1], s);
    }
  }

  /** A stretch of stages all ranked away from `s` holds none of it. */
  lemma CountStagedAbsent(msgs: seq<Message>, lo: int, hi: int, s: Stage)
    requires Staged(msgs, lo, hi) && (Rank(s) < lo || hi < Rank(s))
    ensures CountStage(msgs, s) == 0
  {
    StagedMeans(msgs, lo, hi);
    CountStageAbsent(msgs, s);
  }

  /** A morning ends with its one dawn announcement. */
  lemma OneDawnPerMorning(log: RoundLog, rs: Option<RoundState>, t: int, data: Option<LiveData>)
    ensures CountStage(Morning(log, rs, t, data).msgs, Dawn) == 1
  {
    var night := NightRun(log, t, data);
    var dawn := DawnRun(rs, night.end);
    NightSegment(log, t, data);
    CountStagedAbsent(night.msgs, 0, 2, Dawn);
    CountStageAppend(night.msgs, dawn.msgs, Dawn);
    CountStageSingle(dawn.msgs[0], Dawn);
  }

  /** Each round holds exactly one dawn announcement, ending its morning. */
  lemma OneDawnPerRound(log: RoundLog, rs: Option<RoundState>, t: int, data: Option<LiveData>)
    ensures CountStage(RoundRun(log, rs, t, data).msgs, Dawn) == 1
  {
    var m := Morning(log, rs, t, data);
    var day := Day(log, rs, m.end);
    OneDawnPerMorning(log, rs, t, data);
    DaySegment(log, rs, m.end);
    CountStagedAbsent(day.msgs, 4, 10, Dawn);
    CountStageAppend(m.msgs, day.msgs, Dawn);
  }

  /** The whole stream holds one dawn announcement per logged round. */
  lemma {:induction false} OneDawnPerLoggedRound(logs: seq<RoundLog>, state: GameStateData, data: Option<LiveData>)
    ensures CountStage(LiveRun(logs, state, data).msgs, Dawn) == |logs|
  {
    if |logs| > 0 {
      var prev := LiveRun(logs[..|logs| - 1], state, data);
      OneDawnPerLoggedRound(logs[..|logs| - 1], state, data);
      OneDawnPerRound(logs[|logs| - 1], RoundStateAt(state, |logs| - 1), prev.end, data);
      CountStageAppend(prev.msgs, RoundRun(logs[|logs| - 1], RoundStateAt(state, |logs| - 1), prev.end, data).msgs, Dawn);
    }
  }

  /** Only the last ballot of a round is shown and tallied: earlier ballots make no
      difference to the messages. */
  lemma LastBallotOnly(votes: seq<seq<Vote>>, exiled: Option<string>, t: int)
    requires |votes| > 0
    ensures VoteRun(Some(votes), exiled, t) == VoteRun(Some([votes[|votes| - 1]]), exiled, t)
  {
  }

  lemma CountStageSingle(m: Message, s: Stage)
    ensures CountStage([m], s) == if m.stage == s then 1 else 0
  {
    assert [m][..0] == [];
  }

  /** The result line of a ballot and the exile notice: one of each when present. */
  lemma VoteTailCounts(ballot: seq<Vote>, exiled: Option<string>, at: int)
    ensures var tail := (if |ballot| == 0 then [] else [ResultMessage(ballot, at)])
                        + (if Truthy(exiled) then [ExileMessage(exiled.value, at)] else []);
            CountStage(tail, VoteResult) == (if |ballot| == 0 then 0 else 1)
            && CountStage(tail, ExileNotice) == (if Truthy(exiled) then 1 else 0)
  {
    var result: seq<Message> := if |ballot| == 0 then [] else [ResultMessage(ballot, at)];
    var exile: seq<Message> := if Truthy(exiled) then [ExileMessage(exiled.value, at)] else [];
    CountStageAppend(result, exile, VoteResult);
    CountStageAppend(result, exile, ExileNotice);
    if |result| > 0 {
      CountStageSingle(result[0], VoteResult);
      CountStageSingle(result[0], ExileNotice);
    }
    if |exile| > 0 {
      CountStageSingle(exile[0], VoteResult);
      CountStageSingle(exile[0], ExileNotice);
    }
  }

  /** The announcement and vote lines hold neither a result nor an exile notice. */
  lemma VoteHeadCounts(ballot: seq<Vote>, t: int)
    ensures var h := [SystemMessage(VoteStart, At(t + 2), "开始投票")] + VoteLines(ballot, t + 2).msgs;
            CountStage(h, VoteResult) == 0 && CountStage(h, ExileNotice) == 0
  {
    var start := SystemMessage(VoteStart, At(t + 2), "开始投票");
    var head := Timeline([start], t + 2);
    SingleSegment(start, t, t + 2);
    VoteLinesSegment(ballot, t + 2);
    ThenSegment(head, VoteLines(ballot, t + 2), t, 6, 6, 7);
    CountStagedAbsent(head.msgs + VoteLines(ballot, t + 2).msgs, 6, 7, VoteResult);
    CountStagedAbsent(head.msgs + VoteLines(ballot, t + 2).msgs, 6, 7, ExileNotice);
  }

  /** The vote block holds one result line exactly when the last ballot is not
      empty, and an exile notice exactly when someone was exiled. */
  lemma VoteResultShown(votes: seq<seq<Vote>>, exiled: Option<string>, t: int)
    requires |votes| > 0
    ensures CountStage(VoteRun(Some(votes), exiled, t).msgs, VoteResult) == (if |votes[|votes| - 1]| == 0 then 0 else 1)
    ensures CountStage(VoteRun(Some(votes), exiled, t).msgs, ExileNotice) == (if Truthy(exiled) then 1 else 0)
  {
    var ballot := votes[|votes| - 1];
    var h := [SystemMessage(VoteStart, At(t + 2), "开始投票")] + VoteLines(ballot, t + 2).msgs;
    var at := t + 2 + |ballot| + 2;
    var tail := (if |ballot| == 0 then [] else [ResultMessage(ballot, at)])
                + (if Truthy(exiled) then [ExileMessage(exiled.value, at)] else []);
    assert VoteRun(Some(votes), exiled, t).msgs == h + tail;
    VoteHeadCounts(ballot, t);
    VoteTailCounts(ballot, exiled, at);
    CountStageAppend(h, tail, VoteResult);
    CountStageAppend(h, tail, ExileNotice);
  }

  /** `messages.some(m => m.content.includes(text))`. */
  predicate AnyContains(msgs: seq<Message>, text: string) {
    exists i :: 0 <= i < |msgs| && Contains(msgs[i].content, text)
  }

  /** `processGameData`'s stream: the regenerated rounds, then the game-over
      announcement when the state names a winner and no message mentions the end
      of the game yet. */
  function Processed(logs: seq<RoundLog>, state: GameStateData, data: Option<LiveData>): seq<Message> {
    var msgs := LiveRun(logs, state, data).msgs;
    if Truthy(state.winner) && !AnyContains(msgs, GameOverText) then msgs + [GameOverMessage(state.winner.value)]
    else msgs
  }

  lemma RoundNoGameOver(log: RoundLog, rs: Option<RoundState>, t: int, data: Option<LiveData>)
    ensures CountStage(RoundRun(log, rs, t, data).msgs, GameOver) == 0
  {
    RoundSegment(log, rs, t, data);
    CountStagedAbsent(RoundRun(log, rs, t, data).msgs, 0, Rank(SummaryLine), GameOver);
  }

  /** The generated rounds never announce the end of the game themselves. */
  lemma {:induction false} LiveNoGameOver(logs: seq<RoundLog>, state: GameStateData, data: Option<LiveData>)
    ensures CountStage(LiveRun(logs, state, data).msgs, GameOver) == 0
  {
    if |logs| > 0 {
      var prev := LiveRun(logs[..|logs| - 1], state, data);
      var round := RoundRun(logs[|logs| - 1], RoundStateAt(state, |logs| - 1), prev.end, data);
      LiveNoGameOver(logs[..|logs| - 1], state, data);
      RoundNoGameOver(logs[|logs| - 1], RoundStateAt(state, |logs| - 1), prev.end, data);
      CountStageAppend(prev.msgs, round.msgs, GameOver);
    }
  }

  /** The announcement mentions the end of the game. */
  lemma GameOverMentioned(winner: string)
    ensures Contains(GameOverMessage(winner).content, GameOverText)
  {
    var c := GameOverMessage(winner).content;
    assert c[4..8] == GameOverText;
    assert OccursAt(c, GameOverText, 4);
    ContainsIffOccurs(c, GameOverText);
  }

  /** After processing, the generated rounds come first, unchanged; the game-over
      announcement is added at most once, exactly when there is a winner and no
      generated message mentions the end of the game; and with a winner the
      stream always ends up mentioning it. */
  lemma GameOverRule(logs: seq<RoundLog>, state: GameStateData, data: Option<LiveData>)
    ensures var msgs := LiveRun(logs, state, data).msgs;
            var out := Processed(logs, state, data);
            msgs <= out
            && CountStage(out, GameOver) == (if Truthy(state.winner) && !AnyContains(msgs, GameOverText) then 1 else 0)
            && (Truthy(state.winner) ==> AnyContains(out, GameOverText))
  {
    var msgs := LiveRun(logs, state, data).msgs;
    LiveNoGameOver(logs, state, data);
    if Truthy(state.winner) && !AnyContains(msgs, GameOverText) {
      var m := GameOverMessage(state.winner.value);
      CountStageAppend(msgs, [m], GameOver);
      CountStageSingle(m, GameOver);
      GameOverMentioned(state.winner.value);
      assert (msgs + [m])[|msgs|] == m;
    }
  }

  // ---------------------------------------------------------------- players

  /** The names some round reports as eliminated or exiled (truthy ones only). */
  function Eliminated(rounds: seq<RoundState>): set<string> {
    if |rounds| == 0 then {}
    else
      var r := rounds[|rounds| - 1];
      Eliminated(rounds[..|rounds| - 1])
        + (if Truthy(r.eliminated) then {r.eliminated.value} else {})
        + (if Truthy(r.exiled) then {r.exiled.value} else {})
  }

  function EliminatedOf(state: GameStateData): set<string> {
    if state.rounds.Some? then Eliminated(state.rounds.value) else {}
  }

  /** A name is eliminated exactly when some round names it as eliminated or exiled. */
  lemma {:induction false} EliminatedIff(rounds: seq<RoundState>, name: string)
    ensures name in Eliminated(rounds) <==>
              exists i :: 0 <= i < |rounds| && ((rounds[i].eliminated == Some(name) || rounds[i].exiled == Some(name)) && name != "")
  {
    if |rounds| > 0 {
      var init := rounds[..|rounds| - 1];
      EliminatedIff(init, name);
      if exists i :: 0 <= i < |init| && ((init[i].eliminated == Some(name) || init[i].exiled == Some(name)) && name != "") {
        var i :| 0 <= i < |init| && ((init[i].eliminated == Some(name) || init[i].exiled == Some(name)) && name != "");
        assert rounds[i] == init[i];
      }
      if exists i :: 0 <= i < |rounds| && ((rounds[i].eliminated == Some(name) || rounds[i].exiled == Some(name)) && name != "") {
        var i :| 0 <= i < |rounds| && ((rounds[i].eliminated == Some(name) || rounds[i].exiled == Some(name)) && name != "");
        if i < |init| {
          assert init[i] == rounds[i];
        }
      }
    }
  }

  datatype PlayerStatus = Alive | Out

  datatype PlayerEntry = PlayerEntry(name: string, role: string, avatar: string, status: PlayerStatus, model: string)

  /** The entry `initializePlayers` stores under `key`. */
  function EntryFor(key: string, p: PlayerData, eliminated: set<string>): PlayerEntry {
    PlayerEntry(p.name, p.role, "static/" + key + ".png", if key in eliminated then Out else Alive,
                OrElse(p.model, "Unknown"))
  }

  /** The player map rebuilt from the state's player entries. */
  function PlayerMap(entries: seq<(string, PlayerData)>, eliminated: set<string>): map<string, PlayerEntry> {
    if |entries| == 0 then map[]
    else
      var (key, p) := entries[|entries| - 1];
      PlayerMap(entries[..|entries| - 1], eliminated)[key := EntryFor(key, p, eliminated)]
  }

  function AliveCount(entries: seq<(string, PlayerData)>, eliminated: set<string>): nat {
    if |entries| == 0 then 0
    else AliveCount(entries[..|entries| - 1], eliminated) + (if entries[|entries| - 1].0 in eliminated then 0 else 1)
  }

  function OutCount(entries: seq<(string, PlayerData)>, eliminated: set<string>): nat {
    if |entries| == 0 then 0
    else OutCount(entries[..|entries| - 1], eliminated) + (if entries[|entries| - 1].0 in eliminated then 1 else 0)
  }

  /** The roll-call: every player entry is counted once, as alive or as eliminated;
      the map is keyed by exactly the entries' keys, and a player is marked
      eliminated exactly when its key is in the eliminated set. */
  lemma {:induction false} RollCall(entries: seq<(string, PlayerData)>, eliminated: set<string>)
    ensures AliveCount(entries, eliminated) + OutCount(entries, eliminated) == |entries|
    ensures forall k :: k in PlayerMap(entries, eliminated) <==> k in KeysOf(entries)
    ensures forall k :: k in PlayerMap(entries, eliminated) ==>
              (PlayerMap(entries, eliminated)[k].status == Out <==> k in eliminated)
  {
    if |entries| > 0 {
      var init := entries[..|entries| - 1];
      RollCall(init, eliminated);
      assert KeysOf(entries) == KeysOf(init) + [entries[|entries| - 1].0];
    }
  }

  // ---------------------------------------------------------------- controls

  /** `updateGameControls`' table, for a page whose controls are present:
      (stop button disabled, live) after the status, from the previous values. */
  function Controls(status: string, stopDisabled: bool, isLive: bool): (bool, bool) {
    if status == "initializing" then (false, isLive)
    else if status == "running" then (false, true)
    else if status == "stopping" then (true, isLive)
    else if status in {"stopped", "completed", "error"} then (true, false)
    else (stopDisabled, isLive)
  }

  /** The status text `updateGameControls` shows. */
  function StatusText(status: string): string {
    if status == "initializing" then "初始化中"
    else if status == "running" then "运行中"
    else if status == "stopping" then "停止中"
    else if status == "stopped" then "已停止"
    else if status == "completed" then "已完成"
    else if status == "error" then "错误"
    else "未知"
  }

  /** Each known status shows its own text; every other status shows "unknown". */
  lemma StatusTextsDistinct(a: string, b: string)
    ensures var known := {"initializing", "running", "stopping", "stopped", "completed", "error"};
            (a !in known ==> StatusText(a) == "未知")
            && (a in known ==> StatusText(a) != "未知")
            && (a in known && b in known ==> (StatusText(a) == StatusText(b) <==> a == b))
  {
  }

  /** The stop button is enabled exactly for "initializing" and "running" and
      disabled exactly for "stopping", "stopped", "completed" and "error"; the page
      goes live only on "running" and stops being live only on "stopped",
      "completed" and "error"; any other status changes neither. */
  lemma ControlsTable(status: string, stopDisabled: bool, isLive: bool)
    ensures var (d, l) := Controls(status, stopDisabled, isLive);
            (status in {"initializing", "running"} ==> !d)
            && (status in {"stopping", "stopped", "completed", "error"} ==> d)
            && (status !in {"initializing", "running", "stopping", "stopped", "completed", "error"} ==> d == stopDisabled)
            && (status == "running" ==> l)
            && (status in {"stopped", "completed", "error"} ==> !l)
            && (status !in {"running", "stopped", "completed", "error"} ==> l == isLive)
  {
  }

  /** Every status the session registry reports decides both controls: running
      enables the stop button and makes the page live, "completed" and "stopped"
      disable it and end the live view, whatever the page showed before. */
  lemma RegistryStatusesDecideControls(isRunning: bool, winner: string, stopDisabled: bool, isLive: bool)
    ensures var s := SessionManager.StatusLabel(isRunning, winner);
            Controls(s, stopDisabled, isLive) == (!isRunning, isRunning)
  {
  }
}
