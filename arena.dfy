/** The battle orchestrator of server/src/index.js: per-topic matchmaking
    queues, the live battles, the socket-to-battle index, the pending timers
    and the settlement of a finished battle.

    Every socket event and every timer callback is one atomic method of
    `Arena`. `setTimeout` adds a fresh handle to `timers` and `clearTimeout`
    removes it; a timer firing is the method for its kind, which may only be
    called for a pending handle. Emitted socket events are appended to
    `outbox`. The clock (`Date.now()`), the random draws and the outcome of
    each question fetch are parameters. */
module Arena {
  import opened Wrappers
  import opened Models
  import opened Elo
  import opened JsString
  import opened Settlement
  import Q = Questions

  type SocketId = string
  type BattleId = nat
  type TimerId = nat

  const MatchDurationMs := 10 * 60 * 1000
  const DisconnectGraceMs := 60 * 1000
  const FirstBotDelayMs := 3500
  const BotUserId := "BOT"
  const BotUsername := "TestBot"
  const DefaultTopic := "matematica"

  /** A waiting player in a topic queue. */
  datatype QueueEntry = QueueEntry(userId: UserId, username: string, socketId: SocketId)

  /** A participant handed to `startBattle`; the bot has no socket. */
  datatype Seat = Seat(userId: UserId, username: string, socketId: Option<SocketId>, isBot: bool)

  function SeatOf(e: QueueEntry): Seat {
    Seat(e.userId, e.username, Some(e.socketId), false)
  }

  datatype PlayerState = PlayerState(
    userId: UserId, username: string, socketId: Option<SocketId>, isBot: bool,
    score: nat, totalAnswers: nat, correctAnswers: nat, lastCorrectAt: Option<int>,
    currentQuestion: Option<Q.Question>, disconnected: bool, disconnectTimer: Option<TimerId>)

  datatype BattleState = BattleState(
    battleId: BattleId, topic: string, startTime: nat, endAt: nat, timer: Option<TimerId>,
    strictApi: bool, isTestBattle: bool, playerOne: PlayerState, playerTwo: PlayerState)
  {
    function Player(side: Side): PlayerState {
      if side == One then playerOne else playerTwo
    }

    function WithPlayer(side: Side, p: PlayerState): (b: BattleState)
      ensures b.Player(side) == p && b.Player(side.Other()) == Player(side.Other())
      ensures b.(playerOne := playerOne, playerTwo := playerTwo) == this
    {
      if side == One then this.(playerOne := p) else this.(playerTwo := p)
    }
  }

  /** A `socketToBattle` value. */
  datatype SocketRef = SocketRef(battleId: BattleId, side: Side)

  /** What a pending `setTimeout` will run. */
  datatype TimerAction =
    | Duration(battleId: BattleId)
    | Grace(battleId: BattleId, side: Side)
    | BotAct(battleId: BattleId)

  datatype Timer = Timer(action: TimerAction, delayMs: nat)

  datatype PlayerResult = PlayerResult(userId: UserId, correct: nat, total: nat, accuracy: real)

  datatype FinalResults = FinalResults(
    battleId: BattleId, topic: string, playerOne: PlayerResult, playerTwo: PlayerResult,
    winner: Option<UserId>, reason: string)

  datatype Reward = Reward(kp: int, eloChange: int)

  datatype Recipient = ToSocket(socket: SocketId) | ToRoom(battle: BattleId)

  datatype Event =
    | MatchFound(opponentId: UserId, opponentName: string, battleId: BattleId)
    | BattleStart(firstQuestion: Option<Q.Question>)
    | OpponentScore(score: nat)
    | AnswerResult(correct: bool, nextQuestion: Q.Question)
    | BattleComplete(results: FinalResults, rewardOne: Reward, rewardTwo: Reward)
    | ApiUnavailableNotice

  datatype Emit = Emit(to: Recipient, event: Event)

  /** `io.sockets.sockets.get(socketId)?.emit(...)`: nothing for the bot's
      null socket. */
  function ToSeat(socket: Option<SocketId>, e: Event): seq<Emit> {
    if socket.Some? then [Emit(ToSocket(socket.value), e)] else []
  }

  /** The counters of a player agree: the score is the number of correct
      answers, no more correct answers than answers, and a time of the last
      correct answer exactly when there was one. */
  predicate PlayerOk(p: PlayerState) {
    && p.correctAnswers <= p.totalAnswers
    && p.score == p.correctAnswers
    && (p.lastCorrectAt.Some? <==> p.correctAnswers > 0)
  }

  predicate BattleOk(id: BattleId, b: BattleState) {
    b.battleId == id && PlayerOk(b.playerOne) && PlayerOk(b.playerTwo)
  }

  predicate HasUser(b: BattleState, userId: UserId) {
    b.playerOne.userId == userId || b.playerTwo.userId == userId
  }

  predicate InBattle(battles: map<BattleId, BattleState>, userId: UserId) {
    exists id :: id in battles && HasUser(battles[id], userId)
  }

  /** The side a user plays; side one when both are the user. */
  function SideOf(b: BattleState, userId: UserId): Side {
    if b.playerOne.userId == userId then One else Two
  }

  /** The first battle, in creation order from `from` up to `bound`, that the
      user takes part in. */
  function FirstBattleOf(battles: map<BattleId, BattleState>, userId: UserId, from: nat, bound: nat): (r: Option<BattleId>)
    ensures r.Some? ==> from <= r.value < bound && r.value in battles && HasUser(battles[r.value], userId)
    ensures forall id :: from <= id < bound && id in battles && HasUser(battles[id], userId) ==>
      r.Some? && r.value <= id
    decreases bound - from
  {
    if from >= bound then None
    else if from in battles && HasUser(battles[from], userId) then Some(from)
    else FirstBattleOf(battles, userId, from + 1, bound)
  }

  // ---------------------------------------------------------------------
  // Matchmaking queue

  /** The backward `splice` loop: the queue without the user's entries. */
  function RemoveUser(queue: seq<QueueEntry>, userId: UserId): (r: seq<QueueEntry>)
    ensures |r| <= |queue|
    ensures forall i :: 0 <= i < |r| ==> r[i].userId != userId
  {
    if queue == [] then []
    else (if queue[0].userId == userId then [] else [queue[0]]) + RemoveUser(queue[1..], userId)
  }

  /** Removing a user keeps exactly the entries of everybody else. */
  lemma {:induction false} RemoveUserKeepsOthers(queue: seq<QueueEntry>, userId: UserId)
    ensures var r := RemoveUser(queue, userId);
      && |r| <= |queue|
      && (forall i :: 0 <= i < |r| ==> r[i].userId != userId && r[i] in queue)
      && (forall e :: e in queue && e.userId != userId ==> e in r)
      && (forall e :: e in queue && e.userId == userId ==> e !in r)
  {
    if queue != [] {
      RemoveUserKeepsOthers(queue[1..], userId);
      assert forall e :: e in queue ==> e == queue[0] || e in queue[1..];
    }
  }

  /** Removal keeps the queue's order: removing from a concatenation
      concatenates what each part keeps. */
  lemma {:induction false} RemoveUserKeepsOrder(a: seq<QueueEntry>, b: seq<QueueEntry>, userId: UserId)
    ensures RemoveUser(a + b, userId) == RemoveUser(a, userId) + RemoveUser(b, userId)
  {
    if a == [] {
      assert a + b == b;
    } else {
      var ab := a + b;
      assert ab[0] == a[0];
      assert ab[1..] == a[1..] + b;
      RemoveUserKeepsOrder(a[1..], b, userId);
    }
  }

  /** The queue after the stale entries are removed and the user is pushed. */
  function Enqueued(queue: seq<QueueEntry>, e: QueueEntry): seq<QueueEntry> {
    RemoveUser(queue, e.userId) + [e]
  }

  /** `getQueue(topic)`: a topic never queued reads as empty. */
  function QueueOf(queues: map<string, seq<QueueEntry>>, topic: string): seq<QueueEntry> {
    if topic in queues then queues[topic] else []
  }

  /** The backward `splice` loop over a queue, removing every entry of the
      user. */
  method WithoutUser(queue: seq<QueueEntry>, userId: UserId) returns (r: seq<QueueEntry>)
    ensures r == RemoveUser(queue, userId)
  {
    r := queue;
    var i := |queue|;
    while i > 0
      invariant 0 <= i <= |queue|
      invariant r == queue[..i] + RemoveUser(queue[i..], userId)
    {
      i := i - 1;
      ghost var rest := RemoveUser(queue[i + 1..], userId);
      assert queue[i..][1..] == queue[i + 1..];
      assert RemoveUser(queue[i..], userId) == (if queue[i].userId == userId then [] else [queue[i]]) + rest;
      assert queue[..i + 1] == queue[..i] + [queue[i]];
      assert r == queue[..i] + [queue[i]] + rest;
      assert r[..i] == queue[..i] && r[i] == queue[i] && r[i + 1..] == rest;
      if r[i].userId == userId {
        r := r[..i] + r[i + 1..];
      }
    }
    assert queue[..0] == [] && queue[0..] == queue;
  }

  /** From a queue of at most one entry, entering yields either the user alone
      or a pair whose first is the one who waited and whose second is the
      newcomer, a different user; a topic queue therefore never holds more
      than one entry between events, and nobody is paired with themselves. */
  lemma EnqueuedPairsDistinctUsers(queue: seq<QueueEntry>, e: QueueEntry)
    requires |queue| <= 1
    ensures var q := Enqueued(queue, e);
      && 1 <= |q| <= 2
      && q[|q| - 1] == e
      && (|q| == 2 <==> |queue| == 1 && queue[0].userId != e.userId)
      && (|q| == 2 ==> q[0] == queue[0] && q[0].userId != q[1].userId)
      && |q[if |q| >= 2 then 2 else 0..]| <= 1
  {
    if |queue| == 1 {
      assert queue[1..] == [];
    }
  }

  // ---------------------------------------------------------------------
  // Answers

  /** The letter comparison: `correctLetter` is known and equals the answer
      once both are trimmed and upper-cased. */
  predicate LetterMatch(detail: Option<Q.AnswerDetail>, answer: string)
    ensures detail.Some? && detail.value.correctLetter != "" && Trim(answer) == Trim(detail.value.correctLetter) ==>
      LetterMatch(detail, answer)
    ensures LetterMatch(detail, answer) ==> detail.Some? && |Trim(answer)| == |Trim(detail.value.correctLetter)|
  {
    && detail.Some? && detail.value.correctLetter != ""
    && ToUpper(Trim(answer)) == ToUpper(Trim(detail.value.correctLetter))
  }

  /** The text comparison: `correctText` is known and equals the answer once
      both are trimmed; case matters. */
  predicate TextMatch(detail: Option<Q.AnswerDetail>, answer: string)
    ensures detail.Some? && detail.value.correctText == Some(answer) && answer != "" ==> TextMatch(detail, answer)
    ensures TextMatch(detail, answer) ==> detail.Some? && detail.value.correctText.Some?
  {
    && detail.Some? && detail.value.correctText.Some? && detail.value.correctText.value != ""
    && Trim(answer) == Trim(detail.value.correctText.value)
  }

  /** `isCorrect`: either comparison accepts. The key letter itself is always
      accepted, and nothing is without a key. */
  predicate IsCorrectAnswer(detail: Option<Q.AnswerDetail>, answer: string)
    ensures detail.Some? && detail.value.correctLetter != "" && answer == detail.value.correctLetter ==>
      IsCorrectAnswer(detail, answer)
    ensures detail.None? ==> !IsCorrectAnswer(detail, answer)
  {
    LetterMatch(detail, answer) || TextMatch(detail, answer)
  }

  /** Whitespace around an answer never changes its verdict. */
  lemma AnswerIgnoresSurroundingSpace(detail: Option<Q.AnswerDetail>, answer: string)
    ensures IsCorrectAnswer(detail, Trim(answer)) == IsCorrectAnswer(detail, answer)
  {
    var t := Trim(answer);
    TrimTrimmed(t);
    assert ToUpper(Trim(t)) == ToUpper(t);
  }

  /** An unknown question (no cached answer key) accepts no answer. */
  lemma UnknownQuestionAcceptsNothing(answer: string)
    ensures !IsCorrectAnswer(None, answer)
  {
  }

  /** For an answer and a key without surrounding white space, the letter
      is compared after upper-casing both ... */
  lemma LetterMatchOnTrimmed(detail: Option<Q.AnswerDetail>, answer: string)
    requires detail.Some? && IsTrimmed(answer) && IsTrimmed(detail.value.correctLetter)
    ensures LetterMatch(detail, answer) <==>
      detail.value.correctLetter != "" && ToUpper(answer) == ToUpper(detail.value.correctLetter)
  {
    TrimTrimmed(answer);
    TrimTrimmed(detail.value.correctLetter);
  }

  /** ... and the text exactly, so a text answer in another case is refused. */
  lemma TextMatchOnTrimmed(detail: Option<Q.AnswerDetail>, answer: string)
    requires detail.Some? && IsTrimmed(answer)
    requires detail.value.correctText.Some? ==> IsTrimmed(detail.value.correctText.value)
    ensures TextMatch(detail, answer) <==>
      detail.value.correctText.Some? && detail.value.correctText.value != "" && answer == detail.value.correctText.value
  {
    TrimTrimmed(answer);
    if detail.value.correctText.Some? {
      TrimTrimmed(detail.value.correctText.value);
    }
  }

  /** A player after one more answer; on a correct one the correct count and
      score grow and the time since the start is recorded. */
  function AfterAnswer(p: PlayerState, correct: bool, elapsed: int): (r: PlayerState)
    ensures r.totalAnswers == p.totalAnswers + 1
    ensures r.correctAnswers == p.correctAnswers + (if correct then 1 else 0)
    ensures correct ==> r.score == r.correctAnswers && r.lastCorrectAt == Some(elapsed)
    ensures !correct ==> r.score == p.score && r.lastCorrectAt == p.lastCorrectAt
    ensures r.(totalAnswers := p.totalAnswers, correctAnswers := p.correctAnswers,
               score := p.score, lastCorrectAt := p.lastCorrectAt) == p
    ensures PlayerOk(p) ==> PlayerOk(r)
  {
    if correct then
      p.(totalAnswers := p.totalAnswers + 1, correctAnswers := p.correctAnswers + 1,
         score := p.correctAnswers + 1, lastCorrectAt := Some(elapsed))
    else p.(totalAnswers := p.totalAnswers + 1)
  }

  /** `submit_answer` acts only when the socket is mapped to a live battle
      whose player has a current question. */
  predicate Answerable(sockets: map<Option<SocketId>, SocketRef>, battles: map<BattleId, BattleState>, socketId: SocketId) {
    && Some(socketId) in sockets
    && sockets[Some(socketId)].battleId in battles
    && battles[sockets[Some(socketId)].battleId].Player(sockets[Some(socketId)].side).currentQuestion.Some?
  }

  /** The battle after `side` answered its current question with verdict
      `correct`. */
  function Counted(b: BattleState, side: Side, correct: bool, now: nat): (r: BattleState)
    ensures r.Player(side) == AfterAnswer(b.Player(side), correct, now - b.startTime)
    ensures r.Player(side.Other()) == b.Player(side.Other())
    ensures r.(playerOne := b.playerOne, playerTwo := b.playerTwo) == b
    ensures r.topic == b.topic && r.strictApi == b.strictApi
    ensures BattleOk(b.battleId, b) ==> BattleOk(b.battleId, r)
  {
    b.WithPlayer(side, AfterAnswer(b.Player(side), correct, now - b.startTime))
  }

  /** `opponent_score` to the other side after a correct answer: the new
      correct count of the side that answered. */
  function ScoreNotice(b: BattleState, side: Side, correct: bool): (r: seq<Emit>)
    ensures !correct ==> r == []
    ensures correct && b.Player(side.Other()).socketId.Some? ==>
      r == [Emit(ToSocket(b.Player(side.Other()).socketId.value), OpponentScore(b.Player(side).correctAnswers + 1))]
    ensures correct && b.Player(side.Other()).socketId.None? ==> r == []
  {
    if correct then ToSeat(b.Player(side.Other()).socketId, OpponentScore(b.Player(side).correctAnswers + 1)) else []
  }

  /** The battle with `q` as the current question of `side`. */
  function WithQuestion(b: BattleState, side: Side, q: Q.Question): (r: BattleState)
    ensures r.Player(side).currentQuestion == Some(q)
    ensures r.Player(side).(currentQuestion := b.Player(side).currentQuestion) == b.Player(side)
    ensures r.Player(side.Other()) == b.Player(side.Other())
    ensures r.(playerOne := b.playerOne, playerTwo := b.playerTwo) == b
    ensures BattleOk(b.battleId, b) ==> BattleOk(b.battleId, r)
  {
    b.WithPlayer(side, b.Player(side).(currentQuestion := Some(q)))
  }

  // ---------------------------------------------------------------------
  // The bot

  /** `(detail?.options || []).map(o => o.letter).filter(Boolean)`. */
  function Letters(options: seq<Q.QuestionOption>): (r: seq<string>)
    ensures |r| <= |options|
    ensures forall i :: 0 <= i < |r| ==> r[i] != ""
    ensures forall i :: 0 <= i < |options| && options[i].letter != "" ==> options[i].letter in r
    ensures forall i :: 0 <= i < |r| ==> exists j :: 0 <= j < |options| && options[j].letter == r[i]
  {
    if options == [] then []
    else
      var rest := Letters(options[1..]);
      assert forall i :: 1 <= i < |options| ==> options[i] == options[1..][i - 1];
      (if options[0].letter != "" then [options[0].letter] else []) + rest
  }

  /** The letters keep the options' order: the letters of a concatenation
      are the letters of each part, one after the other. */
  lemma {:induction false} LettersKeepOrder(a: seq<Q.QuestionOption>, b: seq<Q.QuestionOption>)
    ensures Letters(a + b) == Letters(a) + Letters(b)
  {
    if a == [] {
      assert a + b == b;
    } else {
      var ab := a + b;
      assert ab[0] == a[0];
      assert ab[1..] == a[1..] + b;
      LettersKeepOrder(a[1..], b);
    }
  }

  /** The letter the bot answers: the correct one when the 40% draw `coin`
      came up and a correct letter is known, otherwise the `pick`-th letter of
      all options (the correct one included), or none when there are none. */
  function BotAnswer(detail: Option<Q.AnswerDetail>, coin: bool, pick: nat): (r: string)
    ensures var letters := Letters(if detail.Some? then detail.value.options else []);
      && (r == "" <==> !(coin && detail.Some? && detail.value.correctLetter != "") && letters == [])
      && (r != "" ==> (detail.Some? && r == detail.value.correctLetter) || r in letters)
  {
    if coin && detail.Some? && detail.value.correctLetter != "" then detail.value.correctLetter
    else
      var letters := Letters(if detail.Some? then detail.value.options else []);
      if |letters| > 0 then letters[pick % |letters|] else ""
  }

  predicate BotCorrect(detail: Option<Q.AnswerDetail>, answer: string) {
    answer != "" && detail.Some? && detail.value.correctLetter != "" && answer == detail.value.correctLetter
  }

  /** The 40% branch always answers correctly when the key is known, and
      with no key the bot is never right. */
  lemma BotCoinAnswersKey(detail: Option<Q.AnswerDetail>, pick: nat)
    ensures detail.Some? && detail.value.correctLetter != "" ==> BotCorrect(detail, BotAnswer(detail, true, pick))
    ensures detail.None? ==> !BotCorrect(detail, BotAnswer(detail, true, pick))
  {
  }

  lemma ModBelow(i: nat, n: nat)
    requires i < n
    ensures i % n == i
  {
  }

  /** The other branch can land on every letter, the correct one included. */
  lemma BotPickCoversLetters(detail: Q.AnswerDetail, i: nat)
    requires i < |Letters(detail.options)|
    ensures BotAnswer(Some(detail), false, i) == Letters(detail.options)[i]
  {
    var letters := Letters(detail.options);
    var n := |letters|;
    ModBelow(i, n);
    assert BotAnswer(Some(detail), false, i) == letters[i % n];
  }

  /** Whether the bot's answer to the question it holds is correct, against
      the answer keys in `cache`; false when it holds none. */
  function BotVerdict(b: BattleState, cache: map<string, Q.AnswerEntry>, coin: bool, pick: nat): bool {
    var q := b.playerTwo.currentQuestion;
    var detail := if q.Some? then Q.DetailIn(cache, q.value.id) else None;
    q.Some? && BotCorrect(detail, BotAnswer(detail, coin, pick))
  }

  /** The battles after the bot of battle `id` answered, when it holds a
      question. */
  function BotCounted(b0: map<BattleId, BattleState>, id: BattleId, cache: map<string, Q.AnswerEntry>,
                      coin: bool, pick: nat, now: nat): map<BattleId, BattleState>
    requires id in b0
  {
    if b0[id].playerTwo.currentQuestion.Some? then b0[id := Counted(b0[id], Two, BotVerdict(b0[id], cache, coin, pick), now)]
    else b0
  }

  /** The bot's next delay: 3000 plus a draw below 4000. */
  function BotDelay(draw: nat): (d: nat)
    ensures 3000 <= d <= 6999
  {
    3000 + draw % 4000
  }

  // ---------------------------------------------------------------------
  // Starting a battle

  function FreshPlayer(s: Seat, q: Q.Question): (p: PlayerState)
    ensures PlayerOk(p) && p.totalAnswers == 0 && p.currentQuestion == Some(q)
    ensures p.userId == s.userId && p.socketId == s.socketId && !p.disconnected && p.disconnectTimer.None?
  {
    PlayerState(s.userId, s.username, s.socketId, s.isBot, 0, 0, 0, None, Some(q), false, None)
  }

  /** The state `startBattle` registers: the match timer is handle `timer`;
      only side two can be the bot. */
  function NewBattle(id: BattleId, topic: string, now: nat, timer: TimerId, strictApi: bool, isTestBattle: bool,
                     p1: Seat, p2: Seat, q1: Q.Question, q2: Q.Question): (b: BattleState)
    ensures BattleOk(id, b) && b.endAt == now + MatchDurationMs
    ensures b.playerOne.currentQuestion == Some(q1) && b.playerTwo.currentQuestion == Some(q2) && !b.playerOne.isBot
  {
    BattleState(id, topic, now, now + MatchDurationMs, Some(timer), strictApi, isTestBattle,
      FreshPlayer(p1.(isBot := false), q1), FreshPlayer(p2, q2))
  }

  /** The match timer, and the bot's first turn in a bot battle. */
  function StartTimers(timers: map<TimerId, Timer>, t: TimerId, id: BattleId, withBot: bool): map<TimerId, Timer> {
    var withMatch := timers[t := Timer(Duration(id), MatchDurationMs)];
    if withBot then withMatch[t + 1 := Timer(BotAct(id), FirstBotDelayMs)] else withMatch
  }

  /** `match_found` to each side, then `battle_start` to each side. */
  function StartEmits(id: BattleId, p1: Seat, p2: Seat, q1: Q.Question, q2: Q.Question): seq<Emit> {
    ToSeat(p1.socketId, MatchFound(p2.userId, p2.username, id))
    + ToSeat(p2.socketId, MatchFound(p1.userId, p1.username, id))
    + ToSeat(p1.socketId, BattleStart(Some(q1)))
    + ToSeat(p2.socketId, BattleStart(Some(q2)))
  }

  // ---------------------------------------------------------------------
  // Settlement

  function TimerSet(t: Option<TimerId>): set<TimerId> {
    if t.Some? then {t.value} else {}
  }

  /** The handles `completeBattle` clears. */
  function TimersOf(b: BattleState): set<TimerId> {
    TimerSet(b.timer) + TimerSet(b.playerOne.disconnectTimer) + TimerSet(b.playerTwo.disconnectTimer)
  }

  /** The `forEach` that deletes every socket mapped to the battle. */
  function WithoutBattle(sockets: map<Option<SocketId>, SocketRef>, id: BattleId): (r: map<Option<SocketId>, SocketRef>)
    ensures forall k :: k in r <==> k in sockets && sockets[k].battleId != id
    ensures forall k :: k in r ==> r[k] == sockets[k]
  {
    map k | k in sockets && sockets[k].battleId != id :: sockets[k]
  }

  /** A test battle or one against the bot is practice: nothing is persisted. */
  predicate IsPractice(b: BattleState)
    ensures b.playerTwo.userId == BotUserId ==> IsPractice(b)
    ensures b.isTestBattle ==> IsPractice(b)
  {
    b.isTestBattle || b.playerTwo.userId == BotUserId
  }

  function TallyOf(p: PlayerState): Tally {
    Tally(p.correctAnswers, p.totalAnswers, p.lastCorrectAt)
  }

  function WinnerOf(b: BattleState, forfeitLoser: Option<Side>): Outcome {
    DecideWinner(TallyOf(b.playerOne), TallyOf(b.playerTwo), forfeitLoser)
  }

  /** The user id reported as winner; none for a draw. */
  function WinnerId(b: BattleState, w: Outcome): (r: Option<UserId>)
    ensures w == Draw <==> r.None?
    ensures w.Won? ==> r == Some(b.Player(w.side).userId)
  {
    match w
    case Draw => None
    case Won(s) => Some(b.Player(s).userId)
  }

  function ResultOf(p: PlayerState): PlayerResult {
    PlayerResult(p.userId, p.correctAnswers, p.totalAnswers, Accuracy(p.correctAnswers, p.totalAnswers))
  }

  function ResultsOf(b: BattleState, w: Outcome, reason: string): FinalResults {
    FinalResults(b.battleId, b.topic, ResultOf(b.playerOne), ResultOf(b.playerTwo), WinnerId(b, w), reason)
  }

  /** The match-history document of a rated battle: side one's and side
      two's users, correct counts and totals, and the winner's user, none
      exactly for a draw. */
  function RecordOf(b: BattleState, w: Outcome): (r: BattleRecord)
    ensures r.playerOneId == b.playerOne.userId && r.playerTwoId == b.playerTwo.userId
    ensures r.playerOneScore == b.playerOne.correctAnswers && r.playerTwoScore == b.playerTwo.correctAnswers
    ensures r.playerOneTotalAnswers == b.playerOne.totalAnswers && r.playerTwoTotalAnswers == b.playerTwo.totalAnswers
    ensures r.winnerId.None? <==> w == Draw
    ensures w.Won? ==> r.winnerId == Some(b.Player(w.side).userId)
    ensures r.topic == b.topic
  {
    BattleRecord(b.playerOne.userId, b.playerTwo.userId,
      b.playerOne.correctAnswers, b.playerTwo.correctAnswers,
      b.playerOne.totalAnswers, b.playerTwo.totalAnswers,
      WinnerId(b, w), b.topic)
  }

  /** A user's document after a rated battle played on `side` against a user
      rated `opponentElo`, having played `games` battles before. Settling
      touches only the rating, kp, streak and stats: the rating moves by
      K(games)·(score − expected) against the opponent's pre-battle rating,
      rounded; kp rises by the reward, at
      least 10 per correct answer and at most 150 more; the streak grows by one
      on a win and is reset otherwise; the battle's answers are added to
      `stats[topic]` and no other topic. */
  function SettledUser(u: UserDoc, t: Tally, w: Outcome, side: Side, opponentElo: int, games: nat,
                       topic: string, pow10: int -> PosReal): (r: UserDoc)
    ensures var before := if topic in u.stats then u.stats[topic] else TopicStats(0, 0);
      && r.elo == NewRating(u.elo, EloScore(w, side), ExpectedScore(pow10, u.elo, opponentElo), KFactorForGames(games))
      && r.kp == u.kp + KpReward(t, w, side)
      && u.kp + 10 * t.correct <= r.kp <= u.kp + 10 * t.correct + 150
      && (w == Won(side) ==> r.winStreak == u.winStreak + 1)
      && (w != Won(side) ==> r.winStreak == 0)
      && topic in r.stats
      && r.stats[topic] == TopicStats(before.correct + t.correct, before.incorrect + (t.total - t.correct))
      && (forall k :: k in u.stats && k != topic ==> k in r.stats && r.stats[k] == u.stats[k])
      && r.(elo := u.elo, kp := u.kp, stats := u.stats, winStreak := u.winStreak) == u
  {
    u.(elo := NewRating(u.elo, EloScore(w, side), ExpectedScore(pow10, u.elo, opponentElo), KFactorForGames(games)),
       kp := u.kp + KpReward(t, w, side),
       stats := StatsAfter(u.stats, topic, t),
       winStreak := if w == Won(side) then u.winStreak + 1 else 0)
  }

  /** The streaks after a rated battle, both sides at once: starting from
      streaks that are not negative, a side's streak is positive exactly when
      it won, so at most one side keeps a streak, and a draw resets both. */
  lemma SettledStreaks(u1: UserDoc, u2: UserDoc, t1: Tally, t2: Tally, w: Outcome, g1: nat, g2: nat,
                       topic: string, pow10: int -> PosReal)
    requires u1.winStreak >= 0 && u2.winStreak >= 0
    ensures var n1 := SettledUser(u1, t1, w, One, u2.elo, g1, topic, pow10);
      var n2 := SettledUser(u2, t2, w, Two, u1.elo, g2, topic, pow10);
      && (n1.winStreak > 0 <==> w == Won(One))
      && (n2.winStreak > 0 <==> w == Won(Two))
      && !(n1.winStreak > 0 && n2.winStreak > 0)
      && (w == Draw ==> n1.winStreak == 0 && n2.winStreak == 0)
  {
  }

  /** The winner's rating never drops and the loser's never rises. */
  lemma SettledEloDirection(u: UserDoc, t: Tally, w: Outcome, side: Side, opponentElo: int, games: nat,
                            topic: string, pow10: int -> PosReal)
    ensures w == Won(side) ==> SettledUser(u, t, w, side, opponentElo, games, topic, pow10).elo >= u.elo
    ensures w == Won(side.Other()) ==> SettledUser(u, t, w, side, opponentElo, games, topic, pow10).elo <= u.elo
  {
    var e := ExpectedScore(pow10, u.elo, opponentElo);
    var k := KFactorForGames(games);
    var n := SettledUser(u, t, w, side, opponentElo, games, topic, pow10).elo;
    var x := u.elo as real + k as real * (EloScore(w, side) - e);
    assert n as real - 0.5 <= x < n as real + 0.5;
    if w == Won(side) {
      assert EloScore(w, side) == 1.0;
      assert k as real * (1.0 - e) > 0.0 by { if k == 32 { } else { } }
    } else if w == Won(side.Other()) {
      assert side.Other() != side;
      assert EloScore(w, side) == 0.0;
      assert k as real * (0.0 - e) < 0.0 by { if k == 32 { } else { } }
    }
  }

  // ---------------------------------------------------------------------
  // Reconnection

  /** The player after rebinding to a new socket: connected again, its grace
      timer forgotten, counters and question untouched. */
  function Rebound(p: PlayerState, socketId: SocketId): (r: PlayerState)
    ensures r.socketId == Some(socketId) && !r.disconnected && r.disconnectTimer.None?
    ensures r.(socketId := p.socketId, disconnected := p.disconnected, disconnectTimer := p.disconnectTimer) == p
    ensures PlayerOk(p) ==> PlayerOk(r)
  {
    p.(socketId := Some(socketId), disconnected := false, disconnectTimer := None)
  }

  /** The server state of index.js. `questions` is the question service with
      its answer cache, `store` the database, `pow10` the
      `Math.pow(10, d / 400)` of the Elo expectation. */
  class Arena {
    var topicQueues: map<string, seq<QueueEntry>>
    var battles: map<BattleId, BattleState>
    var socketToBattle: map<Option<SocketId>, SocketRef>
    var timers: map<TimerId, Timer>
    var nextBattleId: nat
    var nextTimerId: nat
    var outbox: seq<Emit>
    const questions: Q.QuestionService
    const store: UserStore
    const pow10: int -> PosReal

    /** Each battle is filed under its own id and keeps consistent counters;
        each topic queue holds at most one waiting player; ids handed out are
        below the counters. */
    ghost predicate Valid()
      reads this
    {
      && (forall id :: id in battles ==> id < nextBattleId && BattleOk(id, battles[id]))
      && (forall topic :: topic in topicQueues ==> |topicQueues[topic]| <= 1)
      && (forall t :: t in timers ==> t < nextTimerId)
    }

    constructor (questions: Q.QuestionService, store: UserStore, pow10: int -> PosReal)
      ensures Valid()
      ensures this.questions == questions && this.store == store && this.pow10 == pow10
      ensures topicQueues == map[] && battles == map[] && socketToBattle == map[] && timers == map[]
      ensures nextBattleId == 0 && nextTimerId == 0 && outbox == []
    {
      this.questions := questions;
      this.store := store;
      this.pow10 := pow10;
      topicQueues := map[];
      battles := map[];
      socketToBattle := map[];
      timers := map[];
      nextBattleId := 0;
      nextTimerId := 0;
      outbox := [];
    }

    /** The six mutable fields other than the queues equal the given values. */
    ghost predicate Same(b0: map<BattleId, BattleState>, s0: map<Option<SocketId>, SocketRef>,
                         t0: map<TimerId, Timer>, o0: seq<Emit>, nb0: nat, nt0: nat)
      reads this
    {
      battles == b0 && socketToBattle == s0 && timers == t0 && outbox == o0
      && nextBattleId == nb0 && nextTimerId == nt0
    }

    /** The state `completeBattle(id, reason, forfeitLoser)` leaves behind when
        started from the given battles, sockets, timers, outbox, users and
        match history. An unknown id changes nothing. Otherwise the battle is
        deregistered and its timers cleared before it is settled. */
    ghost predicate Completes(
      b0: map<BattleId, BattleState>, s0: map<Option<SocketId>, SocketRef>, t0: map<TimerId, Timer>,
      o0: seq<Emit>, u0: map<UserId, UserDoc>, l0: seq<BattleRecord>,
      id: BattleId, reason: string, forfeitLoser: Option<Side>)
      reads this, store
    {
      if id !in b0 then
        battles == b0 && socketToBattle == s0 && timers == t0 && outbox == o0
        && store.users == u0 && store.battles == l0
      else
        && battles == b0 - {id}
        && timers == t0 - TimersOf(b0[id])
        && Settled(s0, o0, u0, l0, id, b0[id], reason, forfeitLoser)
    }

    /** The settlement of the deregistered battle `b` filed under `id`: a
        practice battle reports zero rewards; a rated battle whose user is
        missing stops there (the source throws); otherwise both users are
        settled, the match is logged and the rewards are reported. The
        sockets mapped to the battle are forgotten in both reporting cases. */
    ghost predicate Settled(
      s0: map<Option<SocketId>, SocketRef>, o0: seq<Emit>, u0: map<UserId, UserDoc>, l0: seq<BattleRecord>,
      id: BattleId, b: BattleState, reason: string, forfeitLoser: Option<Side>)
      reads this, store
    {
      var w := WinnerOf(b, forfeitLoser);
      var one, two := b.playerOne.userId, b.playerTwo.userId;
      if IsPractice(b) then
        && socketToBattle == WithoutBattle(s0, id)
        && outbox == o0 + [Emit(ToRoom(id), BattleComplete(ResultsOf(b, w, reason), Reward(0, 0), Reward(0, 0)))]
        && store.users == u0 && store.battles == l0
      else if one !in u0 || two !in u0 then
        socketToBattle == s0 && outbox == o0 && store.users == u0 && store.battles == l0
      else
        RatedSettled(s0, o0, u0, l0, id, b, w, ResultsOf(b, w, reason))
    }

    /** `completeBattle(battleId, reason, forfeitLoserSide)`. A battle is
        settled at most once: the first call deregisters it, and every later
        call for the same id finds nothing and changes nothing. */
    method CompleteBattle(id: BattleId, reason: string, forfeitLoser: Option<Side>)
      requires Valid()
      modifies this, store
      ensures Valid()
      ensures Completes(old(battles), old(socketToBattle), old(timers), old(outbox),
                        old(store.users), old(store.battles), id, reason, forfeitLoser)
      ensures id !in battles
      ensures topicQueues == old(topicQueues) && nextBattleId == old(nextBattleId) && nextTimerId == old(nextTimerId)
    {
      if id !in battles {
        return;
      }
      var b := battles[id];
      battles := battles - {id};
      timers := timers - TimersOf(b);
      Settle(id, b, reason, forfeitLoser);
    }

    /** The part of `completeBattle` after the battle is deregistered: the
        winner, the reports, and for a rated battle the persisted updates. */
    method Settle(id: BattleId, b: BattleState, reason: string, forfeitLoser: Option<Side>)
      modifies this, store
      ensures Settled(old(socketToBattle), old(outbox), old(store.users), old(store.battles), id, b, reason, forfeitLoser)
      ensures battles == old(battles) && timers == old(timers) && topicQueues == old(topicQueues)
      ensures nextBattleId == old(nextBattleId) && nextTimerId == old(nextTimerId)
    {
      var w := WinnerOf(b, forfeitLoser);
      var results := ResultsOf(b, w, reason);
      if IsPractice(b) {
        outbox := outbox + [Emit(ToRoom(id), BattleComplete(results, Reward(0, 0), Reward(0, 0)))];
        socketToBattle := WithoutBattle(socketToBattle, id);
        return;
      }
      SettleRated(id, b, w, results);
    }

    /** The rated branch of the settlement: nothing more happens when a user
        is missing; otherwise both users are updated, the match is logged and
        the rewards are reported. */
    method SettleRated(id: BattleId, b: BattleState, w: Outcome, results: FinalResults)
      modifies this, store
      ensures var one, two := b.playerOne.userId, b.playerTwo.userId;
        if one !in old(store.users) || two !in old(store.users) then
          socketToBattle == old(socketToBattle) && outbox == old(outbox) && store.users == old(store.users)
          && store.battles == old(store.battles)
        else
          RatedSettled(old(socketToBattle), old(outbox), old(store.users), old(store.battles), id, b, w, results)
      ensures battles == old(battles) && timers == old(timers) && topicQueues == old(topicQueues)
      ensures nextBattleId == old(nextBattleId) && nextTimerId == old(nextTimerId)
    {
      var one, two := b.playerOne.userId, b.playerTwo.userId;
      if one !in store.users || two !in store.users {
        return;
      }
      PersistRated(id, b, w, results);
    }

    /** Both users settled, the match logged, the rewards reported and the
        battle's sockets forgotten. */
    ghost predicate RatedSettled(
      s0: map<Option<SocketId>, SocketRef>, o0: seq<Emit>, u0: map<UserId, UserDoc>, l0: seq<BattleRecord>,
      id: BattleId, b: BattleState, w: Outcome, results: FinalResults)
      requires b.playerOne.userId in u0 && b.playerTwo.userId in u0
      reads this, store
    {
      var one, two := b.playerOne.userId, b.playerTwo.userId;
      var n1 := SettledUser(u0[one], TallyOf(b.playerOne), w, One, u0[two].elo, GamesPlayed(l0, one), b.topic, pow10);
      var n2 := SettledUser(u0[two], TallyOf(b.playerTwo), w, Two, u0[one].elo, GamesPlayed(l0, two), b.topic, pow10);
      && store.users == u0[one := n1][two := n2]
      && store.battles == l0 + [RecordOf(b, w)]
      && outbox == o0 + [Emit(ToRoom(id), BattleComplete(results,
           Reward(KpReward(TallyOf(b.playerOne), w, One), n1.elo - u0[one].elo),
           Reward(KpReward(TallyOf(b.playerTwo), w, Two), n2.elo - u0[two].elo)))]
      && socketToBattle == WithoutBattle(s0, id)
    }

    /** The persisted updates of a rated battle whose two users exist. */
    method PersistRated(id: BattleId, b: BattleState, w: Outcome, results: FinalResults)
      requires b.playerOne.userId in store.users && b.playerTwo.userId in store.users
      modifies this, store
      ensures RatedSettled(old(socketToBattle), old(outbox), old(store.users), old(store.battles), id, b, w, results)
      ensures battles == old(battles) && timers == old(timers) && topicQueues == old(topicQueues)
      ensures nextBattleId == old(nextBattleId) && nextTimerId == old(nextTimerId)
    {
      var one, two := b.playerOne.userId, b.playerTwo.userId;
      var u1, u2 := store.users[one], store.users[two];
      var t1, t2 := TallyOf(b.playerOne), TallyOf(b.playerTwo);
      var n1 := SettledUser(u1, t1, w, One, u2.elo, GamesPlayed(store.battles, one), b.topic, pow10);
      var n2 := SettledUser(u2, t2, w, Two, u1.elo, GamesPlayed(store.battles, two), b.topic, pow10);
      store.users := store.users[one := n1][two := n2];
      store.battles := store.battles + [RecordOf(b, w)];
      outbox := outbox + [Emit(ToRoom(id), BattleComplete(results,
        Reward(KpReward(t1, w, One), n1.elo - u1.elo), Reward(KpReward(t2, w, Two), n2.elo - u2.elo)))];
      socketToBattle := WithoutBattle(socketToBattle, id);
    }

    /** The state `startBattle(topic, p1, p2, { strictApi, isTestBattle })`
        leaves behind from the given state: when either question fetch fails
        both seats are told the API is unavailable and nothing is registered;
        otherwise the battle is registered with the two fetched questions. */
    ghost predicate Started(
      b0: map<BattleId, BattleState>, s0: map<Option<SocketId>, SocketRef>, t0: map<TimerId, Timer>,
      o0: seq<Emit>, nb0: nat, nt0: nat, c0: map<string, Q.AnswerEntry>,
      topic: string, p1: Seat, p2: Seat, strictApi: bool, isTestBattle: bool, now: nat,
      a1: seq<Q.AttemptOutcome>, a2: seq<Q.AttemptOutcome>)
      reads this, questions
    {
      var r1 := Q.FetchOutcome(topic, strictApi, a1, now);
      var c1 := Q.CacheAfterFetch(c0, topic, strictApi, a1, now);
      var r2 := Q.FetchOutcome(topic, strictApi, a2, now);
      var c2 := Q.CacheAfterFetch(c1, topic, strictApi, a2, now);
      var notices := ToSeat(p1.socketId, ApiUnavailableNotice) + ToSeat(p2.socketId, ApiUnavailableNotice);
      if r1.Failure? || r2.Failure? then
        && questions.cache == (if r1.Failure? then c1 else c2)
        && Same(b0, s0, t0, o0 + notices, nb0, nt0)
      else
        && questions.cache == c2
        && Registered(b0, s0, t0, o0, nb0, nt0, topic, p1, p2, strictApi, isTestBattle, now, r1.value, r2.value)
    }

    /** A new battle with the fresh id `nb0` is registered, both sockets are
        mapped to it, the match timer (and the bot's first turn) is pending
        and both seats receive `match_found` and `battle_start`. */
    ghost predicate Registered(
      b0: map<BattleId, BattleState>, s0: map<Option<SocketId>, SocketRef>, t0: map<TimerId, Timer>,
      o0: seq<Emit>, nb0: nat, nt0: nat,
      topic: string, p1: Seat, p2: Seat, strictApi: bool, isTestBattle: bool, now: nat, q1: Q.Question, q2: Q.Question)
      reads this
    {
      && battles == b0[nb0 := NewBattle(nb0, topic, now, nt0, strictApi, isTestBattle, p1, p2, q1, q2)]
      && nextBattleId == nb0 + 1
      && socketToBattle == s0[p1.socketId := SocketRef(nb0, One)][p2.socketId := SocketRef(nb0, Two)]
      && timers == StartTimers(t0, nt0, nb0, p2.isBot)
      && nextTimerId == nt0 + (if p2.isBot then 2 else 1)
      && outbox == o0 + StartEmits(nb0, p1, p2, q1, q2)
    }

    /** `startBattle`: fetches the two first questions, then registers the
        battle. */
    method StartBattle(topic: string, p1: Seat, p2: Seat, strictApi: bool, isTestBattle: bool, now: nat,
                       a1: seq<Q.AttemptOutcome>, a2: seq<Q.AttemptOutcome>)
      requires Valid() && |a1| == Q.MaxAttempts && |a2| == Q.MaxAttempts
      modifies this, questions
      ensures Valid()
      ensures Started(old(battles), old(socketToBattle), old(timers), old(outbox), old(nextBattleId), old(nextTimerId),
                      old(questions.cache), topic, p1, p2, strictApi, isTestBattle, now, a1, a2)
      ensures topicQueues == old(topicQueues)
    {
      var notices := ToSeat(p1.socketId, ApiUnavailableNotice) + ToSeat(p2.socketId, ApiUnavailableNotice);
      var r1 := questions.FetchQuestion(topic, strictApi, a1, now);
      if r1.Failure? {
        outbox := outbox + notices;
        return;
      }
      var r2 := questions.FetchQuestion(topic, strictApi, a2, now);
      if r2.Failure? {
        outbox := outbox + notices;
        return;
      }
      RegisterBattle(topic, p1, p2, strictApi, isTestBattle, now, r1.value, r2.value);
    }

    /** The registration half of `startBattle`, once both questions are in. */
    method RegisterBattle(topic: string, p1: Seat, p2: Seat, strictApi: bool, isTestBattle: bool, now: nat,
                          q1: Q.Question, q2: Q.Question)
      requires Valid()
      modifies this
      ensures Valid()
      ensures Registered(old(battles), old(socketToBattle), old(timers), old(outbox), old(nextBattleId), old(nextTimerId),
                         topic, p1, p2, strictApi, isTestBattle, now, q1, q2)
      ensures topicQueues == old(topicQueues)
    {
      var id := nextBattleId;
      nextBattleId := nextBattleId + 1;
      var t := nextTimerId;
      var state := NewBattle(id, topic, now, t, strictApi, isTestBattle, p1, p2, q1, q2);
      battles := battles[id := state];
      socketToBattle := socketToBattle[p1.socketId := SocketRef(id, One)][p2.socketId := SocketRef(id, Two)];
      outbox := outbox + StartEmits(id, p1, p2, q1, q2);
      timers := timers[t := Timer(Duration(id), MatchDurationMs)];
      nextTimerId := nextTimerId + 1;
      if p2.isBot {
        timers := timers[nextTimerId := Timer(BotAct(id), FirstBotDelayMs)];
        nextTimerId := nextTimerId + 1;
      }
    }

    /** The `battles.entries()` scan: the first battle the user takes part in. */
    method FindBattleOf(userId: UserId) returns (r: Option<BattleId>)
      requires Valid()
      ensures r == FirstBattleOf(battles, userId, 0, nextBattleId)
      ensures r.None? <==> !InBattle(battles, userId)
      ensures r.Some? ==> r.value in battles && HasUser(battles[r.value], userId)
    {
      var id := 0;
      while id < nextBattleId
        invariant id <= nextBattleId
        invariant FirstBattleOf(battles, userId, 0, nextBattleId) == FirstBattleOf(battles, userId, id, nextBattleId)
      {
        if id in battles && HasUser(battles[id], userId) {
          return Some(id);
        }
        id := id + 1;
      }
      return None;
    }

    /** `enter_matchmaking` from `userId` on `socketId`. The empty topic is
        `matematica`. A user already in a battle is ignored. A test request
        starts a practice battle against the bot. Otherwise the user's stale
        entries are removed from that topic's queue, the user is pushed, and
        when two are waiting the older one becomes side one and the newcomer
        side two. */
    method EnterMatchmaking(userId: UserId, username: string, socketId: SocketId, topic: string,
                            test: bool, strictApi: bool, now: nat,
                            a1: seq<Q.AttemptOutcome>, a2: seq<Q.AttemptOutcome>)
      requires Valid() && |a1| == Q.MaxAttempts && |a2| == Q.MaxAttempts
      modifies this, questions
      ensures Valid()
      ensures var t := if topic == "" then DefaultTopic else topic;
        if InBattle(old(battles), userId) then
          && Same(old(battles), old(socketToBattle), old(timers), old(outbox), old(nextBattleId), old(nextTimerId))
          && topicQueues == old(topicQueues) && questions.cache == old(questions.cache)
        else if test then
          && topicQueues == old(topicQueues)
          && Started(old(battles), old(socketToBattle), old(timers), old(outbox), old(nextBattleId), old(nextTimerId),
                     old(questions.cache), t, Seat(userId, username, Some(socketId), false),
                     Seat(BotUserId, BotUsername, None, true), strictApi, true, now, a1, a2)
        else
          var q := Enqueued(QueueOf(old(topicQueues), t), QueueEntry(userId, username, socketId));
          if |q| >= 2 then
            && topicQueues == old(topicQueues)[t := q[2..]]
            && Started(old(battles), old(socketToBattle), old(timers), old(outbox), old(nextBattleId), old(nextTimerId),
                       old(questions.cache), t, SeatOf(q[0]), SeatOf(q[1]), strictApi, false, now, a1, a2)
            && q[0].userId != q[1].userId
          else
            && topicQueues == old(topicQueues)[t := q]
            && Same(old(battles), old(socketToBattle), old(timers), old(outbox), old(nextBattleId), old(nextTimerId))
            && questions.cache == old(questions.cache)
    {
      var t := if topic == "" then DefaultTopic else topic;
      var found := FindBattleOf(userId);
      if found.Some? {
        return;
      }
      if test {
        StartBattle(t, Seat(userId, username, Some(socketId), false), Seat(BotUserId, BotUsername, None, true),
          strictApi, true, now, a1, a2);
        return;
      }
      var original := QueueOf(topicQueues, t);
      var queue := WithoutUser(original, userId);
      queue := queue + [QueueEntry(userId, username, socketId)];
      EnqueuedPairsDistinctUsers(original, QueueEntry(userId, username, socketId));
      if |queue| >= 2 {
        var p1, p2 := queue[0], queue[1];
        queue := queue[2..];
        topicQueues := topicQueues[t := queue];
        StartBattle(t, SeatOf(p1), SeatOf(p2), strictApi, false, now, a1, a2);
      } else {
        topicQueues := topicQueues[t := queue];
      }
    }

    /** `submit_answer`: ignored unless the socket is mapped to a live battle
        whose player holds a question; otherwise the answer is played. */
    method SubmitAnswer(socketId: SocketId, answer: string, now: nat, attempts: seq<Q.AttemptOutcome>)
      requires Valid() && |attempts| == Q.MaxAttempts
      modifies this, questions, store
      ensures Valid()
      ensures topicQueues == old(topicQueues) && nextBattleId == old(nextBattleId) && nextTimerId == old(nextTimerId)
      ensures !Answerable(old(socketToBattle), old(battles), socketId) ==>
        && Same(old(battles), old(socketToBattle), old(timers), old(outbox), old(nextBattleId), old(nextTimerId))
        && questions.cache == old(questions.cache)
        && store.users == old(store.users) && store.battles == old(store.battles)
      ensures Answerable(old(socketToBattle), old(battles), socketId) ==>
        Answered(old(battles), old(socketToBattle), old(timers), old(outbox), old(questions.cache),
                 old(store.users), old(store.battles), socketId, old(socketToBattle)[Some(socketId)], answer, now, attempts)
    {
      if Some(socketId) !in socketToBattle {
        return;
      }
      var ref := socketToBattle[Some(socketId)];
      if ref.battleId !in battles {
        return;
      }
      if battles[ref.battleId].Player(ref.side).currentQuestion.None? {
        return;
      }
      PlayAnswer(socketId, ref, answer, now, attempts);
    }

    /** The state an answer on `socketId`, seated as `ref` in a live battle
        and holding a question, leaves behind: the answer is counted, the
        opponent hears of a new score, and the next question is fetched; on
        success it becomes current and `answer_result` is sent back; on
        failure the battle is completed with `api_unavailable`. */
    ghost predicate Answered(
      b0: map<BattleId, BattleState>, s0: map<Option<SocketId>, SocketRef>, t0: map<TimerId, Timer>,
      o0: seq<Emit>, c0: map<string, Q.AnswerEntry>, u0: map<UserId, UserDoc>, l0: seq<BattleRecord>,
      socketId: SocketId, ref: SocketRef, answer: string, now: nat, attempts: seq<Q.AttemptOutcome>)
      requires ref.battleId in b0 && b0[ref.battleId].Player(ref.side).currentQuestion.Some?
      reads this, questions, store
    {
      var b := b0[ref.battleId];
      var correct := IsCorrectAnswer(Q.DetailIn(c0, b.Player(ref.side).currentQuestion.value.id), answer);
      var counted := b0[ref.battleId := Counted(b, ref.side, correct, now)];
      var scored := o0 + ScoreNotice(b, ref.side, correct);
      var r := Q.FetchOutcome(b.topic, b.strictApi, attempts, now);
      && questions.cache == Q.CacheAfterFetch(c0, b.topic, b.strictApi, attempts, now)
      && if r.Success? then
           && battles == counted[ref.battleId := WithQuestion(counted[ref.battleId], ref.side, r.value)]
           && outbox == scored + [Emit(ToSocket(socketId), AnswerResult(correct, r.value))]
           && socketToBattle == s0 && timers == t0
           && store.users == u0 && store.battles == l0
         else
           Completes(counted, s0, t0, scored, u0, l0, ref.battleId, "api_unavailable", None)
    }

    /** Playing an answer from a live seat holding a question. */
    method PlayAnswer(socketId: SocketId, ref: SocketRef, answer: string, now: nat, attempts: seq<Q.AttemptOutcome>)
      requires Valid() && |attempts| == Q.MaxAttempts
      requires ref.battleId in battles && battles[ref.battleId].Player(ref.side).currentQuestion.Some?
      modifies this, questions, store
      ensures Valid()
      ensures topicQueues == old(topicQueues) && nextBattleId == old(nextBattleId) && nextTimerId == old(nextTimerId)
      ensures Answered(old(battles), old(socketToBattle), old(timers), old(outbox), old(questions.cache),
                       old(store.users), old(store.battles), socketId, ref, answer, now, attempts)
    {
      var detail := questions.GetAnswerDetail(battles[ref.battleId].Player(ref.side).currentQuestion.value.id);
      var isCorrect := IsCorrectAnswer(detail, answer);
      CountAnswer(ref.battleId, ref.side, isCorrect, now);
      var next := FetchNext(ref.battleId, ref.side, attempts, now);
      if next.Success? {
        outbox := outbox + [Emit(ToSocket(socketId), AnswerResult(isCorrect, next.value))];
      }
    }

    /** The `try { ... = await fetchQuestion(...) } catch { completeBattle(...) }`
        shared by `submit_answer` and the bot: the next question of the
        battle's topic becomes current for `side`, or the battle is completed
        with `api_unavailable`. */
    method FetchNext(id: BattleId, side: Side, attempts: seq<Q.AttemptOutcome>, now: nat)
      returns (r: Result<Q.Question, string>)
      requires Valid() && id in battles && |attempts| == Q.MaxAttempts
      modifies this, questions, store
      ensures Valid()
      ensures topicQueues == old(topicQueues) && nextBattleId == old(nextBattleId) && nextTimerId == old(nextTimerId)
      ensures var b := old(battles)[id];
        && r == Q.FetchOutcome(b.topic, b.strictApi, attempts, now)
        && questions.cache == Q.CacheAfterFetch(old(questions.cache), b.topic, b.strictApi, attempts, now)
      ensures r.Success? ==>
        && battles == old(battles)[id := WithQuestion(old(battles)[id], side, r.value)]
        && socketToBattle == old(socketToBattle) && timers == old(timers) && outbox == old(outbox)
        && store.users == old(store.users) && store.battles == old(store.battles)
      ensures r.Failure? ==>
        Completes(old(battles), old(socketToBattle), old(timers), old(outbox),
                  old(store.users), old(store.battles), id, "api_unavailable", None)
    {
      var b := battles[id];
      r := questions.FetchQuestion(b.topic, b.strictApi, attempts, now);
      if r.Success? {
        battles := battles[id := WithQuestion(b, side, r.value)];
      } else {
        CompleteBattle(id, "api_unavailable", None);
      }
    }

    /** Counting one answer of `side` in battle `id`: its tallies advance
        and, when the answer is correct, the opponent hears the new score. */
    method CountAnswer(id: BattleId, side: Side, correct: bool, now: nat)
      requires Valid() && id in battles
      modifies this
      ensures Valid()
      ensures battles == old(battles)[id := Counted(old(battles)[id], side, correct, now)]
      ensures outbox == old(outbox) + ScoreNotice(old(battles)[id], side, correct)
      ensures socketToBattle == old(socketToBattle) && timers == old(timers) && topicQueues == old(topicQueues)
      ensures nextBattleId == old(nextBattleId) && nextTimerId == old(nextTimerId)
    {
      var b := battles[id];
      var player := AfterAnswer(b.Player(side), correct, now - b.startTime);
      if correct {
        outbox := outbox + ToSeat(b.Player(side.Other()).socketId, OpponentScore(player.score));
      }
      battles := battles[id := b.WithPlayer(side, player)];
    }

    /** `disconnect`: the socket's side of its live battle is marked
        disconnected and a fresh grace timer naming that side is pending;
        anything else is ignored. */
    method Disconnect(socketId: SocketId)
      requires Valid()
      modifies this
      ensures Valid()
      ensures topicQueues == old(topicQueues) && nextBattleId == old(nextBattleId)
      ensures Some(socketId) !in old(socketToBattle) || old(socketToBattle)[Some(socketId)].battleId !in old(battles) ==>
        Same(old(battles), old(socketToBattle), old(timers), old(outbox), old(nextBattleId), old(nextTimerId))
      ensures Some(socketId) in old(socketToBattle) && old(socketToBattle)[Some(socketId)].battleId in old(battles) ==>
        var ref := old(socketToBattle)[Some(socketId)];
        var b := old(battles)[ref.battleId];
        var h := old(nextTimerId);
        && battles == old(battles)[ref.battleId :=
             b.WithPlayer(ref.side, b.Player(ref.side).(disconnected := true, disconnectTimer := Some(h)))]
        && timers == old(timers)[h := Timer(Grace(ref.battleId, ref.side), DisconnectGraceMs)]
        && nextTimerId == h + 1
        && socketToBattle == old(socketToBattle) && outbox == old(outbox)
    {
      if Some(socketId) !in socketToBattle {
        return;
      }
      var ref := socketToBattle[Some(socketId)];
      if ref.battleId !in battles {
        return;
      }
      var b := battles[ref.battleId];
      var player := b.Player(ref.side);
      var handle := nextTimerId;
      timers := timers[handle := Timer(Grace(ref.battleId, ref.side), DisconnectGraceMs)];
      nextTimerId := nextTimerId + 1;
      player := player.(disconnected := true, disconnectTimer := Some(handle));
      battles := battles[ref.battleId := b.WithPlayer(ref.side, player)];
    }

    /** The rebind on `connection` of `userId` with a new socket: the first
        battle the user is in is rebound to the socket, that side is connected
        again and its grace timer cancelled, and the socket receives the
        current question and the opponent's correct count. */
    method Reconnect(userId: UserId, socketId: SocketId)
      requires Valid()
      modifies this
      ensures Valid()
      ensures topicQueues == old(topicQueues) && nextBattleId == old(nextBattleId) && nextTimerId == old(nextTimerId)
      ensures var f := FirstBattleOf(old(battles), userId, 0, old(nextBattleId));
        if f.None? then
          Same(old(battles), old(socketToBattle), old(timers), old(outbox), old(nextBattleId), old(nextTimerId))
        else
          var b := old(battles)[f.value];
          var side := SideOf(b, userId);
          var p := b.Player(side);
          && battles == old(battles)[f.value := b.WithPlayer(side, Rebound(p, socketId))]
          && timers == old(timers) - TimerSet(p.disconnectTimer)
          && socketToBattle == old(socketToBattle)[Some(socketId) := SocketRef(f.value, side)]
          && outbox == old(outbox) + [Emit(ToSocket(socketId), BattleStart(p.currentQuestion)),
                                      Emit(ToSocket(socketId), OpponentScore(b.Player(side.Other()).correctAnswers))]
    {
      var found := FindBattleOf(userId);
      if found.None? {
        return;
      }
      var id := found.value;
      var b := battles[id];
      var side := SideOf(b, userId);
      var player := b.Player(side);
      var other := b.Player(side.Other());
      if player.disconnectTimer.Some? {
        timers := timers - {player.disconnectTimer.value};
      }
      player := Rebound(player, socketId);
      battles := battles[id := b.WithPlayer(side, player)];
      socketToBattle := socketToBattle[Some(socketId) := SocketRef(id, side)];
      outbox := outbox + [Emit(ToSocket(socketId), BattleStart(player.currentQuestion)),
                          Emit(ToSocket(socketId), OpponentScore(other.correctAnswers))];
    }

    /** The match timer fires: `completeBattle(battleId, 'time')`. */
    method DurationElapsed(t: TimerId)
      requires Valid() && t in timers && timers[t].action.Duration?
      modifies this, store
      ensures Valid()
      ensures Completes(old(battles), old(socketToBattle), old(timers) - {t}, old(outbox),
                        old(store.users), old(store.battles), old(timers)[t].action.battleId, "time", None)
      ensures topicQueues == old(topicQueues) && nextBattleId == old(nextBattleId) && nextTimerId == old(nextTimerId)
    {
      var id := timers[t].action.battleId;
      timers := timers - {t};
      CompleteBattle(id, "time", None);
    }

    /** A grace timer fires: the side it names forfeits. */
    method GraceElapsed(t: TimerId)
      requires Valid() && t in timers && timers[t].action.Grace?
      modifies this, store
      ensures Valid()
      ensures Completes(old(battles), old(socketToBattle), old(timers) - {t}, old(outbox),
                        old(store.users), old(store.battles), old(timers)[t].action.battleId,
                        "disconnect_forfeit", Some(old(timers)[t].action.side))
      ensures topicQueues == old(topicQueues) && nextBattleId == old(nextBattleId) && nextTimerId == old(nextTimerId)
    {
      var action := timers[t].action;
      timers := timers - {t};
      CompleteBattle(action.battleId, "disconnect_forfeit", Some(action.side));
    }

    /** The bot's `act` fires. Nothing happens when the battle has ended;
        otherwise the bot plays its turn. */
    method BotTurn(t: TimerId, coin: bool, pick: nat, delayDraw: nat, now: nat, attempts: seq<Q.AttemptOutcome>)
      requires Valid() && t in timers && timers[t].action.BotAct? && |attempts| == Q.MaxAttempts
      modifies this, questions, store
      ensures Valid()
      ensures topicQueues == old(topicQueues) && nextBattleId == old(nextBattleId)
      ensures var id := old(timers)[t].action.battleId;
        if id !in old(battles) then
          && Same(old(battles), old(socketToBattle), old(timers) - {t}, old(outbox), old(nextBattleId), old(nextTimerId))
          && questions.cache == old(questions.cache)
          && store.users == old(store.users) && store.battles == old(store.battles)
        else
          BotPlayed(old(battles), old(socketToBattle), old(timers) - {t}, old(outbox), old(nextTimerId),
                    old(questions.cache), old(store.users), old(store.battles), id, coin, pick, delayDraw, now, attempts)
    {
      var id := timers[t].action.battleId;
      timers := timers - {t};
      if id !in battles {
        return;
      }
      BotPlays(id, coin, pick, delayDraw, now, attempts);
    }

    /** The state the bot's turn in the live battle `id` leaves behind: a bot
        holding a question has answered it (see `BotAnswer`) and is counted
        like a player; then the next question is fetched. A failed fetch
        completes the battle with `api_unavailable`; otherwise the question
        becomes the bot's and the next turn is pending after
        `BotDelay(delayDraw)` milliseconds. */
    ghost predicate BotPlayed(
      b0: map<BattleId, BattleState>, s0: map<Option<SocketId>, SocketRef>, t0: map<TimerId, Timer>,
      o0: seq<Emit>, nt0: nat, c0: map<string, Q.AnswerEntry>, u0: map<UserId, UserDoc>, l0: seq<BattleRecord>,
      id: BattleId, coin: bool, pick: nat, delayDraw: nat, now: nat, attempts: seq<Q.AttemptOutcome>)
      requires id in b0
      reads this, questions, store
    {
      var b := b0[id];
      var answered := BotCounted(b0, id, c0, coin, pick, now);
      var scored := o0 + ScoreNotice(b, Two, BotVerdict(b, c0, coin, pick));
      var r := Q.FetchOutcome(b.topic, b.strictApi, attempts, now);
      && questions.cache == Q.CacheAfterFetch(c0, b.topic, b.strictApi, attempts, now)
      && if r.Success? then
           && battles == answered[id := WithQuestion(answered[id], Two, r.value)]
           && timers == t0[nt0 := Timer(BotAct(id), BotDelay(delayDraw))]
           && nextTimerId == nt0 + 1
           && outbox == scored && socketToBattle == s0
           && store.users == u0 && store.battles == l0
         else
           && nextTimerId == nt0
           && Completes(answered, s0, t0, scored, u0, l0, id, "api_unavailable", None)
    }

    /** The turn of the bot in the live battle `id`. */
    method BotPlays(id: BattleId, coin: bool, pick: nat, delayDraw: nat, now: nat, attempts: seq<Q.AttemptOutcome>)
      requires Valid() && id in battles && |attempts| == Q.MaxAttempts
      modifies this, questions, store
      ensures Valid()
      ensures topicQueues == old(topicQueues) && nextBattleId == old(nextBattleId)
      ensures BotPlayed(old(battles), old(socketToBattle), old(timers), old(outbox), old(nextTimerId),
                        old(questions.cache), old(store.users), old(store.battles), id, coin, pick, delayDraw, now, attempts)
    {
      BotAnswers(id, coin, pick, now);
      var next := FetchNext(id, Two, attempts, now);
      if next.Failure? {
        return;
      }
      Schedule(Timer(BotAct(id), BotDelay(delayDraw)));
    }

    /** `setTimeout`: the timer becomes pending under a fresh handle. */
    method Schedule(t: Timer)
      requires Valid()
      modifies this
      ensures Valid()
      ensures timers == old(timers)[old(nextTimerId) := t] && nextTimerId == old(nextTimerId) + 1
      ensures battles == old(battles) && socketToBattle == old(socketToBattle) && outbox == old(outbox)
      ensures topicQueues == old(topicQueues) && nextBattleId == old(nextBattleId)
    {
      timers := timers[nextTimerId := t];
      nextTimerId := nextTimerId + 1;
    }

    /** The answering half of the bot's turn: with a question in hand the bot
        answers and is counted; without one nothing changes. */
    method BotAnswers(id: BattleId, coin: bool, pick: nat, now: nat)
      requires Valid() && id in battles
      modifies this
      ensures Valid()
      ensures battles == BotCounted(old(battles), id, questions.cache, coin, pick, now)
      ensures outbox == old(outbox) + ScoreNotice(old(battles)[id], Two, BotVerdict(old(battles)[id], questions.cache, coin, pick))
      ensures socketToBattle == old(socketToBattle) && timers == old(timers) && topicQueues == old(topicQueues)
      ensures nextBattleId == old(nextBattleId) && nextTimerId == old(nextTimerId)
    {
      var q := battles[id].playerTwo.currentQuestion;
      if q.Some? {
        var detail := questions.GetAnswerDetail(q.value.id);
        var answerLetter := BotAnswer(detail, coin, pick);
        CountAnswer(id, Two, BotCorrect(detail, answerLetter), now);
      }
    }
  }
}
