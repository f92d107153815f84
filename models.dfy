/** The persisted records of server/src/models (User, Battle, Cosmetic) and
    the store that holds them. Mongoose queries become reads and writes of
    the store's fields; schema defaults become the values `NewUser` gives. */
module Models {
  import opened Wrappers

  type UserId = string

  /** Per-topic answer tallies kept in `user.stats[topic]`. */
  datatype TopicStats = TopicStats(correct: int, incorrect: int)

  datatype UserDoc = UserDoc(
    id: UserId, username: string, password: string,
    elo: int, kp: int, sg: int, winStreak: int,
    stats: map<string, TopicStats>,
    inventory: seq<string>,
    equippedCosmetics: map<string, string>)

  /** A user as the schema creates one: rating 1200, no currency, no streak,
      empty stats, inventory and equipment. */
  function NewUser(id: UserId, username: string, password: string): UserDoc {
    UserDoc(id, username, password, 1200, 0, 0, 0, map[], [], map[])
  }

  /** One match-history document. */
  datatype BattleRecord = BattleRecord(
    playerOneId: UserId, playerTwoId: UserId,
    playerOneScore: nat, playerTwoScore: nat,
    playerOneTotalAnswers: nat, playerTwoTotalAnswers: nat,
    winnerId: Option<UserId>, topic: string)

  datatype Cosmetic = Cosmetic(itemId: string, name: string, kind: string, rarity: string)

  /** `Battle.countDocuments({ $or: [{ playerOneId: id }, { playerTwoId: id }] })`. */
  function GamesPlayed(log: seq<BattleRecord>, id: UserId): (n: nat)
    ensures n <= |log|
    ensures n == 0 <==> forall i :: 0 <= i < |log| ==> log[i].playerOneId != id && log[i].playerTwoId != id
  {
    if log == [] then 0
    else (if log[0].playerOneId == id || log[0].playerTwoId == id then 1 else 0) + GamesPlayed(log[1..], id)
  }

  /** Appending a record of one's own match counts one more game; a match
      between others changes nothing. */
  lemma {:induction false} GamesPlayedAppend(log: seq<BattleRecord>, r: BattleRecord, id: UserId)
    ensures GamesPlayed(log + [r], id) ==
      GamesPlayed(log, id) + (if r.playerOneId == id || r.playerTwoId == id then 1 else 0)
  {
    if log != [] {
      assert (log + [r])[1..] == log[1..] + [r];
      GamesPlayedAppend(log[1..], r, id);
    } else {
      assert log + [r] == [r];
    }
  }

  /** The database: the users collection and the battles collection. */
  class UserStore {
    var users: map<UserId, UserDoc>
    var battles: seq<BattleRecord>

    constructor ()
      ensures users == map[] && battles == []
    {
      users := map[];
      battles := [];
    }
  }
}
