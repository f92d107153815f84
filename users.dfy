/** The `/users/profile` and `/users/equip` handlers of server/src/routes/users.js. */
module UserRoutes {
  import opened Models

  /** A field value of the plain object `User.findById(...).lean()` yields. */
  datatype FieldValue =
    | Text(s: string)
    | Number(n: int)
    | TextList(items: seq<string>)
    | Tallies(stats: map<string, TopicStats>)
    | Slots(slots: map<string, string>)

  const PasswordField := "password"

  /** The lean document of a user: one entry per modelled schema path,
      `password` included. */
  function LeanDoc(u: UserDoc): (d: map<string, FieldValue>)
    ensures PasswordField in d && d[PasswordField] == Text(u.password)
    ensures "_id" in d && d["_id"] == Text(u.id)
  {
    map[
      "_id" := Text(u.id), "username" := Text(u.username), PasswordField := Text(u.password),
      "elo" := Number(u.elo), "kp" := Number(u.kp), "sg" := Number(u.sg),
      "winStreak" := Number(u.winStreak), "stats" := Tallies(u.stats),
      "inventory" := TextList(u.inventory), "equippedCosmetics" := Slots(u.equippedCosmetics)]
  }

  /** The lean document loses nothing: two users with the same lean
      document are the same user document. */
  lemma LeanDocLossless(u: UserDoc, v: UserDoc)
    requires LeanDoc(u) == LeanDoc(v)
    ensures u == v
  {
    var du, dv := LeanDoc(u), LeanDoc(v);
    assert du["username"] == dv["username"] && du["elo"] == dv["elo"] && du["kp"] == dv["kp"];
    assert du["sg"] == dv["sg"] && du["winStreak"] == dv["winStreak"] && du["stats"] == dv["stats"];
    assert du["inventory"] == dv["inventory"] && du["equippedCosmetics"] == dv["equippedCosmetics"];
  }

  datatype ProfileResponse = Profile(user: map<string, FieldValue>) | ProfileNotFound

  /** `GET /users/profile`: the lean user document with `password` deleted. */
  method GetProfile(store: UserStore, userId: UserId) returns (resp: ProfileResponse)
    ensures userId !in store.users <==> resp == ProfileNotFound
    ensures resp.Profile? ==> PasswordField !in resp.user
    ensures resp.Profile? ==> forall f :: f in LeanDoc(store.users[userId]) && f != PasswordField ==>
      f in resp.user && resp.user[f] == LeanDoc(store.users[userId])[f]
    ensures resp.Profile? ==> forall f :: f in resp.user ==> f in LeanDoc(store.users[userId])
  {
    if userId !in store.users {
      return ProfileNotFound;
    }
    var user := LeanDoc(store.users[userId]);
    user := user - {PasswordField};
    resp := Profile(user);
  }

  datatype EquipResponse =
    | Equipped(equippedCosmetics: map<string, string>)
    | MissingFields
    | UserNotFound
    | NotInInventory
    | CosmeticNotFound
  {
    function Status(): int {
      match this
      case Equipped(_) => 200
      case MissingFields => 400
      case UserNotFound => 404
      case NotInInventory => 400
      case CosmeticNotFound => 404
    }
  }

  /** `POST /users/equip`: `catalogue` is what `Cosmetic.findOne({ itemId })`
      searches; the empty string stands for a missing body field. */
  method Equip(store: UserStore, userId: UserId, slot: string, itemId: string, catalogue: seq<Cosmetic>)
    returns (resp: EquipResponse)
    modifies store
    ensures store.battles == old(store.battles)
    ensures !resp.Equipped? ==> store.users == old(store.users)
    ensures slot == "" || itemId == "" ==> resp == MissingFields
    ensures slot != "" && itemId != "" && userId !in old(store.users) ==> resp == UserNotFound
    ensures slot != "" && itemId != "" && userId in old(store.users) ==>
      var u := old(store.users[userId]);
      if itemId !in u.inventory then resp == NotInInventory
      else if forall c :: c in catalogue ==> c.itemId != itemId then resp == CosmeticNotFound
      else
        && resp == Equipped(u.equippedCosmetics[slot := itemId])
        && store.users == old(store.users)[userId := u.(equippedCosmetics := u.equippedCosmetics[slot := itemId])]
  {
    if slot == "" || itemId == "" {
      return MissingFields;
    }
    if userId !in store.users {
      return UserNotFound;
    }
    var user := store.users[userId];
    if itemId !in user.inventory {
      return NotInInventory;
    }
    if forall c :: c in catalogue ==> c.itemId != itemId {
      return CosmeticNotFound;
    }
    user := user.(equippedCosmetics := user.equippedCosmetics[slot := itemId]);
    store.users := store.users[userId := user];
    resp := Equipped(user.equippedCosmetics);
  }
}
