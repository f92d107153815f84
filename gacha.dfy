/** The `/gacha/pull` handler of server/src/routes/gacha.js: a paid random
    draw from the cosmetics pool that rerolls a few times to avoid items the
    user already owns.

    `Math.floor(Math.random() * pool.length)` is the k-th random draw; the
    model receives the draws as numbers and reduces each modulo the pool
    size, which ranges over exactly the same indices. The pool is the result
    of `Cosmetic.find()`, read after the catalogue has been seeded. */
module Gacha {
  import opened Models

  const GachaCostSg := 100
  const MaxRerolls := 5

  datatype PullResponse =
    | Awarded(item: Cosmetic, sg: int, inventory: seq<string>)
    | UserNotFound
    | NotEnoughSg
    | NoCosmetics
  {
    function Status(): int {
      match this
      case Awarded(_, _, _) => 200
      case UserNotFound => 404
      case NotEnoughSg => 400
      case NoCosmetics => 500
    }
  }

  /** The pool index of the k-th draw (none given reads as 0). */
  function Draw(draws: seq<nat>, k: nat, poolSize: nat): (i: nat)
    requires poolSize > 0
    ensures i < poolSize
  {
    if k < |draws| then draws[k] % poolSize else 0
  }

  /** The number of rerolls the loop performs when it has already rerolled
      `attempts` times: it stops at the first draw the user does not own, or
      after the fifth reroll. */
  function Rerolls(pool: seq<Cosmetic>, owned: seq<string>, draws: seq<nat>, attempts: nat): (n: nat)
    requires |pool| > 0 && attempts <= MaxRerolls
    ensures attempts <= n <= MaxRerolls
    ensures n < MaxRerolls ==> pool[Draw(draws, n, |pool|)].itemId !in owned
    ensures forall j :: attempts <= j < n ==> pool[Draw(draws, j, |pool|)].itemId in owned
    decreases MaxRerolls - attempts
  {
    if pool[Draw(draws, attempts, |pool|)].itemId in owned && attempts < MaxRerolls
    then Rerolls(pool, owned, draws, attempts + 1)
    else attempts
  }

  predicate NoDuplicates(s: seq<string>) {
    forall i, j :: 0 <= i < j < |s| ==> s[i] != s[j]
  }

  /** `if (!inventory.includes(id)) inventory.push(id)`. */
  function AddIfAbsent(inventory: seq<string>, id: string): (r: seq<string>)
    ensures id in r && (forall x :: x in inventory ==> x in r)
    ensures |inventory| <= |r| <= |inventory| + 1
    ensures NoDuplicates(inventory) ==> NoDuplicates(r)
    ensures id in inventory ==> r == inventory
  {
    if id in inventory then inventory else inventory + [id]
  }

  /** The user's document after a successful pull of `item`. */
  function AfterPull(u: UserDoc, item: Cosmetic): UserDoc {
    u.(sg := u.sg - GachaCostSg, inventory := AddIfAbsent(u.inventory, item.itemId))
  }

  /** `POST /gacha/pull`. */
  method Pull(store: UserStore, userId: UserId, pool: seq<Cosmetic>, draws: seq<nat>)
    returns (resp: PullResponse)
    modifies store
    ensures store.battles == old(store.battles)
    ensures userId !in old(store.users) ==> resp == UserNotFound && store.users == old(store.users)
    ensures userId in old(store.users) && old(store.users[userId].sg) < GachaCostSg ==>
      resp == NotEnoughSg && store.users == old(store.users)
    ensures userId in old(store.users) && old(store.users[userId].sg) >= GachaCostSg && pool == [] ==>
      resp == NoCosmetics && store.users == old(store.users)
    ensures userId in old(store.users) && old(store.users[userId].sg) >= GachaCostSg && pool != [] ==>
      var u := old(store.users[userId]);
      var item := pool[Draw(draws, Rerolls(pool, u.inventory, draws, 0), |pool|)];
      && resp == Awarded(item, u.sg - GachaCostSg, AfterPull(u, item).inventory)
      && store.users == old(store.users)[userId := AfterPull(u, item)]
  {
    if userId !in store.users {
      return UserNotFound;
    }
    var user := store.users[userId];
    if user.sg < GachaCostSg {
      return NotEnoughSg;
    }
    if |pool| == 0 {
      return NoCosmetics;
    }
    var selected := pool[Draw(draws, 0, |pool|)];
    var attempts := 0;
    while selected.itemId in user.inventory && attempts < MaxRerolls
      invariant 0 <= attempts <= MaxRerolls
      invariant selected == pool[Draw(draws, attempts, |pool|)]
      invariant Rerolls(pool, user.inventory, draws, 0) == Rerolls(pool, user.inventory, draws, attempts)
    {
      attempts := attempts + 1;
      selected := pool[Draw(draws, attempts, |pool|)];
    }
    user := user.(sg := user.sg - GachaCostSg);
    if selected.itemId !in user.inventory {
      user := user.(inventory := user.inventory + [selected.itemId]);
    }
    store.users := store.users[userId := user];
    resp := Awarded(selected, user.sg, user.inventory);
  }

  /** A pull never takes a sufficient balance below zero, and keeps an
      inventory free of duplicates while adding at most one item. */
  lemma PullKeepsEconomyInvariants(u: UserDoc, item: Cosmetic)
    requires u.sg >= GachaCostSg && NoDuplicates(u.inventory)
    ensures AfterPull(u, item).sg >= 0 && AfterPull(u, item).sg == u.sg - 100
    ensures NoDuplicates(AfterPull(u, item).inventory)
    ensures |u.inventory| <= |AfterPull(u, item).inventory| <= |u.inventory| + 1
  {
  }
}
